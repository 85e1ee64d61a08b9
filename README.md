# Seeding script of the ur-ba backend, modelled in Dafny

The backend keeps six document collections: users, courses, lessons, events,
posts and comments. A one-shot seeding script connects to the database and
empties the six collections. It then saves a fixed fixture in dependency
order: one admin (login `111`), five users with rotating roles, three courses
with three lessons each, four events, five posts and two comments per post.
Children carry the ids of parents saved earlier in the same run. The whole
sequence sits in one `try`. The first failing write ends the run with exit
status 1, and nothing already written is undone. A failed connection also
exits with status 1, before any write.

The model has five modules:

- `Entities` (`entities.dfy`): the six record types, their closed
  enumerations, and the record literals the script builds. The literals
  include the decimal rendering of `${i + 1}` in the labels.
- `DocStore` (`doc_store.dfy`): the database as a `Store` class. It has six
  `seq` fields, an id counter, a count of writes performed, and a ghost log
  of every write it was asked to perform, refused or not. `Save`
  appends a document under a fresh id, and `DeleteMany` empties one
  collection. An injected `failAt` makes every write from a chosen position
  of the store's lifetime on fail without effect. The value-level
  `StoreState` and `ApplyWrite`/`Run` give each write its meaning.
  `WellFormed` says ids are unique across collections. `RefIntegrity` says
  every reference field resolves.
- `SeedPlan` (`seed_plan.dfy`): the recipe as data. `Recipe` is the batch
  of document bodies a run saves, collection by collection, in save order.
  `Step` and `Writes` give the 43 writes of a run in order, `Plan` lists
  them as one sequence, and
  `WritesGranted` says how many of them a failing store grants. `After(s0,
  b, k)` is the closed form of the store after the first `k` writes, and
  `Fixture` is the state after all 43.
- `SeedScript` (`seed.dfy`): the imperative script. There is one method per
  block of the source. The user, course, lesson, event, post and comment
  blocks keep the source's `for` loops, with their invariants. The six
  straight-line deletes of the reset are issued by one loop over the
  source's order, and the admin block is a single save. `RunBlocks` runs
  the blocks in order, and `Seed` returns `Ok` or
  `Failed(ConnectionError | WriteError)` instead of calling
  `process.exit`. `ExitCode` maps that outcome to 0 or 1.
- `SeedProperties` (`seed_properties.dfy`) and `SeedScenarios`
  (`scenarios.dfy`): what the fixture looks like, referential integrity of
  every state after the reset, and the end-to-end runs.

Inputs the script takes from its environment are parameters:

- `connected` says whether `mongoose.connect` succeeded.
- `hash` stands for `hashPassword`.
- `now` is the clock, in milliseconds.
- `failAt` on the store is the injected database failure.

Ids are natural numbers handed out consecutively by the store.

## Model

| member | source | states |
|---|---|---|
| `DocStore.Store.DeleteMany` | src/seed-data.ts:21-26 | A bulk delete empties exactly its collection and changes nothing else. If the store refuses the write, nothing changes and `false` is returned. Ids stay unique. Either way the delete is appended to the log of requested writes. |
| `DocStore.Store.Save` | src/seed-data.ts:44 | A save appends the document to its kind's collection under the store's next id. That id was held by no document of that kind. A refused save returns `None` and changes nothing. Either way the save is appended to the log of requested writes. |
| `DocStore.ApplyWritePreservesWellFormed` | src/seed-data.ts:44 | No write makes two documents share an id, in one collection or across two. Every id stays below the counter, and the counter never goes back. |
| `DocStore.RunPreservesWellFormed` | src/seed-data.ts:21-154 | Any sequence of writes keeps ids unique within and across collections. |
| `DocStore.IntegrityIsUnambiguous` | src/seed-data.ts:81-149 | In a store with unique ids, a reference that resolves in its referenced collection resolves in no other collection. |
| `Entities.NatToString` | src/seed-data.ts:54 | `${n}` is a non-empty string of decimal digits, and it has one digit exactly when `n < 10`. |
| `Entities.NatToStringValue` | src/seed-data.ts:54 | The digits of `${n}`, read as a decimal number, give back `n`. |
| `Entities.NatToStringInjective` | src/seed-data.ts:54 | Distinct numbers render as distinct strings. |
| `SeedPlan.WritesGranted` | src/seed-data.ts:19 | Gives how many of the run's 43 writes succeed before the first refused one. All 43 succeed exactly when no refusal falls inside the run. Otherwise the run stops at the refusal position. |
| `SeedPlan.Recipe` | src/seed-data.ts:29-153 | The run saves 6 users (the admin first), 3 courses, 9 lessons, 4 events, 5 posts and 10 comments, each built by the record literal of its loop. |
| `SeedPlan.PlanPrefix` | src/seed-data.ts:21-154 | The first `n` writes of the run's plan, in order, are exactly the writes that `Writes(b, n)` lists one by one. |
| `SeedPlan.AfterStep` | src/seed-data.ts:21-154 | Each write of the run, applied to the closed form after `k` writes, gives the closed form after `k + 1`. |
| `SeedPlan.RunIsAfter` | src/seed-data.ts:21-154 | Applying the first `k` writes of a run gives the closed form `After(s0, b, k)`. Collections not yet reset keep their old documents. A reset collection holds the run's saves so far, in order, under consecutive ids. |
| `SeedScript.ExitCode` | src/seed-data.ts:157-164 | Exit status 0 exactly on success, 1 on either kind of failure. |
| `SeedScript.DeleteStep` | src/seed-data.ts:21 | Issuing the next delete of the run either extends the performed prefix by one write or stops the run with the prefix intact. |
| `SeedScript.SaveStep` | src/seed-data.ts:44 | Issuing the next save of the run either extends the performed prefix and yields the store's next id, or stops the run with the prefix intact. |
| `SeedScript.ResetCollections` | src/seed-data.ts:21-26 | Asks for the six deletes in source order and performs them, or stops at the first refused one, which is then the last write asked of the store. |
| `SeedScript.CreateAdmin` | src/seed-data.ts:29-45 | Saves the admin as write 6 of the run. Its id is the first id of the run. |
| `SeedScript.CreateUsers` | src/seed-data.ts:48-70 | Saves user `i` with role `ROLES[i % 3]` for `i` in 0..4. The `users` list it returns holds their ids in order. |
| `SeedScript.CreateCourses` | src/seed-data.ts:73-86 | Saves course `i` for `i` in 0..2, created by the admin. The level lookup `LEVELS[i]` stays in bounds. `courses` holds their ids. |
| `SeedScript.CreateCourseLessons` | src/seed-data.ts:90-112 | Saves the three lessons of course `i`, each referring to `courses[i]`. |
| `SeedScript.CreateLessons` | src/seed-data.ts:89-113 | Saves three lessons for each of the three courses, in course order. |
| `SeedScript.CreateEvents` | src/seed-data.ts:116-127 | Saves the four events, created by the admin and dated from `now`. |
| `SeedScript.CreatePosts` | src/seed-data.ts:130-141 | Saves post `i`, written by `users[i % 5]`. `posts` holds their ids. |
| `SeedScript.CreatePostComments` | src/seed-data.ts:145-153 | Saves the two comments under post `i`. Comment `j` is by `users[(i + j) % 5]`. |
| `SeedScript.CreateComments` | src/seed-data.ts:144-154 | Saves two comments under each of the five posts, in post order. |
| `SeedScript.RunBlocks` | src/seed-data.ts:19-155 | Runs the blocks in source order. Either all 43 writes are asked for and performed, or the run stops at the first refused write with the writes before it kept. |
| `SeedScript.Seed` | src/seed-data.ts:14-165 | Without a connection: `Failed(ConnectionError)`, no write and no change. Otherwise exactly the first `n = WritesGranted` writes are performed and kept, with no rollback. The log of requested writes grows by exactly the first `n` writes of the plan plus, when `n < 43`, the refused one, so nothing is written after a failure. Without a connection the log is unchanged. The store is `After(old, Recipe, n)`. The outcome is `Ok` exactly when all 43 were granted, else `Failed(WriteError)`. |
| `SeedProperties.ResetIdempotent` | src/seed-data.ts:21-26 | The reset leaves all six collections empty whatever they held, and running it again gives the same empty state. |
| `SeedProperties.Complete` | src/seed-data.ts:21-154 | After all 43 writes every collection holds exactly its bodies of the batch, numbered from the run's first id in save order, and nothing it held before. |
| `SeedProperties.RecipeLayout` | src/seed-data.ts:81-149 | Courses and events point at the admin, lesson `m` at course `m / 3` with order `m % 3 + 1`, post `t` at user `t % 5`, and comment `m` at post `m / 2` and user `(m / 2 + m % 2) % 5`. |
| `SeedProperties.FixtureCounts` | src/seed-data.ts:44-154 | A complete run leaves 6 users, 3 courses, 9 lessons, 4 events, 5 posts and 10 comments, using 37 fresh ids. |
| `SeedProperties.FixtureIgnoresOldContents` | src/seed-data.ts:21-154 | The final state of a complete run does not depend on what the store held before, apart from the id counter. |
| `SeedProperties.FixtureUsers` | src/seed-data.ts:30-66 | User 0 is the admin record (`111`, role admin) and the only admin. User `i + 1` has role `ROLES[i % 3]`, is male exactly when `i` is even, and is named `user{i+1}`. |
| `SeedProperties.UsernamesDistinct` | src/seed-data.ts:31-54 | The six usernames are pairwise distinct. |
| `SeedProperties.FixtureCourses` | src/seed-data.ts:74-82 | Course `i` has level `LEVELS[i]`, duration `30 + 10 * i`, and `createdBy` equal to the admin's id. |
| `SeedProperties.FixtureLessons` | src/seed-data.ts:89-109 | Lesson `m` refers to course `m / 3` and has order `m % 3 + 1`. Its blocks are a text block with order 1, then an image block with order 2. |
| `SeedProperties.LessonOrdersPerCourse` | src/seed-data.ts:90-108 | The lessons of course `i` have order values exactly {1, 2, 3}. |
| `SeedProperties.FixtureEvents` | src/seed-data.ts:116-124 | Event `i` is created by the admin and dated `now + (i + 1) * 86400000`. |
| `SeedProperties.FixturePosts` | src/seed-data.ts:131-137 | Post `i` has category `CATEGORIES[i % 4]` and author `users[i % 5]`. The admin is never the author. |
| `SeedProperties.FixtureComments` | src/seed-data.ts:144-150 | Comment `j` under post `i` refers to post `i` and is by `users[(i + j) % 5]`. |
| `SeedProperties.CommentAuthorVsPostAuthor` | src/seed-data.ts:136-148 | The first comment under each post is by the post's own author. The second is by someone else. |
| `SeedProperties.PrefixIdsFresh` | src/seed-data.ts:21-154 | After the reset, every id in the store was handed out by this run. |
| `SeedProperties.PrefixIntegrity` | src/seed-data.ts:81-149 | In every state after the reset, complete or left by a failure, every reference field resolves to a document of the referenced collection. |
| `SeedProperties.PrefixWellFormed` | src/seed-data.ts:21-154 | In every state after the reset, no id is held by two documents. |
| `SeedProperties.PrefixRefsUnambiguous` | src/seed-data.ts:81-149 | In every state after the reset, each reference field names a document of its referenced collection and of no other. |
| `SeedProperties.ThirdCourseFailure` | src/seed-data.ts:74-86 | If the third course insertion is refused, the run keeps 6 users and 2 courses and nothing else. |
| `SeedScenarios.SeedEmptyDatabase` | src/seed-data.ts:14-157 | Seeding an empty database exits 0 and leaves the full fixture counts. |
| `SeedScenarios.SeedFailingAtThirdCourse` | src/seed-data.ts:158-160 | A database refusing the third course insertion: exit 1 after 14 writes, with 6 users and 2 courses kept. |
| `SeedScenarios.SeedUnreachableDatabase` | src/seed-data.ts:162-165 | A failed connection: exit 1 and no write. |
| `SeedScenarios.SeedTwice` | src/seed-data.ts:21-26 | Seeding twice leaves exactly the fixture of one run, under the second run's ids. |

## Left out

- The database connection, `dotenv` and the database name are left out. Whether `mongoose.connect` succeeds is the `connected` parameter of `Seed`.
- Real ObjectId generation is left out. The store hands out consecutive natural numbers.
- ORM schema validation is not modelled separately. A save the ORM would reject is one kind of refused write, which the injected `failAt` covers.
- `hashPassword` is the parameter `hash`, a deterministic function from string to string. Salting, and a rejected hash promise (which would also end in the `catch` with status 1), are not modelled.
- The clock is the one parameter `now`. The source reads `new Date()` once per user and `Date.now()` once per event, so its real timestamps can differ by a few milliseconds. Dates are integers in milliseconds.
- The failure injection is "every write from lifetime position `failAt` on is refused". That the script asks for nothing after the first refused write is stated separately, through the store's log of requested writes.
- A refused write is modelled as atomic: it changes nothing. On the real database a `deleteMany` that errors part-way can leave some documents deleted, and a save whose acknowledgement is lost can still be stored. Neither case is modelled.
- A database call that hangs is not modelled, because the script has no timeout.
- `console.log` and `console.error` output is not modelled.
- `process.exit` becomes the `Outcome` value and `ExitCode`.
- `src/index.ts` (Express app, CORS, body parsers, rate limiter, routes, `listen`) is not part of this model. It is framework wiring with no logic of its own.
- The route, model and middleware files are not part of this model.
