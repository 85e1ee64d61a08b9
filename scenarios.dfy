/** The three end-to-end runs of the seeding script: on an empty database, on
    one whose third course insertion fails, and on an unreachable database. */
module SeedScenarios {
  import opened Entities
  import opened DocStore
  import opened SeedPlan
  import opened SeedScript
  import opened SeedProperties

  /** Seeding an empty database succeeds, exits with status 0 and leaves the
      whole fixture in the store. */
  method SeedEmptyDatabase(hash: string -> string, now: int)
    returns (code: int, users: nat, courses: nat, lessons: nat, events: nat, posts: nat, comments: nat)
    ensures code == 0
    ensures users == 6 && courses == 3 && lessons == 9 && events == 4 && posts == 5 && comments == 10
  {
    var store := new Store(None);
    var outcome := Seed(store, true, hash, now);
    FixtureCounts(Empty(0), hash, now);
    code := ExitCode(outcome);
    users, courses, lessons := |store.users|, |store.courses|, |store.lessons|;
    events, posts, comments := |store.events|, |store.posts|, |store.comments|;
  }

  /** A database that refuses the third course insertion (write 15 of the run):
      the run exits with status 1 after 14 writes, and the admin, the five
      users and the first two courses stay in the store. */
  method SeedFailingAtThirdCourse(hash: string -> string, now: int)
    returns (code: int, writes: nat, users: nat, courses: nat, lessons: nat, events: nat, posts: nat, comments: nat)
    ensures code == 1 && writes == COURSES_START + 2
    ensures users == 6 && courses == 2 && lessons == 0 && events == 0 && posts == 0 && comments == 0
  {
    var store := new Store(Some(COURSES_START + 2));
    var outcome := Seed(store, true, hash, now);
    ThirdCourseFailure(Empty(0), 0, hash, now);
    code := ExitCode(outcome);
    writes := store.writes;
    users, courses, lessons := |store.users|, |store.courses|, |store.lessons|;
    events, posts, comments := |store.events|, |store.posts|, |store.comments|;
  }

  /** When the connection fails the run exits with status 1 and writes nothing. */
  method SeedUnreachableDatabase(hash: string -> string, now: int) returns (code: int, writes: nat)
    ensures code == 1 && writes == 0
  {
    var store := new Store(None);
    var outcome := Seed(store, false, hash, now);
    code := ExitCode(outcome);
    writes := store.writes;
  }

  /** Seeding the same database twice leaves the fixture of a single run,
      under the ids the second run handed out. */
  method SeedTwice(hash: string -> string, now: int) returns (code: int, same: bool)
    ensures code == 0 && same
  {
    var store := new Store(None);
    var first := Seed(store, true, hash, now);
    var second := Seed(store, true, hash, now);
    FixtureIgnoresOldContents(Fixture(Empty(0), hash, now), hash, now);
    code := ExitCode(second);
    same := store.State() == Fixture(Empty(TOTAL_WRITES - USERS_START), hash, now);
  }
}
