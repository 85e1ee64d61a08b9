/** The seeding recipe as data: the 43 writes a run issues, in order (six bulk
    deletes, then the saves of one admin, five users, three courses, nine
    lessons, four events, five posts and ten comments), and the closed form of
    the store after any prefix of them. Ids are abstract: the store hands out
    consecutive numbers, so the id of every saved document is known from its
    position in the run. */
module SeedPlan {
  import opened Entities
  import opened DocStore

  /** The order of the six bulk deletes. */
  const RESET_ORDER: seq<Kind> := [Users, Courses, Lessons, Events, Posts, Comments]

  // Positions of the phases in the run's sequence of writes: six deletes,
  // the admin and five users, 3 courses, 3 * 3 lessons, 4 events, 5 posts
  // and 5 * 2 comments.
  const USERS_START: nat := 6
  const COURSES_START: nat := 12
  const LESSONS_START: nat := 15
  const EVENTS_START: nat := 24
  const POSTS_START: nat := 28
  const COMMENTS_START: nat := 33
  const TOTAL_WRITES: nat := 43

  /** The id the store hands out at write `n` of a run that starts with id
      `base` (the deletes allocate none). */
  function SavedId(base: Id, n: nat): Id
    requires USERS_START <= n
  {
    base + (n - USERS_START)
  }

  function AdminId(base: Id): Id { SavedId(base, USERS_START) }
  function UserId(base: Id, i: nat): Id { SavedId(base, USERS_START + 1 + i) }
  function CourseId(base: Id, i: nat): Id { SavedId(base, COURSES_START + i) }
  function PostId(base: Id, i: nat): Id { SavedId(base, POSTS_START + i) }

  // The document saved at each position of a phase, by the phase's own index.

  /** User `t` of the run: the admin first, then the five users. */
  function UserAt(hash: string -> string, now: int, t: nat): User
    requires t < 6
  {
    if t == 0 then AdminRecord(hash("123"), now)
    else UserRecord(t - 1, ROLES[(t - 1) % |ROLES|], hash("password123"), now)
  }

  function CourseAt(base: Id, t: nat): Course
    requires t < 3
  {
    CourseRecord(t, AdminId(base))
  }

  /** Lesson `m` of the run: lesson `m % 3` of course `m / 3`. */
  function LessonAt(base: Id, m: nat): Lesson
    requires m < 9
  {
    LessonRecord(m / 3, m % 3, CourseId(base, m / 3))
  }

  function EventAt(base: Id, now: int, t: nat): Event
    requires t < 4
  {
    EventRecord(t, now, AdminId(base))
  }

  /** Post `t` is by user `t % 5`. */
  function PostAt(base: Id, t: nat): Post
    requires t < 5
  {
    PostRecord(t, UserId(base, t % 5))
  }

  /** Comment `m` of the run: comment `m % 2` under post `m / 2`, by user `(m / 2 + m % 2) % 5`. */
  function CommentAt(base: Id, m: nat): Comment
    requires m < 10
  {
    CommentRecord(m / 2, m % 2, UserId(base, (m / 2 + m % 2) % 5), PostId(base, m / 2))
  }

  /** The document bodies a run saves, collection by collection, in save order. */
  datatype Batch = Batch(
    users: seq<User>,
    courses: seq<Course>,
    lessons: seq<Lesson>,
    events: seq<Event>,
    posts: seq<Post>,
    comments: seq<Comment>)

  /** The sizes of the fixture: 1 + 5 users, 3 courses, 3 * 3 lessons, 4 events, 5 posts, 5 * 2 comments. */
  predicate WellSized(b: Batch)
  {
    && |b.users| == COURSES_START - USERS_START
    && |b.courses| == LESSONS_START - COURSES_START
    && |b.lessons| == EVENTS_START - LESSONS_START
    && |b.events| == POSTS_START - EVENTS_START
    && |b.posts| == COMMENTS_START - POSTS_START
    && |b.comments| == TOTAL_WRITES - COMMENTS_START
  }

  /** What the script saves in a run whose first saved document gets id `base`. */
  function Recipe(base: Id, hash: string -> string, now: int): (b: Batch)
    ensures WellSized(b)
  {
    Batch(
      seq(6, t requires 0 <= t < 6 => UserAt(hash, now, t)),
      seq(3, t requires 0 <= t < 3 => CourseAt(base, t)),
      seq(9, m requires 0 <= m < 9 => LessonAt(base, m)),
      seq(4, t requires 0 <= t < 4 => EventAt(base, now, t)),
      seq(5, t requires 0 <= t < 5 => PostAt(base, t)),
      seq(10, m requires 0 <= m < 10 => CommentAt(base, m)))
  }

  /** Write number `n` of a run that saves the bodies of `b`. */
  function Step(b: Batch, n: nat): Write
    requires WellSized(b) && n < TOTAL_WRITES
  {
    if n < USERS_START then Wipe(RESET_ORDER[n])
    else if n < COURSES_START then Insert(UserDoc(b.users[n - USERS_START]))
    else if n < LESSONS_START then Insert(CourseDoc(b.courses[n - COURSES_START]))
    else if n < EVENTS_START then Insert(LessonDoc(b.lessons[n - LESSONS_START]))
    else if n < POSTS_START then Insert(EventDoc(b.events[n - EVENTS_START]))
    else if n < COMMENTS_START then Insert(PostDoc(b.posts[n - POSTS_START]))
    else Insert(CommentDoc(b.comments[n - COMMENTS_START]))
  }

  /** The first `n` writes of a run, in order. */
  function Writes(b: Batch, n: nat): (ws: seq<Write>)
    requires WellSized(b) && n <= TOTAL_WRITES
    ensures |ws| == n
  {
    if n == 0 then [] else Writes(b, n - 1) + [Step(b, n - 1)]
  }

  /** All writes of a run, in order. */
  function Plan(b: Batch): (ws: seq<Write>)
    requires WellSized(b)
    ensures |ws| == TOTAL_WRITES
    ensures forall n :: 0 <= n < TOTAL_WRITES ==> ws[n] == Step(b, n)
  {
    seq(TOTAL_WRITES, n requires 0 <= n < TOTAL_WRITES => Step(b, n))
  }

  /** The first `n` writes of the plan are the writes `Writes` lists. */
  lemma {:induction false} PlanPrefix(b: Batch, n: nat)
    requires WellSized(b) && n <= TOTAL_WRITES
    ensures Plan(b)[..n] == Writes(b, n)
  {
    if n > 0 {
      PlanPrefix(b, n - 1);
      assert Plan(b)[..n] == Plan(b)[..n - 1] + [Plan(b)[n - 1]];
    }
  }

  /** A log that holds the first `n` writes of the plan after `l0` holds the
      first `n + 1` once write `n` is appended. */
  lemma LogStep(l0: seq<Write>, b: Batch, n: nat)
    requires WellSized(b) && n < TOTAL_WRITES
    ensures l0 + Plan(b)[..n + 1] == (l0 + Plan(b)[..n]) + [Step(b, n)]
  {
    assert Plan(b)[..n + 1] == Plan(b)[..n] + [Plan(b)[n]];
  }

  /** Appending write `n` to the first `n` writes appends its effect, given what write `n` is. */
  lemma RunWritesStep(s0: StoreState, b: Batch, n: nat, w: Write)
    requires WellSized(b) && n < TOTAL_WRITES && Step(b, n) == w
    ensures Run(s0, Writes(b, n + 1)) == ApplyWrite(Run(s0, Writes(b, n)), w)
  {
    var ws := Writes(b, n + 1);
    assert ws[..n] == Writes(b, n);
  }

  // What write `n` of the recipe is, block by block, in terms of the block's loop indices.

  lemma StepReset(base: Id, hash: string -> string, now: int, k: nat)
    requires k < |RESET_ORDER|
    ensures Step(Recipe(base, hash, now), k) == Wipe(RESET_ORDER[k])
  {
  }

  lemma StepAdmin(base: Id, hash: string -> string, now: int)
    ensures Step(Recipe(base, hash, now), USERS_START) == Insert(UserDoc(AdminRecord(hash("123"), now)))
  {
  }

  lemma StepUser(base: Id, hash: string -> string, now: int, i: nat)
    requires i < 5
    ensures Step(Recipe(base, hash, now), USERS_START + 1 + i)
            == Insert(UserDoc(UserRecord(i, ROLES[i % |ROLES|], hash("password123"), now)))
  {
  }

  lemma StepCourse(base: Id, hash: string -> string, now: int, i: nat)
    requires i < 3
    ensures Step(Recipe(base, hash, now), COURSES_START + i) == Insert(CourseDoc(CourseRecord(i, AdminId(base))))
  {
  }

  lemma StepLesson(base: Id, hash: string -> string, now: int, i: nat, j: nat)
    requires i < 3 && j < 3
    ensures Step(Recipe(base, hash, now), LESSONS_START + 3 * i + j)
            == Insert(LessonDoc(LessonRecord(i, j, CourseId(base, i))))
  {
    var m := 3 * i + j;
    assert m / 3 == i && m % 3 == j;
  }

  lemma StepEvent(base: Id, hash: string -> string, now: int, i: nat)
    requires i < 4
    ensures Step(Recipe(base, hash, now), EVENTS_START + i) == Insert(EventDoc(EventRecord(i, now, AdminId(base))))
  {
  }

  lemma StepPost(base: Id, hash: string -> string, now: int, i: nat)
    requires i < 5
    ensures Step(Recipe(base, hash, now), POSTS_START + i) == Insert(PostDoc(PostRecord(i, UserId(base, i))))
  {
  }

  lemma StepComment(base: Id, hash: string -> string, now: int, i: nat, j: nat)
    requires i < 5 && j < 2
    ensures Step(Recipe(base, hash, now), COMMENTS_START + 2 * i + j)
            == Insert(CommentDoc(CommentRecord(i, j, UserId(base, (i + j) % 5), PostId(base, i))))
  {
    var m := 2 * i + j;
    assert m / 2 == i && m % 2 == j;
  }

  /** How many writes of a run succeed on a store that has already performed
      `writes` writes and accepts no more than `failAt` in its lifetime. */
  function WritesGranted(writes: nat, failAt: Option<nat>): (n: nat)
    ensures n <= TOTAL_WRITES
    ensures n < TOTAL_WRITES <==> failAt.Some? && failAt.value < writes + TOTAL_WRITES
    ensures n < TOTAL_WRITES ==> failAt.value <= writes + n
    ensures failAt.Some? ==> writes + n <= failAt.value || n == 0
  {
    if failAt.None? || writes + TOTAL_WRITES <= failAt.value then TOTAL_WRITES
    else if failAt.value <= writes then 0
    else failAt.value - writes
  }

  /** A run that has made `done` writes and is refused the next one was granted exactly `done`. */
  lemma GrantedAt(w0: nat, failAt: Option<nat>, done: nat)
    requires done < TOTAL_WRITES
    requires failAt.Some? && failAt.value <= w0 + done
    requires 0 < done ==> w0 + done <= failAt.value
    ensures WritesGranted(w0, failAt) == done
  {
  }

  /** How many of the positions `lo .. hi - 1` lie below `k`. */
  function Below(k: nat, lo: nat, hi: nat): (r: nat)
    requires lo <= hi
    ensures r <= hi - lo
    ensures k <= lo ==> r == 0
    ensures hi <= k ==> r == hi - lo
    ensures lo <= k <= hi ==> r == k - lo
  {
    if k <= lo then 0 else if hi <= k then hi - lo else k - lo
  }

  /** Documents with consecutive ids from `first`, in order. */
  function Numbered<T>(first: Id, xs: seq<T>): (docs: seq<Doc<T>>)
    ensures |docs| == |xs|
    ensures forall t :: 0 <= t < |xs| ==> docs[t] == Doc(first + t, xs[t])
  {
    seq(|xs|, t requires 0 <= t < |xs| => Doc(first + t, xs[t]))
  }

  /** Numbering one more element of `xs` appends it under the next id. */
  lemma NumberedExtend<T>(first: Id, xs: seq<T>, n: nat)
    requires n < |xs|
    ensures Numbered(first, xs[..n + 1]) == Numbered(first, xs[..n]) + [Doc(first + n, xs[n])]
  {
  }

  /** The store after the first `k` writes of a run that started on `s0` and saves the bodies of `b`. */
  function After(s0: StoreState, b: Batch, k: nat): StoreState
    requires WellSized(b)
  {
    var base := s0.nextId;
    StoreState(
      users := if k <= 0 then s0.users
               else Numbered(SavedId(base, USERS_START), b.users[..Below(k, USERS_START, COURSES_START)]),
      courses := if k <= 1 then s0.courses
                 else Numbered(SavedId(base, COURSES_START), b.courses[..Below(k, COURSES_START, LESSONS_START)]),
      lessons := if k <= 2 then s0.lessons
                 else Numbered(SavedId(base, LESSONS_START), b.lessons[..Below(k, LESSONS_START, EVENTS_START)]),
      events := if k <= 3 then s0.events
                else Numbered(SavedId(base, EVENTS_START), b.events[..Below(k, EVENTS_START, POSTS_START)]),
      posts := if k <= 4 then s0.posts
               else Numbered(SavedId(base, POSTS_START), b.posts[..Below(k, POSTS_START, COMMENTS_START)]),
      comments := if k <= 5 then s0.comments
                  else Numbered(SavedId(base, COMMENTS_START), b.comments[..Below(k, COMMENTS_START, TOTAL_WRITES)]),
      nextId := base + Below(k, USERS_START, TOTAL_WRITES))
  }

  /** The store after a complete run of the script started on `s0`. */
  function Fixture(s0: StoreState, hash: string -> string, now: int): StoreState
  {
    After(s0, Recipe(s0.nextId, hash, now), TOTAL_WRITES)
  }

  // One write moves the closed form from `k` to `k + 1`, phase by phase.

  lemma AfterStepReset(s0: StoreState, b: Batch, k: nat)
    requires WellSized(b) && k < USERS_START
    ensures ApplyWrite(After(s0, b, k), Step(b, k)) == After(s0, b, k + 1)
  {
  }

  lemma AfterStepUser(s0: StoreState, b: Batch, k: nat)
    requires WellSized(b) && USERS_START <= k < COURSES_START
    ensures ApplyWrite(After(s0, b, k), Step(b, k)) == After(s0, b, k + 1)
  {
    var s, n := After(s0, b, k), k - USERS_START;
    NumberedExtend(SavedId(s0.nextId, USERS_START), b.users, n);
    assert After(s0, b, k + 1) == s.(users := s.users + [Doc(s.nextId, b.users[n])], nextId := s.nextId + 1);
  }

  lemma AfterStepCourse(s0: StoreState, b: Batch, k: nat)
    requires WellSized(b) && COURSES_START <= k < LESSONS_START
    ensures ApplyWrite(After(s0, b, k), Step(b, k)) == After(s0, b, k + 1)
  {
    var s, n := After(s0, b, k), k - COURSES_START;
    NumberedExtend(SavedId(s0.nextId, COURSES_START), b.courses, n);
    assert After(s0, b, k + 1) == s.(courses := s.courses + [Doc(s.nextId, b.courses[n])], nextId := s.nextId + 1);
  }

  lemma AfterStepLesson(s0: StoreState, b: Batch, k: nat)
    requires WellSized(b) && LESSONS_START <= k < EVENTS_START
    ensures ApplyWrite(After(s0, b, k), Step(b, k)) == After(s0, b, k + 1)
  {
    var s, n := After(s0, b, k), k - LESSONS_START;
    NumberedExtend(SavedId(s0.nextId, LESSONS_START), b.lessons, n);
    assert After(s0, b, k + 1) == s.(lessons := s.lessons + [Doc(s.nextId, b.lessons[n])], nextId := s.nextId + 1);
  }

  lemma AfterStepEvent(s0: StoreState, b: Batch, k: nat)
    requires WellSized(b) && EVENTS_START <= k < POSTS_START
    ensures ApplyWrite(After(s0, b, k), Step(b, k)) == After(s0, b, k + 1)
  {
    var s, n := After(s0, b, k), k - EVENTS_START;
    NumberedExtend(SavedId(s0.nextId, EVENTS_START), b.events, n);
    assert After(s0, b, k + 1) == s.(events := s.events + [Doc(s.nextId, b.events[n])], nextId := s.nextId + 1);
  }

  lemma AfterStepPost(s0: StoreState, b: Batch, k: nat)
    requires WellSized(b) && POSTS_START <= k < COMMENTS_START
    ensures ApplyWrite(After(s0, b, k), Step(b, k)) == After(s0, b, k + 1)
  {
    var s, n := After(s0, b, k), k - POSTS_START;
    NumberedExtend(SavedId(s0.nextId, POSTS_START), b.posts, n);
    assert After(s0, b, k + 1) == s.(posts := s.posts + [Doc(s.nextId, b.posts[n])], nextId := s.nextId + 1);
  }

  lemma AfterStepComment(s0: StoreState, b: Batch, k: nat)
    requires WellSized(b) && COMMENTS_START <= k < TOTAL_WRITES
    ensures ApplyWrite(After(s0, b, k), Step(b, k)) == After(s0, b, k + 1)
  {
    var s, n := After(s0, b, k), k - COMMENTS_START;
    NumberedExtend(SavedId(s0.nextId, COMMENTS_START), b.comments, n);
    assert After(s0, b, k + 1) == s.(comments := s.comments + [Doc(s.nextId, b.comments[n])], nextId := s.nextId + 1);
  }

  /** Any one write of the run moves the closed form from `k` to `k + 1`. */
  lemma AfterStep(s0: StoreState, b: Batch, k: nat)
    requires WellSized(b) && k < TOTAL_WRITES
    ensures ApplyWrite(After(s0, b, k), Step(b, k)) == After(s0, b, k + 1)
  {
    if k < USERS_START { AfterStepReset(s0, b, k); }
    else if k < COURSES_START { AfterStepUser(s0, b, k); }
    else if k < LESSONS_START { AfterStepCourse(s0, b, k); }
    else if k < EVENTS_START { AfterStepLesson(s0, b, k); }
    else if k < POSTS_START { AfterStepEvent(s0, b, k); }
    else if k < COMMENTS_START { AfterStepPost(s0, b, k); }
    else { AfterStepComment(s0, b, k); }
  }

  /** Performing the first `k` writes of a run leaves the store in the closed form. */
  lemma {:induction false} RunIsAfter(s0: StoreState, b: Batch, k: nat)
    requires WellSized(b) && k <= TOTAL_WRITES
    ensures Run(s0, Writes(b, k)) == After(s0, b, k)
  {
    if k > 0 {
      RunIsAfter(s0, b, k - 1);
      RunWritesStep(s0, b, k - 1, Step(b, k - 1));
      AfterStep(s0, b, k - 1);
    }
  }
}
