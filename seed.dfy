/** The seeding script: connect, empty the six collections, then create one
    admin, five users, three courses with three lessons each, four events,
    five posts and two comments per post, each child referring to parents
    saved earlier in the same run. Any error stops the run; nothing written
    before it is undone. */
module SeedScript {
  import opened Entities
  import opened DocStore
  import opened SeedPlan

  datatype SeedError = ConnectionError | WriteError

  /** How the run ends (the script's `process.exit(0)` / `process.exit(1)`). */
  datatype Outcome = Ok | Failed(error: SeedError)

  function ExitCode(o: Outcome): (code: int)
    ensures code == 0 <==> o.Ok?
    ensures o.Failed? ==> code == 1
  {
    if o.Ok? then 0 else 1
  }

  /** Exactly the first `done` writes of the run have been asked for and performed, all successfully. */
  ghost predicate Progress(store: Store, s0: StoreState, w0: nat, l0: seq<Write>, hash: string -> string, now: int, done: nat)
    reads store
  {
    && done <= TOTAL_WRITES
    && store.Valid()
    && store.writes == w0 + done
    && store.State() == After(s0, Recipe(s0.nextId, hash, now), done)
    && store.log == l0 + Plan(Recipe(s0.nextId, hash, now))[..done]
    && (store.failAt.Some? && 0 < done ==> w0 + done <= store.failAt.value)
  }

  /** The run has stopped at a failed write: the writes before it are kept, the
      failed one was the last write asked of the store, and nothing else happened. */
  ghost predicate Stopped(store: Store, s0: StoreState, w0: nat, l0: seq<Write>, hash: string -> string, now: int)
    reads store
  {
    var n := WritesGranted(w0, store.failAt);
    && n < TOTAL_WRITES
    && store.Valid()
    && store.writes == w0 + n
    && store.State() == After(s0, Recipe(s0.nextId, hash, now), n)
    && store.log == l0 + Plan(Recipe(s0.nextId, hash, now))[..n + 1]
  }

  /** Issues bulk delete number `done` of the run (`await X.deleteMany({})`). */
  method DeleteStep(store: Store, ghost s0: StoreState, ghost w0: nat, ghost l0: seq<Write>, ghost hash: string -> string, ghost now: int,
                    ghost done: nat, kind: Kind)
    returns (ok: bool)
    requires done < TOTAL_WRITES && Step(Recipe(s0.nextId, hash, now), done) == Wipe(kind)
    requires Progress(store, s0, w0, l0, hash, now, done)
    modifies store
    ensures store.nextId == old(store.nextId)
    ensures ok ==> Progress(store, s0, w0, l0, hash, now, done + 1)
    ensures !ok ==> Stopped(store, s0, w0, l0, hash, now)
  {
    AfterStep(s0, Recipe(s0.nextId, hash, now), done);
    LogStep(l0, Recipe(s0.nextId, hash, now), done);
    ok := store.DeleteMany(kind);
    if !ok {
      GrantedAt(w0, store.failAt, done);
    }
  }

  /** Issues save number `done` of the run (`await doc.save()`); on success the
      document's id is the one the store handed out. */
  method SaveStep(store: Store, ghost s0: StoreState, ghost w0: nat, ghost l0: seq<Write>, ghost hash: string -> string, ghost now: int,
                  ghost done: nat, e: Entity)
    returns (id: Option<Id>)
    requires done < TOTAL_WRITES && Step(Recipe(s0.nextId, hash, now), done) == Insert(e)
    requires Progress(store, s0, w0, l0, hash, now, done)
    modifies store
    ensures id.Some? ==>
              && Progress(store, s0, w0, l0, hash, now, done + 1)
              && id.value == old(store.nextId) && store.nextId == old(store.nextId) + 1
    ensures id.None? ==> Stopped(store, s0, w0, l0, hash, now)
  {
    AfterStep(s0, Recipe(s0.nextId, hash, now), done);
    LogStep(l0, Recipe(s0.nextId, hash, now), done);
    id := store.Save(e);
    if id.None? {
      GrantedAt(w0, store.failAt, done);
    }
  }

  // The script's blocks, one method each. Each continues a run that started on
  // state `s0` after `w0` writes of the store's lifetime, and either completes
  // its writes or stops at the first one that fails.

  /** The six bulk deletes. */
  method ResetCollections(store: Store, ghost s0: StoreState, ghost w0: nat, ghost l0: seq<Write>, ghost hash: string -> string, ghost now: int)
    returns (ok: bool)
    requires Progress(store, s0, w0, l0, hash, now, 0) && store.nextId == s0.nextId
    modifies store
    ensures ok ==> Progress(store, s0, w0, l0, hash, now, USERS_START) && store.nextId == s0.nextId
    ensures !ok ==> Stopped(store, s0, w0, l0, hash, now)
  {
    ghost var base := s0.nextId;
    for k := 0 to |RESET_ORDER|
      invariant Progress(store, s0, w0, l0, hash, now, k)
      invariant store.nextId == base
    {
      StepReset(base, hash, now, k);
      ok := DeleteStep(store, s0, w0, l0, hash, now, k, RESET_ORDER[k]);
      if !ok {
        return;
      }
    }
    ok := true;
  }

  /** The admin account (login `111`), saved with the hash of `123`. */
  method CreateAdmin(store: Store, ghost s0: StoreState, ghost w0: nat, ghost l0: seq<Write>, hash: string -> string, now: int)
    returns (admin: Option<Id>)
    requires Progress(store, s0, w0, l0, hash, now, USERS_START) && store.nextId == s0.nextId
    modifies store
    ensures admin.Some? ==>
              && Progress(store, s0, w0, l0, hash, now, USERS_START + 1)
              && admin.value == AdminId(s0.nextId)
              && store.nextId == UserId(s0.nextId, 0)
    ensures admin.None? ==> Stopped(store, s0, w0, l0, hash, now)
  {
    StepAdmin(s0.nextId, hash, now);
    admin := SaveStep(store, s0, w0, l0, hash, now, USERS_START, UserDoc(AdminRecord(hash("123"), now)));
  }

  /** Five users; user `i` gets role `ROLES[i % 3]`. */
  method CreateUsers(store: Store, ghost s0: StoreState, ghost w0: nat, ghost l0: seq<Write>, hash: string -> string, now: int)
    returns (ok: bool, users: seq<Id>)
    requires Progress(store, s0, w0, l0, hash, now, USERS_START + 1) && store.nextId == UserId(s0.nextId, 0)
    modifies store
    ensures ok ==>
              && Progress(store, s0, w0, l0, hash, now, COURSES_START)
              && store.nextId == CourseId(s0.nextId, 0)
              && |users| == 5 && forall t :: 0 <= t < 5 ==> users[t] == UserId(s0.nextId, t)
    ensures !ok ==> Stopped(store, s0, w0, l0, hash, now)
  {
    ghost var base := s0.nextId;
    users := [];
    for i := 0 to 5
      invariant |users| == i
      invariant forall t :: 0 <= t < i ==> users[t] == UserId(base, t)
      invariant Progress(store, s0, w0, l0, hash, now, USERS_START + 1 + i)
      invariant store.nextId == UserId(base, i)
    {
      var role := ROLES[i % |ROLES|];
      StepUser(base, hash, now, i);
      var saved := SaveStep(store, s0, w0, l0, hash, now, USERS_START + 1 + i, UserDoc(UserRecord(i, role, hash("password123"), now)));
      if saved.None? {
        return false, users;
      }
      users := users + [saved.value];
    }
    ok := true;
  }

  /** Three courses, all created by `admin`. */
  method CreateCourses(store: Store, ghost s0: StoreState, ghost w0: nat, ghost l0: seq<Write>, ghost hash: string -> string, ghost now: int, admin: Id)
    returns (ok: bool, courses: seq<Id>)
    requires Progress(store, s0, w0, l0, hash, now, COURSES_START) && store.nextId == CourseId(s0.nextId, 0)
    requires admin == AdminId(s0.nextId)
    modifies store
    ensures ok ==>
              && Progress(store, s0, w0, l0, hash, now, LESSONS_START)
              && store.nextId == SavedId(s0.nextId, LESSONS_START)
              && |courses| == 3 && forall t :: 0 <= t < 3 ==> courses[t] == CourseId(s0.nextId, t)
    ensures !ok ==> Stopped(store, s0, w0, l0, hash, now)
  {
    ghost var base := s0.nextId;
    courses := [];
    for i := 0 to 3
      invariant |courses| == i
      invariant forall t :: 0 <= t < i ==> courses[t] == CourseId(base, t)
      invariant Progress(store, s0, w0, l0, hash, now, COURSES_START + i)
      invariant store.nextId == CourseId(base, i)
    {
      StepCourse(base, hash, now, i);
      var saved := SaveStep(store, s0, w0, l0, hash, now, COURSES_START + i, CourseDoc(CourseRecord(i, admin)));
      if saved.None? {
        return false, courses;
      }
      courses := courses + [saved.value];
    }
    ok := true;
  }

  /** The three lessons of course number `i`, whose id is `course`. */
  method CreateCourseLessons(store: Store, ghost s0: StoreState, ghost w0: nat, ghost l0: seq<Write>, ghost hash: string -> string, ghost now: int,
                             i: nat, course: Id)
    returns (ok: bool)
    requires i < 3 && course == CourseId(s0.nextId, i)
    requires Progress(store, s0, w0, l0, hash, now, LESSONS_START + 3 * i)
    requires store.nextId == SavedId(s0.nextId, LESSONS_START + 3 * i)
    modifies store
    ensures ok ==>
              && Progress(store, s0, w0, l0, hash, now, LESSONS_START + 3 * (i + 1))
              && store.nextId == SavedId(s0.nextId, LESSONS_START + 3 * (i + 1))
    ensures !ok ==> Stopped(store, s0, w0, l0, hash, now)
  {
    ghost var base := s0.nextId;
    for j := 0 to 3
      invariant Progress(store, s0, w0, l0, hash, now, LESSONS_START + 3 * i + j)
      invariant store.nextId == SavedId(base, LESSONS_START + 3 * i + j)
    {
      StepLesson(base, hash, now, i, j);
      var saved := SaveStep(store, s0, w0, l0, hash, now, LESSONS_START + 3 * i + j, LessonDoc(LessonRecord(i, j, course)));
      if saved.None? {
        return false;
      }
    }
    ok := true;
  }

  /** Three lessons for every course. */
  method CreateLessons(store: Store, ghost s0: StoreState, ghost w0: nat, ghost l0: seq<Write>, ghost hash: string -> string, ghost now: int, courses: seq<Id>)
    returns (ok: bool)
    requires Progress(store, s0, w0, l0, hash, now, LESSONS_START) && store.nextId == SavedId(s0.nextId, LESSONS_START)
    requires |courses| == 3 && forall t :: 0 <= t < 3 ==> courses[t] == CourseId(s0.nextId, t)
    modifies store
    ensures ok ==> Progress(store, s0, w0, l0, hash, now, EVENTS_START) && store.nextId == SavedId(s0.nextId, EVENTS_START)
    ensures !ok ==> Stopped(store, s0, w0, l0, hash, now)
  {
    for i := 0 to |courses|
      invariant Progress(store, s0, w0, l0, hash, now, LESSONS_START + 3 * i)
      invariant store.nextId == SavedId(s0.nextId, LESSONS_START + 3 * i)
    {
      ok := CreateCourseLessons(store, s0, w0, l0, hash, now, i, courses[i]);
      if !ok { return; }
    }
    ok := true;
  }

  /** Four events by `admin`, dated one to four days after `now`. */
  method CreateEvents(store: Store, ghost s0: StoreState, ghost w0: nat, ghost l0: seq<Write>, ghost hash: string -> string, now: int, admin: Id)
    returns (ok: bool)
    requires Progress(store, s0, w0, l0, hash, now, EVENTS_START) && store.nextId == SavedId(s0.nextId, EVENTS_START)
    requires admin == AdminId(s0.nextId)
    modifies store
    ensures ok ==> Progress(store, s0, w0, l0, hash, now, POSTS_START) && store.nextId == PostId(s0.nextId, 0)
    ensures !ok ==> Stopped(store, s0, w0, l0, hash, now)
  {
    ghost var base := s0.nextId;
    for i := 0 to 4
      invariant Progress(store, s0, w0, l0, hash, now, EVENTS_START + i)
      invariant store.nextId == SavedId(base, EVENTS_START + i)
    {
      StepEvent(base, hash, now, i);
      var saved := SaveStep(store, s0, w0, l0, hash, now, EVENTS_START + i, EventDoc(EventRecord(i, now, admin)));
      if saved.None? {
        return false;
      }
    }
    ok := true;
  }

  /** Five posts; post `i` is by `users[i % 5]`. */
  method CreatePosts(store: Store, ghost s0: StoreState, ghost w0: nat, ghost l0: seq<Write>, ghost hash: string -> string, ghost now: int, users: seq<Id>)
    returns (ok: bool, posts: seq<Id>)
    requires Progress(store, s0, w0, l0, hash, now, POSTS_START) && store.nextId == PostId(s0.nextId, 0)
    requires |users| == 5 && forall t :: 0 <= t < 5 ==> users[t] == UserId(s0.nextId, t)
    modifies store
    ensures ok ==>
              && Progress(store, s0, w0, l0, hash, now, COMMENTS_START)
              && store.nextId == SavedId(s0.nextId, COMMENTS_START)
              && |posts| == 5 && forall t :: 0 <= t < 5 ==> posts[t] == PostId(s0.nextId, t)
    ensures !ok ==> Stopped(store, s0, w0, l0, hash, now)
  {
    ghost var base := s0.nextId;
    posts := [];
    for i := 0 to 5
      invariant |posts| == i
      invariant forall t :: 0 <= t < i ==> posts[t] == PostId(base, t)
      invariant Progress(store, s0, w0, l0, hash, now, POSTS_START + i)
      invariant store.nextId == PostId(base, i)
    {
      StepPost(base, hash, now, i);
      var saved := SaveStep(store, s0, w0, l0, hash, now, POSTS_START + i, PostDoc(PostRecord(i, users[i % |users|])));
      if saved.None? {
        return false, posts;
      }
      posts := posts + [saved.value];
    }
    ok := true;
  }

  /** The two comments under post number `i`, whose id is `post`; comment `j` is by `users[(i + j) % 5]`. */
  method CreatePostComments(store: Store, ghost s0: StoreState, ghost w0: nat, ghost l0: seq<Write>, ghost hash: string -> string, ghost now: int,
                            users: seq<Id>, i: nat, post: Id)
    returns (ok: bool)
    requires i < 5 && post == PostId(s0.nextId, i)
    requires |users| == 5 && forall t :: 0 <= t < 5 ==> users[t] == UserId(s0.nextId, t)
    requires Progress(store, s0, w0, l0, hash, now, COMMENTS_START + 2 * i)
    requires store.nextId == SavedId(s0.nextId, COMMENTS_START + 2 * i)
    modifies store
    ensures ok ==>
              && Progress(store, s0, w0, l0, hash, now, COMMENTS_START + 2 * (i + 1))
              && store.nextId == SavedId(s0.nextId, COMMENTS_START + 2 * (i + 1))
    ensures !ok ==> Stopped(store, s0, w0, l0, hash, now)
  {
    ghost var base := s0.nextId;
    for j := 0 to 2
      invariant Progress(store, s0, w0, l0, hash, now, COMMENTS_START + 2 * i + j)
      invariant store.nextId == SavedId(base, COMMENTS_START + 2 * i + j)
    {
      StepComment(base, hash, now, i, j);
      var saved := SaveStep(store, s0, w0, l0, hash, now, COMMENTS_START + 2 * i + j, CommentDoc(CommentRecord(i, j, users[(i + j) % |users|], post)));
      if saved.None? {
        return false;
      }
    }
    ok := true;
  }

  /** Two comments under every post. */
  method CreateComments(store: Store, ghost s0: StoreState, ghost w0: nat, ghost l0: seq<Write>, ghost hash: string -> string, ghost now: int,
                        users: seq<Id>, posts: seq<Id>)
    returns (ok: bool)
    requires Progress(store, s0, w0, l0, hash, now, COMMENTS_START) && store.nextId == SavedId(s0.nextId, COMMENTS_START)
    requires |users| == 5 && forall t :: 0 <= t < 5 ==> users[t] == UserId(s0.nextId, t)
    requires |posts| == 5 && forall t :: 0 <= t < 5 ==> posts[t] == PostId(s0.nextId, t)
    modifies store
    ensures ok ==> Progress(store, s0, w0, l0, hash, now, TOTAL_WRITES)
    ensures !ok ==> Stopped(store, s0, w0, l0, hash, now)
  {
    for i := 0 to |posts|
      invariant Progress(store, s0, w0, l0, hash, now, COMMENTS_START + 2 * i)
      invariant store.nextId == SavedId(s0.nextId, COMMENTS_START + 2 * i)
    {
      ok := CreatePostComments(store, s0, w0, l0, hash, now, users, i, posts[i]);
      if !ok { return; }
    }
    ok := true;
  }

  /** The blocks of the script's `try`, in source order; the first block that
      meets a failed write ends the run. */
  method RunBlocks(store: Store, ghost s0: StoreState, ghost w0: nat, ghost l0: seq<Write>, hash: string -> string, now: int)
    returns (ok: bool)
    requires Progress(store, s0, w0, l0, hash, now, 0) && store.nextId == s0.nextId
    modifies store
    ensures ok ==> Progress(store, s0, w0, l0, hash, now, TOTAL_WRITES)
    ensures !ok ==> Stopped(store, s0, w0, l0, hash, now)
  {
    ok := ResetCollections(store, s0, w0, l0, hash, now);
    if !ok { return false; }
    var admin := CreateAdmin(store, s0, w0, l0, hash, now);
    if admin.None? { return false; }
    var users;
    ok, users := CreateUsers(store, s0, w0, l0, hash, now);
    if !ok { return false; }
    var courses;
    ok, courses := CreateCourses(store, s0, w0, l0, hash, now, admin.value);
    if !ok { return false; }
    ok := CreateLessons(store, s0, w0, l0, hash, now, courses);
    if !ok { return false; }
    ok := CreateEvents(store, s0, w0, l0, hash, now, admin.value);
    if !ok { return false; }
    var posts;
    ok, posts := CreatePosts(store, s0, w0, l0, hash, now, users);
    if !ok { return false; }
    ok := CreateComments(store, s0, w0, l0, hash, now, users, posts);
    if !ok { return false; }
    ok := true;
  }

  /** The seeding run against `store`. `connected` says whether the connection
      succeeded, `hash` stands for the password hashing function and `now`
      for the clock. On success the store holds exactly the fixture; if a
      write fails, exactly the writes before it are kept and the run ends: the
      failed write is the last one the store is asked to perform. */
  method Seed(store: Store, connected: bool, hash: string -> string, now: int) returns (outcome: Outcome)
    requires store.Valid()
    modifies store
    ensures store.Valid()
    ensures !connected ==>
              && outcome == Failed(ConnectionError)
              && store.State() == old(store.State()) && store.writes == old(store.writes)
              && store.log == old(store.log)
    ensures connected ==>
              var n := WritesGranted(old(store.writes), store.failAt);
              && store.State() == Run(old(store.State()), Writes(Recipe(old(store.nextId), hash, now), n))
              && store.State() == After(old(store.State()), Recipe(old(store.nextId), hash, now), n)
              && store.writes == old(store.writes) + n
              && store.log == old(store.log) + Plan(Recipe(old(store.nextId), hash, now))[..if n == TOTAL_WRITES then n else n + 1]
              && outcome == (if n == TOTAL_WRITES then Ok else Failed(WriteError))
  {
    if !connected {
      return Failed(ConnectionError);
    }
    ghost var s0, w0, l0 := store.State(), store.writes, store.log;
    var ok := RunBlocks(store, s0, w0, l0, hash, now);
    ghost var n := WritesGranted(w0, store.failAt);
    assert ok <==> n == TOTAL_WRITES;
    RunIsAfter(s0, Recipe(s0.nextId, hash, now), n);
    outcome := if ok then Ok else Failed(WriteError);
  }
}
