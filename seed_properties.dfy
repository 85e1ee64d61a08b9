/** What a seeding run leaves in the store: the empty state after the reset,
    the exact fixture after a complete run, the index arithmetic of every
    label and reference, and referential integrity of every state the run
    passes through once the reset is done. */
module SeedProperties {
  import opened Entities
  import opened DocStore
  import opened SeedPlan

  /** How the script links the documents it saves from id `base` on: courses
      and events point at the admin, lesson `m` at course `m / 3` with order
      `m % 3 + 1`, post `t` at user `t % 5`, and comment `m` at post `m / 2`
      and user `(m / 2 + m % 2) % 5`. */
  ghost predicate Layout(b: Batch, base: Id)
    requires WellSized(b)
  {
    && (forall t :: 0 <= t < |b.courses| ==> b.courses[t].createdBy == AdminId(base))
    && (forall m :: 0 <= m < |b.lessons| ==>
          b.lessons[m].course == CourseId(base, m / 3) && b.lessons[m].order == m % 3 + 1)
    && (forall t :: 0 <= t < |b.events| ==> b.events[t].createdBy == AdminId(base))
    && (forall t :: 0 <= t < |b.posts| ==> b.posts[t].author == UserId(base, t % 5))
    && (forall m :: 0 <= m < |b.comments| ==>
          b.comments[m].post == PostId(base, m / 2) && b.comments[m].author == UserId(base, (m / 2 + m % 2) % 5))
  }

  lemma RecipeLayout(base: Id, hash: string -> string, now: int)
    ensures Layout(Recipe(base, hash, now), base)
  {
  }

  /** A complete run holds every body of the batch, numbered in save order
      from the run's first id, and nothing of what the store held before. */
  lemma Complete(s0: StoreState, b: Batch)
    requires WellSized(b)
    ensures var base := s0.nextId;
            After(s0, b, TOTAL_WRITES) == StoreState(
              Numbered(AdminId(base), b.users),
              Numbered(CourseId(base, 0), b.courses),
              Numbered(SavedId(base, LESSONS_START), b.lessons),
              Numbered(SavedId(base, EVENTS_START), b.events),
              Numbered(PostId(base, 0), b.posts),
              Numbered(SavedId(base, COMMENTS_START), b.comments),
              base + (TOTAL_WRITES - USERS_START))
  {
    assert b.users[..|b.users|] == b.users && b.courses[..|b.courses|] == b.courses;
    assert b.lessons[..|b.lessons|] == b.lessons && b.events[..|b.events|] == b.events;
    assert b.posts[..|b.posts|] == b.posts && b.comments[..|b.comments|] == b.comments;
  }

  /** The six bulk deletes empty every collection whatever the store held, and
      running them a second time changes nothing. */
  lemma ResetIdempotent(s: StoreState, hash: string -> string, now: int)
    ensures var reset := Writes(Recipe(s.nextId, hash, now), USERS_START);
            && Run(s, reset) == Empty(s.nextId)
            && Run(Run(s, reset), reset) == Run(s, reset)
  {
    RunIsAfter(s, Recipe(s.nextId, hash, now), USERS_START);
    RunIsAfter(Empty(s.nextId), Recipe(s.nextId, hash, now), USERS_START);
  }

  /** A complete run leaves 1 admin and 5 users, 3 courses, 9 lessons, 4 events,
      5 posts and 10 comments, and hands out exactly one id per save. */
  lemma FixtureCounts(s0: StoreState, hash: string -> string, now: int)
    ensures var f := Fixture(s0, hash, now);
            && |f.users| == 6 && |f.courses| == 3 && |f.lessons| == 9
            && |f.events| == 4 && |f.posts| == 5 && |f.comments| == 10
            && f.nextId == s0.nextId + (TOTAL_WRITES - USERS_START)
  {
    Complete(s0, Recipe(s0.nextId, hash, now));
  }

  /** A complete run ends in the same fixture whatever the store held before,
      up to where the id counter stood. */
  lemma FixtureIgnoresOldContents(s0: StoreState, hash: string -> string, now: int)
    ensures Fixture(s0, hash, now) == Fixture(Empty(s0.nextId), hash, now)
  {
  }

  /** The first user is the admin (login `111`) and the only user with role admin;
      non-admin user `i` has role `ROLES[i % 3]`, is male exactly when `i` is
      even, and is named `user{i + 1}`. */
  lemma FixtureUsers(s0: StoreState, hash: string -> string, now: int)
    ensures var us := Fixture(s0, hash, now).users;
            && us[0].body == AdminRecord(hash("123"), now)
            && us[0].body.username == "111" && us[0].body.role == Admin
            && (forall i :: 0 <= i < 5 ==>
                  && us[i + 1].body.role == ROLES[i % 3]
                  && (us[i + 1].body.gender == Male <==> i % 2 == 0)
                  && us[i + 1].body.username == "user" + NatToString(i + 1))
            && (forall t :: 0 <= t < |us| ==> (us[t].body.role == Admin <==> t == 0))
  {
    Complete(s0, Recipe(s0.nextId, hash, now));
    var us := Fixture(s0, hash, now).users;
    forall t | 0 <= t < |us| ensures us[t].body.role == Admin <==> t == 0 {
      assert t > 0 ==> us[t].body.role in ROLES;
    }
  }

  /** No two of the six accounts share a username. */
  lemma UsernamesDistinct(s0: StoreState, hash: string -> string, now: int)
    ensures var us := Fixture(s0, hash, now).users;
            forall a, b :: 0 <= a < b < |us| ==> us[a].body.username != us[b].body.username
  {
    Complete(s0, Recipe(s0.nextId, hash, now));
    var us := Fixture(s0, hash, now).users;
    forall a, b | 0 <= a < b < |us| ensures us[a].body.username != us[b].body.username {
      var nb := NatToString(b);
      assert us[b].body.username == "user" + nb;
      if a == 0 {
        assert us[a].body.username[0] != us[b].body.username[0];
      } else {
        var ua, ub := us[a].body.username, us[b].body.username;
        assert ua == "user" + NatToString(a);
        assert ua[4..] == NatToString(a) && ub[4..] == nb;
        if ua == ub {
          NatToStringInjective(a, b);
        }
      }
    }
  }

  /** Course `i` has level `LEVELS[i]`, lasts `30 + 10 * i` days and was created by the admin. */
  lemma FixtureCourses(s0: StoreState, hash: string -> string, now: int)
    ensures var f := Fixture(s0, hash, now);
            forall i :: 0 <= i < |f.courses| ==>
              && f.courses[i].body.level == LEVELS[i]
              && f.courses[i].body.duration == 30 + 10 * i
              && f.courses[i].body.createdBy == f.users[0].id
  {
    Complete(s0, Recipe(s0.nextId, hash, now));
  }

  /** Lesson `m` belongs to course `m / 3`, has order `m % 3 + 1`, and holds a
      text block with order 1 followed by an image block with order 2. */
  lemma FixtureLessons(s0: StoreState, hash: string -> string, now: int)
    ensures var f := Fixture(s0, hash, now);
            forall m :: 0 <= m < |f.lessons| ==>
              var l := f.lessons[m].body;
              && l.course == f.courses[m / 3].id
              && l.order == m % 3 + 1
              && |l.contentBlocks| == 2
              && l.contentBlocks[0].kind == Text && l.contentBlocks[0].order == 1
              && l.contentBlocks[1].kind == Image && l.contentBlocks[1].order == 2
  {
    Complete(s0, Recipe(s0.nextId, hash, now));
  }

  /** The lessons of course `i` carry the order values 1, 2 and 3, and no other. */
  lemma LessonOrdersPerCourse(s0: StoreState, hash: string -> string, now: int, i: nat)
    requires i < 3
    ensures var f := Fixture(s0, hash, now);
            (set d | d in f.lessons && d.body.course == f.courses[i].id :: d.body.order) == {1, 2, 3}
  {
    RecipeLayout(s0.nextId, hash, now);
    OrdersPerCourse(s0, Recipe(s0.nextId, hash, now), i);
  }

  lemma OrdersPerCourse(s0: StoreState, b: Batch, i: nat)
    requires WellSized(b) && Layout(b, s0.nextId) && i < 3
    ensures var f := After(s0, b, TOTAL_WRITES);
            (set d | d in f.lessons && d.body.course == f.courses[i].id :: d.body.order) == {1, 2, 3}
  {
    var f := After(s0, b, TOTAL_WRITES);
    var base := s0.nextId;
    assert b.lessons[..|b.lessons|] == b.lessons && b.courses[..|b.courses|] == b.courses;
    assert f.lessons == Numbered(SavedId(base, LESSONS_START), b.lessons);
    assert f.courses == Numbered(CourseId(base, 0), b.courses);
    OrdersWithin(f.lessons, f.courses[i].id, i);
  }

  /** Nine lessons laid out three per course, in course order, with orders
      1, 2, 3 within each course: the ones of course `i` carry orders {1, 2, 3}. */
  lemma OrdersWithin(ls: seq<Doc<Lesson>>, c: Id, i: nat)
    requires |ls| == 9 && i < 3
    requires forall m :: 0 <= m < 9 ==> (ls[m].body.course == c <==> m / 3 == i) && ls[m].body.order == m % 3 + 1
    ensures (set d | d in ls && d.body.course == c :: d.body.order) == {1, 2, 3}
  {
    var orders := set d | d in ls && d.body.course == c :: d.body.order;
    forall x | x in orders ensures 1 <= x <= 3 {
      var d :| d in ls && d.body.course == c && d.body.order == x;
      var m :| 0 <= m < |ls| && ls[m] == d;
    }
    forall x | 1 <= x <= 3 ensures x in orders {
      var m := 3 * i + (x - 1);
      LessonIndex(i, x - 1);
      assert ls[m] in ls;
    }
  }

  /** Lesson `3 * i + j` of the flat lesson list is lesson `j` of course `i`. */
  lemma LessonIndex(i: nat, j: nat)
    requires j < 3
    ensures (3 * i + j) / 3 == i && (3 * i + j) % 3 == j
  {
  }

  /** Event `i` was created by the admin and is dated `i + 1` days after `now`. */
  lemma FixtureEvents(s0: StoreState, hash: string -> string, now: int)
    ensures var f := Fixture(s0, hash, now);
            forall i :: 0 <= i < |f.events| ==>
              && f.events[i].body.createdBy == f.users[0].id
              && f.events[i].body.date == now + (i + 1) * DAY_MILLIS
  {
    Complete(s0, Recipe(s0.nextId, hash, now));
  }

  /** Post `i` has category `CATEGORIES[i % 4]` and is by non-admin user
      `i % 5`; the admin writes no post. */
  lemma FixturePosts(s0: StoreState, hash: string -> string, now: int)
    ensures var f := Fixture(s0, hash, now);
            forall i :: 0 <= i < |f.posts| ==>
              && f.posts[i].body.category == CATEGORIES[i % 4]
              && f.posts[i].body.author == f.users[1 + i % 5].id
              && f.posts[i].body.author != f.users[0].id
  {
    Complete(s0, Recipe(s0.nextId, hash, now));
  }

  /** Comment `m` is comment `j == m % 2` under post `i == m / 2`: it points
      at post `i` and is by non-admin user `(i + j) % 5`. */
  lemma FixtureComments(s0: StoreState, hash: string -> string, now: int)
    ensures var f := Fixture(s0, hash, now);
            forall m :: 0 <= m < |f.comments| ==>
              && f.comments[m].body.post == f.posts[m / 2].id
              && f.comments[m].body.author == f.users[1 + (m / 2 + m % 2) % 5].id
  {
    Complete(s0, Recipe(s0.nextId, hash, now));
  }

  /** The first comment under each post is by the post's own author, the
      second by someone else. */
  lemma CommentAuthorVsPostAuthor(s0: StoreState, hash: string -> string, now: int)
    ensures var f := Fixture(s0, hash, now);
            forall m :: 0 <= m < |f.comments| ==>
              (f.comments[m].body.author == f.posts[m / 2].body.author <==> m % 2 == 0)
  {
    RecipeLayout(s0.nextId, hash, now);
    AuthorsOf(s0, Recipe(s0.nextId, hash, now));
  }

  lemma AuthorsOf(s0: StoreState, b: Batch)
    requires WellSized(b) && Layout(b, s0.nextId)
    ensures var f := After(s0, b, TOTAL_WRITES);
            forall m :: 0 <= m < |f.comments| ==>
              (f.comments[m].body.author == f.posts[m / 2].body.author <==> m % 2 == 0)
  {
    var f := After(s0, b, TOTAL_WRITES);
    var base := s0.nextId;
    forall m | 0 <= m < |f.comments|
      ensures f.comments[m].body.author == f.posts[m / 2].body.author <==> m % 2 == 0
    {
      var i, j := m / 2, m % 2;
      RotationShifts(i, j);
      assert f.comments[m].body.author == UserId(base, (i + j) % 5);
      assert f.posts[i].body.author == UserId(base, i % 5);
    }
  }

  /** Shifting a post index by 0 or 1 modulo 5 leaves it alone exactly for a shift of 0. */
  lemma RotationShifts(i: nat, j: nat)
    requires i < 5 && j < 2
    ensures (i + j) % 5 == i % 5 <==> j == 0
  {
  }

  /** Once the reset is done, every id in the store was handed out by this run. */
  lemma PrefixIdsFresh(s0: StoreState, hash: string -> string, now: int, k: nat)
    requires USERS_START <= k <= TOTAL_WRITES
    ensures var s := After(s0, Recipe(s0.nextId, hash, now), k);
            forall kind, x :: x in KindIds(s, kind) ==> s0.nextId <= x < s.nextId
  {
  }

  // Each kind of reference resolves in every state after the reset, for any
  // batch whose references follow the script's layout.

  lemma CourseRefsResolve(s0: StoreState, b: Batch, k: nat)
    requires WellSized(b) && Layout(b, s0.nextId) && USERS_START <= k <= TOTAL_WRITES
    ensures var s := After(s0, b, k);
            forall d :: d in s.courses ==> d.body.createdBy in Ids(s.users)
  {
    var s := After(s0, b, k);
    forall d | d in s.courses ensures d.body.createdBy in Ids(s.users) {
      assert s.users[0] in s.users;
    }
  }

  lemma LessonRefsResolve(s0: StoreState, b: Batch, k: nat)
    requires WellSized(b) && Layout(b, s0.nextId) && USERS_START <= k <= TOTAL_WRITES
    ensures var s := After(s0, b, k);
            forall d :: d in s.lessons ==> d.body.course in Ids(s.courses)
  {
    var s := After(s0, b, k);
    forall d | d in s.lessons ensures d.body.course in Ids(s.courses) {
      var m :| 0 <= m < |s.lessons| && s.lessons[m] == d;
      assert s.courses[m / 3] in s.courses;
    }
  }

  lemma EventRefsResolve(s0: StoreState, b: Batch, k: nat)
    requires WellSized(b) && Layout(b, s0.nextId) && USERS_START <= k <= TOTAL_WRITES
    ensures var s := After(s0, b, k);
            forall d :: d in s.events ==> d.body.createdBy in Ids(s.users)
  {
    var s := After(s0, b, k);
    forall d | d in s.events ensures d.body.createdBy in Ids(s.users) {
      assert s.users[0] in s.users;
    }
  }

  lemma PostRefsResolve(s0: StoreState, b: Batch, k: nat)
    requires WellSized(b) && Layout(b, s0.nextId) && USERS_START <= k <= TOTAL_WRITES
    ensures var s := After(s0, b, k);
            forall d :: d in s.posts ==> d.body.author in Ids(s.users)
  {
    var s := After(s0, b, k);
    forall d | d in s.posts ensures d.body.author in Ids(s.users) {
      var m :| 0 <= m < |s.posts| && s.posts[m] == d;
      assert s.users[1 + m % 5] in s.users;
    }
  }

  lemma CommentRefsResolve(s0: StoreState, b: Batch, k: nat)
    requires WellSized(b) && Layout(b, s0.nextId) && USERS_START <= k <= TOTAL_WRITES
    ensures var s := After(s0, b, k);
            forall d :: d in s.comments ==> d.body.author in Ids(s.users) && d.body.post in Ids(s.posts)
  {
    var s := After(s0, b, k);
    var base := s0.nextId;
    if k > COMMENTS_START {
      assert b.users[..|b.users|] == b.users && b.posts[..|b.posts|] == b.posts;
      assert s.users == Numbered(AdminId(base), b.users);
      assert s.posts == Numbered(PostId(base, 0), b.posts);
      forall d | d in s.comments ensures d.body.author in Ids(s.users) && d.body.post in Ids(s.posts) {
        var m :| 0 <= m < |s.comments| && s.comments[m] == d;
        var u := 1 + (m / 2 + m % 2) % 5;
        assert d.body == b.comments[m];
        assert s.users[u].id == d.body.author;
        assert s.posts[m / 2].id == d.body.post;
        assert s.users[u] in s.users && s.posts[m / 2] in s.posts;
      }
    }
  }

  /** Parents are saved before children: in every state the run passes
      through after the reset, including the one a failed write leaves
      behind, every reference field names a document of the referenced kind. */
  lemma PrefixIntegrity(s0: StoreState, hash: string -> string, now: int, k: nat)
    requires USERS_START <= k <= TOTAL_WRITES
    ensures RefIntegrity(After(s0, Recipe(s0.nextId, hash, now), k))
  {
    var b := Recipe(s0.nextId, hash, now);
    RecipeLayout(s0.nextId, hash, now);
    CourseRefsResolve(s0, b, k);
    LessonRefsResolve(s0, b, k);
    EventRefsResolve(s0, b, k);
    PostRefsResolve(s0, b, k);
    CommentRefsResolve(s0, b, k);
  }

  /** After the reset no id is held twice: the state no longer depends on the
      old contents, and every write keeps ids fresh and unique. */
  lemma PrefixWellFormed(s0: StoreState, b: Batch, k: nat)
    requires WellSized(b) && USERS_START <= k <= TOTAL_WRITES
    ensures WellFormed(After(s0, b, k))
  {
    var e := Empty(s0.nextId);
    assert After(s0, b, k) == After(e, b, k);
    RunIsAfter(e, b, k);
    RunPreservesWellFormed(e, Writes(b, k));
  }

  /** In every state after the reset, complete or left by a failure, ids are
      unique and each reference field names a document of the referenced
      collection and of no other. */
  lemma PrefixRefsUnambiguous(s0: StoreState, hash: string -> string, now: int, k: nat)
    requires USERS_START <= k <= TOTAL_WRITES
    ensures var s := After(s0, Recipe(s0.nextId, hash, now), k);
            WellFormed(s) && RefsUnambiguous(s)
  {
    PrefixIntegrity(s0, hash, now, k);
    PrefixWellFormed(s0, Recipe(s0.nextId, hash, now), k);
    IntegrityIsUnambiguous(After(s0, Recipe(s0.nextId, hash, now), k));
  }

  /** If the third course insertion fails, the store keeps the admin, the five
      users and the first two courses, and nothing else. */
  lemma ThirdCourseFailure(s0: StoreState, w0: nat, hash: string -> string, now: int)
    ensures var n := WritesGranted(w0, Some(w0 + COURSES_START + 2));
            var s := After(s0, Recipe(s0.nextId, hash, now), n);
            && n == COURSES_START + 2
            && |s.users| == 6 && |s.courses| == 2
            && s.lessons == [] && s.events == [] && s.posts == [] && s.comments == []
  {
  }
}
