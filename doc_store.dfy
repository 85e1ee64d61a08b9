/** An in-memory document store with the six collections the seeding script
    writes. A save appends the document under a fresh id; a bulk delete empties
    one collection. Writes can be made to fail at one chosen position, which
    stands for any error raised by the database while writing. */
module DocStore {
  import opened Entities

  datatype Doc<T> = Doc(id: Id, body: T)

  datatype Kind = Users | Courses | Lessons | Events | Posts | Comments

  /** A document to be saved, tagged by the collection it belongs to. */
  datatype Entity =
    | UserDoc(user: User)
    | CourseDoc(course: Course)
    | LessonDoc(lesson: Lesson)
    | EventDoc(event: Event)
    | PostDoc(post: Post)
    | CommentDoc(comment: Comment)

  /** One write issued to the store. */
  datatype Write = Wipe(kind: Kind) | Insert(entity: Entity)

  /** The store's observable state: six collections in insertion order, and the
      next id it will hand out. */
  datatype StoreState = StoreState(
    users: seq<Doc<User>>,
    courses: seq<Doc<Course>>,
    lessons: seq<Doc<Lesson>>,
    events: seq<Doc<Event>>,
    posts: seq<Doc<Post>>,
    comments: seq<Doc<Comment>>,
    nextId: Id)

  function Empty(nextId: Id): StoreState
  {
    StoreState([], [], [], [], [], [], nextId)
  }

  function KindOf(e: Entity): Kind
  {
    match e
    case UserDoc(_) => Users
    case CourseDoc(_) => Courses
    case LessonDoc(_) => Lessons
    case EventDoc(_) => Events
    case PostDoc(_) => Posts
    case CommentDoc(_) => Comments
  }

  function Ids<T(==)>(docs: seq<Doc<T>>): set<Id>
  {
    set d | d in docs :: d.id
  }

  predicate DistinctIds<T>(docs: seq<Doc<T>>)
  {
    forall i, j :: 0 <= i < j < |docs| ==> docs[i].id != docs[j].id
  }

  /** The ids present in the collection of kind `k`. */
  function KindIds(s: StoreState, k: Kind): set<Id>
  {
    match k
    case Users => Ids(s.users)
    case Courses => Ids(s.courses)
    case Lessons => Ids(s.lessons)
    case Events => Ids(s.events)
    case Posts => Ids(s.posts)
    case Comments => Ids(s.comments)
  }

  /** Every id is one the store has handed out, and no id is held by two
      documents, in the same collection or in two different ones. */
  ghost predicate WellFormed(s: StoreState)
  {
    && DistinctIds(s.users) && DistinctIds(s.courses) && DistinctIds(s.lessons)
    && DistinctIds(s.events) && DistinctIds(s.posts) && DistinctIds(s.comments)
    && (forall k, x :: x in KindIds(s, k) ==> x < s.nextId)
    && (forall k1, k2 :: k1 != k2 ==> KindIds(s, k1) !! KindIds(s, k2))
  }

  /** Effect of one successful write. */
  function ApplyWrite(s: StoreState, w: Write): StoreState
  {
    match w
    case Wipe(k) =>
      (match k
       case Users => s.(users := [])
       case Courses => s.(courses := [])
       case Lessons => s.(lessons := [])
       case Events => s.(events := [])
       case Posts => s.(posts := [])
       case Comments => s.(comments := []))
    case Insert(e) =>
      var id := s.nextId;
      var s' := s.(nextId := id + 1);
      (match e
       case UserDoc(u) => s'.(users := s.users + [Doc(id, u)])
       case CourseDoc(c) => s'.(courses := s.courses + [Doc(id, c)])
       case LessonDoc(l) => s'.(lessons := s.lessons + [Doc(id, l)])
       case EventDoc(v) => s'.(events := s.events + [Doc(id, v)])
       case PostDoc(p) => s'.(posts := s.posts + [Doc(id, p)])
       case CommentDoc(c) => s'.(comments := s.comments + [Doc(id, c)]))
  }

  /** Effect of a sequence of successful writes, applied in order. */
  function Run(s: StoreState, ws: seq<Write>): StoreState
    decreases |ws|
  {
    if ws == [] then s else ApplyWrite(Run(s, ws[..|ws| - 1]), ws[|ws| - 1])
  }

  /** Every reference field in the store resolves to a document of the referenced kind. */
  ghost predicate RefIntegrity(s: StoreState)
  {
    && (forall d :: d in s.courses ==> d.body.createdBy in Ids(s.users))
    && (forall d :: d in s.lessons ==> d.body.course in Ids(s.courses))
    && (forall d :: d in s.events ==> d.body.createdBy in Ids(s.users))
    && (forall d :: d in s.posts ==> d.body.author in Ids(s.users))
    && (forall d :: d in s.comments ==> d.body.author in Ids(s.users) && d.body.post in Ids(s.posts))
  }

  lemma IdsAppend<T>(docs: seq<Doc<T>>, d: Doc<T>)
    ensures Ids(docs + [d]) == Ids(docs) + {d.id}
  {
    assert d in docs + [d];
    forall x | x in Ids(docs) ensures x in Ids(docs + [d]) {
      var e :| e in docs && e.id == x;
      assert e in docs + [d];
    }
  }

  lemma DistinctIdsAppend<T>(docs: seq<Doc<T>>, d: Doc<T>)
    requires DistinctIds(docs) && d.id !in Ids(docs)
    ensures DistinctIds(docs + [d])
  {
    forall i | 0 <= i < |docs| ensures docs[i].id != d.id {
      assert docs[i] in docs;
    }
  }

  /** Saving `e` adds exactly the store's next id to the collection of `e`'s kind. */
  lemma SaveIds(s: StoreState, e: Entity)
    ensures forall k :: KindIds(ApplyWrite(s, Insert(e)), k)
                         == if k == KindOf(e) then KindIds(s, k) + {s.nextId} else KindIds(s, k)
  {
    var id := s.nextId;
    match e
    case UserDoc(u) => IdsAppend(s.users, Doc(id, u));
    case CourseDoc(c) => IdsAppend(s.courses, Doc(id, c));
    case LessonDoc(l) => IdsAppend(s.lessons, Doc(id, l));
    case EventDoc(v) => IdsAppend(s.events, Doc(id, v));
    case PostDoc(p) => IdsAppend(s.posts, Doc(id, p));
    case CommentDoc(c) => IdsAppend(s.comments, Doc(id, c));
  }

  /** Every write keeps the ids fresh and unique. */
  lemma ApplyWritePreservesWellFormed(s: StoreState, w: Write)
    requires WellFormed(s)
    ensures WellFormed(ApplyWrite(s, w))
    ensures ApplyWrite(s, w).nextId >= s.nextId
  {
    var s' := ApplyWrite(s, w);
    match w
    case Wipe(k) =>
      assert forall j :: KindIds(s', j) <= KindIds(s, j);
    case Insert(e) =>
      SaveIds(s, e);
      var id := s.nextId;
      assert id !in KindIds(s, KindOf(e));
      match e
      case UserDoc(u) => DistinctIdsAppend(s.users, Doc(id, u));
      case CourseDoc(c) => DistinctIdsAppend(s.courses, Doc(id, c));
      case LessonDoc(l) => DistinctIdsAppend(s.lessons, Doc(id, l));
      case EventDoc(v) => DistinctIdsAppend(s.events, Doc(id, v));
      case PostDoc(p) => DistinctIdsAppend(s.posts, Doc(id, p));
      case CommentDoc(c) => DistinctIdsAppend(s.comments, Doc(id, c));
  }

  /** A sequence of writes keeps the ids fresh and unique. */
  lemma {:induction false} RunPreservesWellFormed(s: StoreState, ws: seq<Write>)
    requires WellFormed(s)
    ensures WellFormed(Run(s, ws))
    decreases |ws|
  {
    if ws != [] {
      RunPreservesWellFormed(s, ws[..|ws| - 1]);
      ApplyWritePreservesWellFormed(Run(s, ws[..|ws| - 1]), ws[|ws| - 1]);
    }
  }

  /** Every reference field names a document of the referenced collection and
      of no other collection. */
  ghost predicate RefsUnambiguous(s: StoreState)
  {
    && (forall d, k :: d in s.courses && d.body.createdBy in KindIds(s, k) ==> k == Users)
    && (forall d, k :: d in s.lessons && d.body.course in KindIds(s, k) ==> k == Courses)
    && (forall d, k :: d in s.events && d.body.createdBy in KindIds(s, k) ==> k == Users)
    && (forall d, k :: d in s.posts && d.body.author in KindIds(s, k) ==> k == Users)
    && (forall d, k :: d in s.comments && d.body.author in KindIds(s, k) ==> k == Users)
    && (forall d, k :: d in s.comments && d.body.post in KindIds(s, k) ==> k == Posts)
  }

  /** Since no id is shared between collections, a reference that resolves in
      the referenced collection resolves nowhere else. */
  lemma IntegrityIsUnambiguous(s: StoreState)
    requires WellFormed(s) && RefIntegrity(s)
    ensures RefsUnambiguous(s)
  {
    assert KindIds(s, Users) == Ids(s.users);
    assert KindIds(s, Courses) == Ids(s.courses);
    assert KindIds(s, Posts) == Ids(s.posts);
  }

  /** The database: six collections updated in place, an id counter, and a
      count of the writes performed so far. Once `failAt` writes have succeeded
      the database stops accepting writes: every further write raises an error
      and changes nothing. `log` records every write the store was asked to
      perform, refused or not. */
  class Store {
    var users: seq<Doc<User>>
    var courses: seq<Doc<Course>>
    var lessons: seq<Doc<Lesson>>
    var events: seq<Doc<Event>>
    var posts: seq<Doc<Post>>
    var comments: seq<Doc<Comment>>
    var nextId: Id
    var writes: nat
    ghost var log: seq<Write>
    const failAt: Option<nat>

    function State(): StoreState
      reads this
    {
      StoreState(users, courses, lessons, events, posts, comments, nextId)
    }

    ghost predicate Valid()
      reads this
    {
      WellFormed(State())
    }

    /** Whether the next write raises an error. */
    predicate NextWriteFails()
      reads this
    {
      failAt.Some? && failAt.value <= writes
    }

    constructor (failAt: Option<nat>)
      ensures Valid()
      ensures State() == Empty(0) && writes == 0 && log == [] && this.failAt == failAt
    {
      users, courses, lessons, events, posts, comments := [], [], [], [], [], [];
      nextId, writes := 0, 0;
      log := [];
      this.failAt := failAt;
    }

    /** Removes every document of one collection. */
    method DeleteMany(kind: Kind) returns (ok: bool)
      requires Valid()
      modifies this
      ensures Valid()
      ensures ok == !old(NextWriteFails())
      ensures State() == if ok then ApplyWrite(old(State()), Wipe(kind)) else old(State())
      ensures writes == if ok then old(writes) + 1 else old(writes)
      ensures log == old(log) + [Wipe(kind)]
    {
      log := log + [Wipe(kind)];
      if NextWriteFails() {
        return false;
      }
      ApplyWritePreservesWellFormed(State(), Wipe(kind));
      match kind {
        case Users => users := [];
        case Courses => courses := [];
        case Lessons => lessons := [];
        case Events => events := [];
        case Posts => posts := [];
        case Comments => comments := [];
      }
      writes := writes + 1;
      ok := true;
    }

    /** Appends `e` to its collection under a fresh id and returns that id. */
    method Save(e: Entity) returns (id: Option<Id>)
      requires Valid()
      modifies this
      ensures Valid()
      ensures id.Some? == !old(NextWriteFails())
      ensures id.Some? ==> id.value == old(nextId) && id.value !in KindIds(old(State()), KindOf(e))
      ensures State() == if id.Some? then ApplyWrite(old(State()), Insert(e)) else old(State())
      ensures writes == if id.Some? then old(writes) + 1 else old(writes)
      ensures log == old(log) + [Insert(e)]
    {
      log := log + [Insert(e)];
      if NextWriteFails() {
        return None;
      }
      ApplyWritePreservesWellFormed(State(), Insert(e));
      id := Some(nextId);
      match e {
        case UserDoc(u) => users := users + [Doc(nextId, u)];
        case CourseDoc(c) => courses := courses + [Doc(nextId, c)];
        case LessonDoc(l) => lessons := lessons + [Doc(nextId, l)];
        case EventDoc(v) => events := events + [Doc(nextId, v)];
        case PostDoc(p) => posts := posts + [Doc(nextId, p)];
        case CommentDoc(c) => comments := comments + [Doc(nextId, c)];
      }
      nextId := nextId + 1;
      writes := writes + 1;
    }
  }
}
