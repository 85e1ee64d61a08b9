/** The six kinds of documents the seeding script writes, their closed
    enumerations, and the record literals the script builds for each of them.
    Reference fields hold the abstract `Id` the store handed out for the parent. */
module Entities {

  datatype Option<T> = None | Some(value: T)

  /** Identity assigned by the store on save (stands for a database object id). */
  type Id = nat

  datatype Role = Admin | Student | Teacher | Moderator
  datatype Gender = Male | Female
  datatype Level = Beginner | Intermediate | Advanced
  datatype BlockKind = Text | Image
  datatype Category = Question | Discussion | News | History

  datatype User = User(
    username: string,
    passwordHash: string,
    firstName: string,
    lastName: string,
    phone: string,
    country: string,
    language: string,
    role: Role,
    active: bool,
    email: string,
    gender: Gender,
    createdAt: int)

  datatype Course = Course(
    name: string,
    image: string,
    level: Level,
    duration: int,
    content: string,
    createdBy: Id)

  datatype ContentBlock = ContentBlock(
    kind: BlockKind,
    content: string,
    order: int,
    caption: Option<string>)

  datatype Lesson = Lesson(
    title: string,
    description: string,
    contentBlocks: seq<ContentBlock>,
    course: Id,
    order: int)

  datatype Event = Event(
    title: string,
    description: string,
    date: int,
    location: string,
    image: string,
    createdBy: Id)

  datatype Post = Post(
    title: string,
    content: string,
    category: Category,
    author: Id)

  datatype Comment = Comment(
    content: string,
    author: Id,
    post: Id)

  /** The role rotation of the non-admin users. */
  const ROLES: seq<Role> := [Student, Teacher, Moderator]
  /** One level per course, by course index. */
  const LEVELS: seq<Level> := [Beginner, Intermediate, Advanced]
  /** The category rotation of the posts. */
  const CATEGORIES: seq<Category> := [Question, Discussion, News, History]
  /** 24 * 60 * 60 * 1000: one day in milliseconds. */
  const DAY_MILLIS: int := 86_400_000

  function DigitChar(d: nat): (c: char)
    requires d < 10
    ensures '0' <= c <= '9'
    ensures c as int - '0' as int == d
  {
    ('0' as int + d) as char
  }

  /** Decimal rendering of a natural number, as a template literal `${n}` prints it. */
  function NatToString(n: nat): (s: string)
    ensures 1 <= |s|
    ensures forall k :: 0 <= k < |s| ==> '0' <= s[k] <= '9'
    ensures n < 10 <==> |s| == 1
  {
    if n < 10 then [DigitChar(n)] else NatToString(n / 10) + [DigitChar(n % 10)]
  }

  /** The number a string of decimal digits spells, most significant digit first. */
  function DecimalValue(s: string): nat
    requires forall k :: 0 <= k < |s| ==> '0' <= s[k] <= '9'
  {
    if s == [] then 0 else DecimalValue(s[..|s| - 1]) * 10 + (s[|s| - 1] as int - '0' as int)
  }

  /** `${n}` spells `n` in decimal. */
  lemma {:induction false} NatToStringValue(n: nat)
    ensures DecimalValue(NatToString(n)) == n
  {
    if n >= 10 {
      var s := NatToString(n);
      assert s[..|s| - 1] == NatToString(n / 10);
      NatToStringValue(n / 10);
    }
  }

  /** Distinct numbers print as distinct strings. */
  lemma NatToStringInjective(a: nat, b: nat)
    requires NatToString(a) == NatToString(b)
    ensures a == b
  {
    NatToStringValue(a);
    NatToStringValue(b);
  }

  /** The admin account (login `111`). */
  function AdminRecord(passwordHash: string, createdAt: int): User
  {
    User(
      username := "111",
      passwordHash := passwordHash,
      firstName := "Admin",
      lastName := "User",
      phone := "111",
      country := "Kazakhstan",
      language := "ru",
      role := Admin,
      active := true,
      email := "admin@example.com",
      gender := Male,
      createdAt := createdAt)
  }

  /** Non-admin user number `i` (0-based loop index; the texts use `i + 1`). */
  function UserRecord(i: nat, role: Role, passwordHash: string, createdAt: int): User
  {
    var n := NatToString(i + 1);
    User(
      username := "user" + n,
      passwordHash := passwordHash,
      firstName := "First" + n,
      lastName := "Last" + n,
      phone := "77777777" + n + "1",
      country := "Kazakhstan",
      language := "ru",
      role := role,
      active := true,
      email := "user" + n + "@example.com",
      gender := if i % 2 == 0 then Male else Female,
      createdAt := createdAt)
  }

  /** Course number `i`; its level is looked up by position, so `i` must index LEVELS. */
  function CourseRecord(i: nat, createdBy: Id): Course
    requires i < |LEVELS|
  {
    var n := NatToString(i + 1);
    Course(
      name := "Курс " + n,
      image := "https://example.com/course" + n + ".jpg",
      level := LEVELS[i],
      duration := 30 + i * 10,
      content := "Описание курса " + n + " на уйгурском языке",
      createdBy := createdBy)
  }

  /** Lesson `j` of course `i`: a text block then an image block. */
  function LessonRecord(i: nat, j: nat, course: Id): Lesson
  {
    var ci, lj := NatToString(i + 1), NatToString(j + 1);
    Lesson(
      title := "Урок " + lj + " курса " + ci,
      description := "Описание урока " + lj + " курса " + ci,
      contentBlocks := [
        ContentBlock(Text, "Содержание урока " + lj + " курса " + ci, 1, None),
        ContentBlock(Image, "https://example.com/image" + lj + ".jpg", 2,
                     Some("Изображение для урока " + lj))
      ],
      course := course,
      order := j + 1)
  }

  /** Event number `i`, dated `i + 1` days after `start` (milliseconds). */
  function EventRecord(i: nat, start: int, createdBy: Id): Event
  {
    var n := NatToString(i + 1);
    Event(
      title := "Событие " + n,
      description := "Описание события " + n,
      date := start + (i + 1) * DAY_MILLIS,
      location := "Место " + n,
      image := "https://example.com/event" + n + ".jpg",
      createdBy := createdBy)
  }

  /** Post number `i`; its category rotates through CATEGORIES. */
  function PostRecord(i: nat, author: Id): Post
  {
    var n := NatToString(i + 1);
    Post(
      title := "Пост " + n,
      content := "Содержание поста " + n + " от пользователя",
      category := CATEGORIES[i % |CATEGORIES|],
      author := author)
  }

  /** Comment `j` under post `i`. */
  function CommentRecord(i: nat, j: nat, author: Id, post: Id): Comment
  {
    Comment(
      content := "Комментарий " + NatToString(j + 1) + " к посту " + NatToString(i + 1),
      author := author,
      post := post)
  }
}
