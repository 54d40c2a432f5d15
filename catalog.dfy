/** The course catalogue of the apps/api server: the `course`,
    `enrollment` and `notification` tables the course and enrollment
    routes read and write. Row ids (cuids) are drawn by the database and
    are passed in by the caller. */
module Catalog {
  import opened Common

  /** `CourseDifficulty` of the Prisma schema. */
  datatype Difficulty = BEGINNER | INTERMEDIATE | ADVANCED

  datatype Course = Course(
    title: string,
    description: string,
    category: string,
    difficulty: Difficulty,
    thumbnail: Option<string>,
    estimatedDuration: Option<int>,
    price: Option<real>,
    isFree: bool,
    tags: seq<string>,
    requirements: seq<string>,
    learningPoints: seq<string>,
    isPublished: bool,
    instructorId: string,
    createdAt: int)

  /** `EnrollmentStatus`. */
  datatype EnrollmentStatus = ACTIVE | COMPLETED | DROPPED

  datatype Enrollment = Enrollment(status: EnrollmentStatus, enrolledAt: int)

  datatype NotificationType = ENROLLMENT_CONFIRMED

  datatype Notification = Notification(userId: string, kind: NotificationType, title: string, message: string)

  /** An enrollment row is unique per user and course
      (`userId_courseId`), so the table is keyed by that pair. */
  datatype EnrollmentKey = EnrollmentKey(userId: string, courseId: string)

  class Db {
    var courses: map<string, Course>
    var enrollments: map<EnrollmentKey, Enrollment>
    var notifications: seq<Notification>

    constructor()
      ensures courses == map[] && enrollments == map[] && notifications == []
    {
      courses := map[];
      enrollments := map[];
      notifications := [];
    }
  }
}

/** apps/api/src/routes/courses.routes.ts: the filtered, paginated course
    list, and the instructor routes that create, change, delete, publish a
    course and list its students. */
module CourseRoutes {
  import opened Common
  import opened Catalog
  import Jwt
  import Middleware

  // ---------------------------------------------------------------- listing

  type PageNumber = n: int | n >= 1 witness 1
  type PageLimit = n: int | 1 <= n <= 100 witness 10

  datatype SortOrder = Asc | Desc

  /** The query string of GET /courses after `courseQuerySchema`: page and
      limit are already numbers in range, sortOrder defaults to Desc, and
      isFree/isPublished are already booleans. */
  datatype CourseQuery = CourseQuery(
    page: PageNumber,
    limit: PageLimit,
    sortBy: Option<string>,
    sortOrder: SortOrder,
    category: Option<string>,
    difficulty: Option<Difficulty>,
    isFree: Option<bool>,
    isPublished: Option<bool>,
    search: Option<string>,
    instructorId: Option<string>)

  /** The Prisma `where` object of the listing; a None field is a key the
      handler did not set. */
  datatype Where = Where(
    category: Option<string>,
    difficulty: Option<Difficulty>,
    isFree: Option<bool>,
    isPublished: Option<bool>,
    instructorId: Option<string>,
    search: Option<string>)

  /** The where object of GET /courses, built key by key: the category,
      instructor and search filters are set only when truthy, difficulty
      whenever present (every enum value is truthy), and isFree and
      isPublished whenever present, false included. Its meaning is the
      reference filter Selected. */
  method BuildWhere(q: CourseQuery) returns (w: Where)
    ensures forall c :: Matches(w, c) <==> Selected(q, c)
  {
    w := Where(None, None, None, None, None, None);
    if Truthy(q.category) {
      w := w.(category := q.category);
    }
    if q.difficulty.Some? {
      w := w.(difficulty := q.difficulty);
    }
    if q.isFree.Some? {
      w := w.(isFree := q.isFree);
    }
    if q.isPublished.Some? {
      w := w.(isPublished := q.isPublished);
    }
    if Truthy(q.instructorId) {
      w := w.(instructorId := q.instructorId);
    }
    if Truthy(q.search) {
      w := w.(search := q.search);
    }
  }

  /** `needle` occurs in `hay` at position `i`. */
  predicate OccursAt(hay: string, needle: string, i: int)
  {
    0 <= i <= |hay| - |needle| && hay[i..i + |needle|] == needle
  }

  /** `{ contains: term, mode: 'insensitive' }`. */
  predicate ContainsInsensitive(text: string, term: string)
  {
    exists i :: 0 <= i <= |text| && OccursAt(Lower(text), Lower(term), i)
  }

  /** A course row satisfies a where object. */
  predicate Matches(w: Where, c: Course)
  {
    (w.category.Some? ==> c.category == w.category.value)
    && (w.difficulty.Some? ==> c.difficulty == w.difficulty.value)
    && (w.isFree.Some? ==> c.isFree == w.isFree.value)
    && (w.isPublished.Some? ==> c.isPublished == w.isPublished.value)
    && (w.instructorId.Some? ==> c.instructorId == w.instructorId.value)
    && (w.search.Some? ==> ContainsInsensitive(c.title, w.search.value)
                           || ContainsInsensitive(c.description, w.search.value))
  }

  /** The courses a query lists: those agreeing with every filter the
      query names, where an empty category, instructor or search string
      names no filter and a false isFree or isPublished still names one;
      the search term may occur in the title or in the description. */
  predicate Selected(q: CourseQuery, c: Course)
  {
    (q.category.Some? && q.category.value != "" ==> c.category == q.category.value)
    && (q.difficulty.Some? ==> c.difficulty == q.difficulty.value)
    && (q.isFree.Some? ==> c.isFree == q.isFree.value)
    && (q.isPublished.Some? ==> c.isPublished == q.isPublished.value)
    && (q.instructorId.Some? && q.instructorId.value != "" ==> c.instructorId == q.instructorId.value)
    && (q.search.Some? && q.search.value != "" ==>
          ContainsInsensitive(c.title, q.search.value) || ContainsInsensitive(c.description, q.search.value))
  }

  /** A search term matches regardless of the case of its ASCII letters. */
  lemma SearchIgnoresCase(text: string, term: string)
    requires ContainsInsensitive(text, term)
    ensures ContainsInsensitive(text, Lower(term)) && ContainsInsensitive(Lower(text), term)
  {
    LowerIdempotent(term);
    LowerIdempotent(text);
    var i :| OccursAt(Lower(text), Lower(term), i);
    assert OccursAt(Lower(text), Lower(Lower(term)), i);
    assert OccursAt(Lower(Lower(text)), Lower(term), i);
  }

  lemma LowerIdempotent(s: string)
    ensures Lower(Lower(s)) == Lower(s)
  {
  }

  /** A row of the course table as the database returns it. */
  datatype CourseRow = CourseRow(id: string, course: Course)

  /** The rows of a table, in its order, that satisfy a where object:
      what `findMany({ where })` reads before skip and take. */
  function Select(rows: seq<CourseRow>, w: Where): (r: seq<CourseRow>)
    ensures |r| <= |rows|
    ensures forall x :: x in r <==> x in rows && Matches(w, x.course)
  {
    if rows == [] then []
    else if Matches(w, rows[0].course) then [rows[0]] + Select(rows[1..], w)
    else Select(rows[1..], w)
  }

  /** The rows of a table, in its order, that a query lists. */
  function Listed(rows: seq<CourseRow>, q: CourseQuery): (r: seq<CourseRow>)
    ensures |r| <= |rows|
    ensures forall x :: x in r <==> x in rows && Selected(q, x.course)
  {
    if rows == [] then []
    else if Selected(q, rows[0].course) then [rows[0]] + Listed(rows[1..], q)
    else Listed(rows[1..], q)
  }

  /** A where object that means a query selects what the query lists. */
  lemma {:induction false} SelectListed(rows: seq<CourseRow>, w: Where, q: CourseQuery)
    requires forall c :: Matches(w, c) <==> Selected(q, c)
    ensures Select(rows, w) == Listed(rows, q)
  {
    if rows != [] {
      SelectListed(rows[1..], w, q);
    }
  }

  /** The order the listing asks of the database: `{ [sortBy]: sortOrder }`
      for a truthy sortBy, newest first otherwise. */
  datatype OrderBy = OrderBy(field: string, order: SortOrder)

  function OrderOf(q: CourseQuery): (o: OrderBy)
    ensures !Truthy(q.sortBy) ==> o == OrderBy("createdAt", Desc)
    ensures Truthy(q.sortBy) ==> o == OrderBy(q.sortBy.value, q.sortOrder)
  {
    if Truthy(q.sortBy) then OrderBy(q.sortBy.value, q.sortOrder) else OrderBy("createdAt", Desc)
  }

  /** `skip: (page - 1) * limit`. */
  function Skip(page: PageNumber, limit: PageLimit): (s: nat)
    ensures s + limit == page * limit
  {
    (page - 1) * limit
  }

  /** `Math.ceil(total / limit)`. */
  function TotalPages(total: nat, limit: PageLimit): (n: nat)
    ensures total <= n * limit
    ensures n == 0 || (n - 1) * limit < total
  {
    (total + limit - 1) / limit
  }

  /** `skip` then `take: limit` on an ordered row sequence. */
  function PageOf<T>(rows: seq<T>, page: PageNumber, limit: PageLimit): (r: seq<T>)
    ensures |r| <= limit
    ensures Skip(page, limit) < |rows| ==> r == rows[Skip(page, limit)..Min(page * limit, |rows|)]
    ensures Skip(page, limit) >= |rows| ==> r == []
  {
    var s := Skip(page, limit);
    if s >= |rows| then [] else rows[s..Min(s + limit, |rows|)]
  }

  function Min(a: int, b: int): int
  {
    if a <= b then a else b
  }

  datatype Pagination = Pagination(page: PageNumber, limit: PageLimit, total: nat, totalPages: nat)
  datatype CoursePage = CoursePage(data: seq<CourseRow>, pagination: Pagination)

  /** GET /courses on the course table, given in the order `OrderOf(q)`
      asks for (the sort itself is the database's): the count and the page
      are taken with the same where object. `columns` are the course fields
      the database can order by; a truthy sortBy outside them makes the
      query throw, which the application answers with 500. */
  method ListCourses(table: seq<CourseRow>, q: CourseQuery, columns: set<string>) returns (r: Result<CoursePage>)
    ensures r.Err? <==> Truthy(q.sortBy) && q.sortBy.value !in columns
    ensures r.Err? ==> r.error == InternalServerError
    ensures r.Ok? ==> r.value.data == PageOf(Listed(table, q), q.page, q.limit)
    ensures r.Ok? ==> r.value.pagination == Pagination(q.page, q.limit, |Listed(table, q)|, TotalPages(|Listed(table, q)|, q.limit))
  {
    var order := OrderOf(q);
    if Truthy(q.sortBy) && order.field !in columns {
      return Err(InternalServerError);
    }
    var w := BuildWhere(q);
    var total := |Select(table, w)|;
    var data := PageOf(Select(table, w), q.page, q.limit);
    SelectListed(table, w, q);
    r := Ok(CoursePage(data, Pagination(q.page, q.limit, total, TotalPages(total, q.limit))));
  }

  /** A page is non-empty exactly when its number is at most the page
      count, and every page before the last one is full. */
  lemma PageNonEmpty<T>(rows: seq<T>, page: PageNumber, limit: PageLimit)
    ensures PageOf(rows, page, limit) != [] <==> page <= TotalPages(|rows|, limit)
    ensures page < TotalPages(|rows|, limit) ==> |PageOf(rows, page, limit)| == limit
  {
    var tp := TotalPages(|rows|, limit);
    if page <= tp {
      MulMono(page - 1, tp - 1, limit);
    } else {
      MulMono(tp, page - 1, limit);
    }
    if page < tp {
      MulMono(page, tp - 1, limit);
    }
  }

  lemma MulMono(a: int, b: int, c: nat)
    requires a <= b
    ensures a * c <= b * c
  {
    assert b * c - a * c == (b - a) * c;
  }

  /** Pages 1 to k, one after the other. */
  function FirstPages<T>(rows: seq<T>, limit: PageLimit, k: nat): seq<T>
  {
    if k == 0 then [] else FirstPages(rows, limit, k - 1) + PageOf(rows, k, limit)
  }

  /** Reading the pages in order yields every row exactly once, in order. */
  lemma {:induction false} PagesPartition<T>(rows: seq<T>, limit: PageLimit)
    ensures FirstPages(rows, limit, TotalPages(|rows|, limit)) == rows
  {
    var tp := TotalPages(|rows|, limit);
    FirstPagesPrefix(rows, limit, tp);
  }

  lemma {:induction false} FirstPagesPrefix<T>(rows: seq<T>, limit: PageLimit, k: nat)
    ensures FirstPages(rows, limit, k) == rows[..Min(k * limit, |rows|)]
  {
    if k > 0 {
      FirstPagesPrefix(rows, limit, k - 1);
      PrefixStep(rows, Skip(k, limit), k * limit);
    }
  }

  /** Rows up to `lo` followed by the rows from `lo` to `hi` are the rows
      up to `hi`. */
  lemma PrefixStep<T>(rows: seq<T>, lo: nat, hi: int)
    requires lo <= hi
    ensures rows[..Min(lo, |rows|)] + (if lo < |rows| then rows[lo..Min(hi, |rows|)] else []) == rows[..Min(hi, |rows|)]
  {
    if lo < |rows| {
      assert rows[..lo] + rows[lo..Min(hi, |rows|)] == rows[..Min(hi, |rows|)];
    }
  }

  /** Newest first: the default order of the listing. */
  predicate NewestFirst(rows: seq<CourseRow>)
  {
    forall i, j :: 0 <= i < j < |rows| ==> rows[i].course.createdAt >= rows[j].course.createdAt
  }

  /** With no sortBy, a table in the order the listing asks for yields a
      page that is newest first as well. */
  lemma DefaultListingNewestFirst(table: seq<CourseRow>, q: CourseQuery)
    requires OrderOf(q) == OrderBy("createdAt", Desc) && NewestFirst(table)
    ensures NewestFirst(PageOf(Listed(table, q), q.page, q.limit))
  {
    ListedKeepsOrder(table, q);
  }

  lemma {:induction false} ListedKeepsOrder(rows: seq<CourseRow>, q: CourseQuery)
    requires NewestFirst(rows)
    ensures NewestFirst(Listed(rows, q))
  {
    if rows != [] {
      assert NewestFirst(rows[1..]);
      ListedKeepsOrder(rows[1..], q);
      if Selected(q, rows[0].course) {
        var rest := Listed(rows[1..], q);
        HeadIsNewest(rows);
        assert forall x :: x in rest ==> x in rows[1..];
        ConsNewestFirst(rows[0], rest);
      }
    }
  }

  lemma HeadIsNewest(rows: seq<CourseRow>)
    requires rows != [] && NewestFirst(rows)
    ensures forall x :: x in rows[1..] ==> rows[0].course.createdAt >= x.course.createdAt
  {
    forall x | x in rows[1..]
      ensures rows[0].course.createdAt >= x.course.createdAt
    {
      var j :| 0 <= j < |rows[1..]| && rows[1..][j] == x;
      assert rows[j + 1] == x;
    }
  }

  lemma ConsNewestFirst(head: CourseRow, rest: seq<CourseRow>)
    requires NewestFirst(rest)
    requires forall x :: x in rest ==> head.course.createdAt >= x.course.createdAt
    ensures NewestFirst([head] + rest)
  {
    var r := [head] + rest;
    forall i, j | 0 <= i < j < |r|
      ensures r[i].course.createdAt >= r[j].course.createdAt
    {
      if i == 0 {
        assert r[j] == rest[j - 1];
      } else {
        assert r[i] == rest[i - 1] && r[j] == rest[j - 1];
      }
    }
  }

  // ------------------------------------------------------- instructor routes

  const CourseNotFound := HttpError(404, "Course not found")
  const NotAuthorizedToUpdate := HttpError(403, "Not authorized to update this course")
  const NotAuthorizedToDelete := HttpError(403, "Not authorized to delete this course")
  const NotAuthorized := HttpError(403, "Not authorized")
  const CourseDeletedMessage := "Course deleted successfully"

  /** The owner check of the instructor routes: the course's instructor or
      any ADMIN. */
  predicate MayManage(c: Course, caller: Jwt.Claims)
  {
    c.instructorId == caller.userId || caller.role == ADMIN
  }

  /** The checks before a change to course `id`: the role gate of
      `requireInstructor()`, then 404 for a missing course, then `denied`
      for a caller who neither owns the course nor is ADMIN. */
  function ManageGuard(courses: map<string, Course>, id: string, caller: Jwt.Payload, denied: HttpError): (r: Result<Course>)
    ensures r.Ok? <==> caller.claims.role != LEARNER && id in courses && MayManage(courses[id], caller.claims)
    ensures r.Ok? ==> r.value == courses[id]
    ensures caller.claims.role == LEARNER ==> r == Err(Middleware.InsufficientPermissions)
    ensures caller.claims.role != LEARNER && id !in courses ==> r == Err(CourseNotFound)
    ensures caller.claims.role != LEARNER && id in courses && !MayManage(courses[id], caller.claims) ==> r == Err(denied)
  {
    Middleware.RoleGates(Some(caller));
    var gate := Middleware.RequireInstructor(Some(caller));
    if gate.Rejected? then Err(gate.error)
    else if id !in courses then Err(CourseNotFound)
    else if !MayManage(courses[id], caller.claims) then Err(denied)
    else Ok(courses[id])
  }

  /** The body of POST /courses after `createCourseSchema`. */
  datatype CourseInput = CourseInput(
    title: string,
    description: string,
    category: string,
    difficulty: Difficulty,
    thumbnail: Option<string>,
    estimatedDuration: Option<int>,
    price: Option<real>,
    isFree: bool,
    tags: seq<string>,
    requirements: seq<string>,
    learningPoints: seq<string>)

  /** The body of PATCH /courses/:id after `updateCourseSchema`: every
      field optional, plus isPublished. */
  datatype CoursePatch = CoursePatch(
    title: Option<string>,
    description: Option<string>,
    category: Option<string>,
    difficulty: Option<Difficulty>,
    thumbnail: Option<string>,
    estimatedDuration: Option<int>,
    price: Option<real>,
    isFree: Option<bool>,
    tags: Option<seq<string>>,
    requirements: Option<seq<string>>,
    learningPoints: Option<seq<string>>,
    isPublished: Option<bool>)

  /** The row `db.course.create` makes: the body, the caller as instructor,
      unpublished. */
  function NewCourse(body: CourseInput, instructorId: string, now: int): (c: Course)
    ensures !c.isPublished && c.instructorId == instructorId && c.createdAt == now
    ensures c.title == body.title && c.price == body.price && c.tags == body.tags
  {
    Course(body.title, body.description, body.category, body.difficulty, body.thumbnail,
           body.estimatedDuration, body.price, body.isFree, body.tags, body.requirements,
           body.learningPoints, false, instructorId, now)
  }

  function Pick<T>(given: Option<T>, current: T): T
  {
    if given.Some? then given.value else current
  }

  /** `db.course.update({ data: body })`: the fields present in the body
      replace the stored ones. */
  function Patched(c: Course, p: CoursePatch): (r: Course)
    ensures r.instructorId == c.instructorId && r.createdAt == c.createdAt
    ensures p.isPublished.None? ==> r.isPublished == c.isPublished
    ensures p == EmptyPatch ==> r == c
  {
    c.(title := Pick(p.title, c.title),
       description := Pick(p.description, c.description),
       category := Pick(p.category, c.category),
       difficulty := Pick(p.difficulty, c.difficulty),
       thumbnail := if p.thumbnail.Some? then p.thumbnail else c.thumbnail,
       estimatedDuration := if p.estimatedDuration.Some? then p.estimatedDuration else c.estimatedDuration,
       price := if p.price.Some? then p.price else c.price,
       isFree := Pick(p.isFree, c.isFree),
       tags := Pick(p.tags, c.tags),
       requirements := Pick(p.requirements, c.requirements),
       learningPoints := Pick(p.learningPoints, c.learningPoints),
       isPublished := Pick(p.isPublished, c.isPublished))
  }

  const EmptyPatch := CoursePatch(None, None, None, None, None, None, None, None, None, None, None, None)

  /** A patch never moves a course to another instructor or changes when it
      was created; an empty body changes nothing; applying the same patch
      twice is the same as once. */
  lemma PatchProperties(c: Course, p: CoursePatch)
    ensures Patched(c, p).instructorId == c.instructorId && Patched(c, p).createdAt == c.createdAt
    ensures Patched(c, EmptyPatch) == c
    ensures Patched(Patched(c, p), p) == Patched(c, p)
    ensures p.isPublished.Some? ==> Patched(c, p).isPublished == p.isPublished.value
  {
  }

  /** GET /courses/:id. */
  method GetCourse(db: Db, id: string) returns (r: Result<Course>)
    ensures r.Ok? <==> id in db.courses
    ensures r.Ok? ==> r.value == db.courses[id]
    ensures r.Err? ==> r.error == CourseNotFound
  {
    if id !in db.courses {
      return Err(CourseNotFound);
    }
    return Ok(db.courses[id]);
  }

  /** POST /courses: the caller becomes the instructor of the new course.
      A taken id is a failed insert, answered with 500. */
  method CreateCourse(db: Db, caller: Jwt.Payload, body: CourseInput, newId: string, now: int) returns (r: Result<Course>)
    modifies db
    ensures db.enrollments == old(db.enrollments) && db.notifications == old(db.notifications)
    ensures caller.claims.role == LEARNER ==> r == Err(Middleware.InsufficientPermissions) && db.courses == old(db.courses)
    ensures caller.claims.role != LEARNER && newId in old(db.courses) ==> r == Err(InternalServerError) && db.courses == old(db.courses)
    ensures caller.claims.role != LEARNER && newId !in old(db.courses) ==>
              r == Ok(NewCourse(body, caller.claims.userId, now))
              && db.courses == old(db.courses)[newId := NewCourse(body, caller.claims.userId, now)]
  {
    var gate := Middleware.RequireInstructor(Some(caller));
    if gate.Rejected? {
      return Err(gate.error);
    }
    if newId in db.courses {
      return Err(InternalServerError);
    }
    var course := NewCourse(body, caller.claims.userId, now);
    db.courses := db.courses[newId := course];
    return Ok(course);
  }

  /** PATCH /courses/:id. */
  method UpdateCourse(db: Db, caller: Jwt.Payload, id: string, patch: CoursePatch) returns (r: Result<Course>)
    modifies db
    ensures db.enrollments == old(db.enrollments) && db.notifications == old(db.notifications)
    ensures var g := ManageGuard(old(db.courses), id, caller, NotAuthorizedToUpdate);
            if g.Err? then r == Err(g.error) && db.courses == old(db.courses)
            else r == Ok(Patched(g.value, patch)) && db.courses == old(db.courses)[id := Patched(g.value, patch)]
  {
    var g := ManageGuard(db.courses, id, caller, NotAuthorizedToUpdate);
    if g.Err? {
      return Err(g.error);
    }
    var course := Patched(g.value, patch);
    db.courses := db.courses[id := course];
    return Ok(course);
  }

  /** DELETE /courses/:id. */
  method DeleteCourse(db: Db, caller: Jwt.Payload, id: string) returns (r: Result<string>)
    modifies db
    ensures db.enrollments == old(db.enrollments) && db.notifications == old(db.notifications)
    ensures var g := ManageGuard(old(db.courses), id, caller, NotAuthorizedToDelete);
            if g.Err? then r == Err(g.error) && db.courses == old(db.courses)
            else r == Ok(CourseDeletedMessage) && db.courses == old(db.courses) - {id}
  {
    var g := ManageGuard(db.courses, id, caller, NotAuthorizedToDelete);
    if g.Err? {
      return Err(g.error);
    }
    db.courses := db.courses - {id};
    return Ok(CourseDeletedMessage);
  }

  /** POST /courses/:id/publish with body `{ isPublished }`; a body without
      the field leaves the flag as it is. */
  method PublishCourse(db: Db, caller: Jwt.Payload, id: string, isPublished: Option<bool>) returns (r: Result<Course>)
    modifies db
    ensures db.enrollments == old(db.enrollments) && db.notifications == old(db.notifications)
    ensures var g := ManageGuard(old(db.courses), id, caller, NotAuthorized);
            if g.Err? then r == Err(g.error) && db.courses == old(db.courses)
            else
              var c := g.value.(isPublished := Pick(isPublished, g.value.isPublished));
              r == Ok(c) && db.courses == old(db.courses)[id := c]
  {
    var g := ManageGuard(db.courses, id, caller, NotAuthorized);
    if g.Err? {
      return Err(g.error);
    }
    var course := g.value.(isPublished := Pick(isPublished, g.value.isPublished));
    db.courses := db.courses[id := course];
    return Ok(course);
  }

  /** The enrollments of one course, by enrolled user. */
  function EnrollmentsOfCourse(enrollments: map<EnrollmentKey, Enrollment>, courseId: string): (r: map<EnrollmentKey, Enrollment>)
    ensures forall k :: k in r <==> k in enrollments && k.courseId == courseId
    ensures forall k :: k in r ==> r[k] == enrollments[k]
  {
    map k | k in enrollments && k.courseId == courseId :: enrollments[k]
  }

  /** GET /courses/:id/students: the course's enrollments, dropped ones
      included. */
  method Students(db: Db, caller: Jwt.Payload, id: string) returns (r: Result<map<EnrollmentKey, Enrollment>>)
    ensures var g := ManageGuard(db.courses, id, caller, NotAuthorized);
            if g.Err? then r == Err(g.error)
            else r.Ok? && forall k :: k in r.value <==> k in db.enrollments && k.courseId == id
    ensures r.Ok? ==> forall k :: k in r.value ==> r.value[k] == db.enrollments[k]
  {
    var g := ManageGuard(db.courses, id, caller, NotAuthorized);
    if g.Err? {
      return Err(g.error);
    }
    return Ok(EnrollmentsOfCourse(db.enrollments, id));
  }
}

/** apps/api/src/routes/enrollments.routes.ts: a learner's own
    enrollments. Every route runs behind the access-token gate, so the
    caller is the verified payload. */
module EnrollmentRoutes {
  import opened Common
  import opened Catalog
  import Jwt

  const CourseNotFound := HttpError(404, "Course not found")
  const CourseNotPublished := HttpError(400, "Course is not published")
  const AlreadyEnrolled := HttpError(409, "Already enrolled in this course")
  const EnrollmentNotFound := HttpError(404, "Enrollment not found")
  const EnrolledMessage := "You have successfully enrolled in the course. Start learning now!"
  const UnenrolledMessage := "Successfully unenrolled from course"

  /** The notification a successful enrollment leaves for the learner. */
  function Welcome(userId: string, c: Course): (n: Notification)
    ensures n.userId == userId && n.kind == ENROLLMENT_CONFIRMED
    ensures n.title == "Welcome to " + c.title && n.message == EnrolledMessage
  {
    Notification(userId, ENROLLMENT_CONFIRMED, "Welcome to " + c.title, EnrolledMessage)
  }

  /** GET /enrollments: the caller's enrollments, in every status. */
  method MyEnrollments(db: Db, caller: Jwt.Payload) returns (r: map<EnrollmentKey, Enrollment>)
    ensures forall k :: k in r <==> k in db.enrollments && k.userId == caller.claims.userId
    ensures forall k :: k in r ==> r[k] == db.enrollments[k]
  {
    r := map k | k in db.enrollments && k.userId == caller.claims.userId :: db.enrollments[k];
  }

  /** POST /enrollments: 404 for an unknown course, 400 for an unpublished
      one, 409 when an enrollment row for the pair exists in any status;
      otherwise one ACTIVE enrollment and one welcome notification. */
  method Enroll(db: Db, caller: Jwt.Payload, courseId: string, now: int) returns (r: Result<Enrollment>)
    modifies db
    ensures db.courses == old(db.courses)
    ensures var key := EnrollmentKey(caller.claims.userId, courseId);
            if courseId !in old(db.courses) then
              r == Err(CourseNotFound) && db.enrollments == old(db.enrollments) && db.notifications == old(db.notifications)
            else if !old(db.courses)[courseId].isPublished then
              r == Err(CourseNotPublished) && db.enrollments == old(db.enrollments) && db.notifications == old(db.notifications)
            else if key in old(db.enrollments) then
              r == Err(AlreadyEnrolled) && db.enrollments == old(db.enrollments) && db.notifications == old(db.notifications)
            else
              r == Ok(Enrollment(ACTIVE, now))
              && db.enrollments == old(db.enrollments)[key := Enrollment(ACTIVE, now)]
              && db.notifications == old(db.notifications) + [Welcome(caller.claims.userId, old(db.courses)[courseId])]
  {
    if courseId !in db.courses {
      return Err(CourseNotFound);
    }
    var course := db.courses[courseId];
    if !course.isPublished {
      return Err(CourseNotPublished);
    }
    var key := EnrollmentKey(caller.claims.userId, courseId);
    if key in db.enrollments {
      return Err(AlreadyEnrolled);
    }
    var enrollment := Enrollment(ACTIVE, now);
    db.enrollments := db.enrollments[key := enrollment];
    db.notifications := db.notifications + [Welcome(caller.claims.userId, course)];
    return Ok(enrollment);
  }

  /** GET /enrollments/:courseId/progress. */
  method Progress(db: Db, caller: Jwt.Payload, courseId: string) returns (r: Result<Enrollment>)
    ensures var key := EnrollmentKey(caller.claims.userId, courseId);
            (r.Ok? <==> key in db.enrollments)
            && (r.Ok? ==> r.value == db.enrollments[key])
            && (r.Err? ==> r.error == EnrollmentNotFound)
  {
    var key := EnrollmentKey(caller.claims.userId, courseId);
    if key !in db.enrollments {
      return Err(EnrollmentNotFound);
    }
    return Ok(db.enrollments[key]);
  }

  /** DELETE /enrollments/:courseId: the row is kept, marked DROPPED. */
  method Unenroll(db: Db, caller: Jwt.Payload, courseId: string) returns (r: Result<string>)
    modifies db
    ensures db.courses == old(db.courses) && db.notifications == old(db.notifications)
    ensures var key := EnrollmentKey(caller.claims.userId, courseId);
            if key !in old(db.enrollments) then
              r == Err(EnrollmentNotFound) && db.enrollments == old(db.enrollments)
            else
              r == Ok(UnenrolledMessage)
              && db.enrollments == old(db.enrollments)[key := old(db.enrollments)[key].(status := DROPPED)]
  {
    var key := EnrollmentKey(caller.claims.userId, courseId);
    if key !in db.enrollments {
      return Err(EnrollmentNotFound);
    }
    db.enrollments := db.enrollments[key := db.enrollments[key].(status := DROPPED)];
    return Ok(UnenrolledMessage);
  }

  /** Unenrolling does not free the place: a learner who enrolled and then
      unenrolled is refused with 409 on enrolling again, the row stays
      DROPPED and only the first enrollment left a notification. */
  method EnrollDropEnroll(db: Db, caller: Jwt.Payload, courseId: string, now: int, later: int)
    returns (first: Result<Enrollment>, dropped: Result<string>, again: Result<Enrollment>)
    modifies db
    ensures first.Ok? ==> dropped.Ok? && again == Err(AlreadyEnrolled)
    ensures first.Ok? ==> courseId in old(db.courses) && EnrollmentKey(caller.claims.userId, courseId) in db.enrollments
    ensures first.Ok? ==> db.enrollments[EnrollmentKey(caller.claims.userId, courseId)] == Enrollment(DROPPED, now)
    ensures first.Ok? ==> db.notifications == old(db.notifications) + [Welcome(caller.claims.userId, old(db.courses)[courseId])]
  {
    first := Enroll(db, caller, courseId, now);
    dropped := Unenroll(db, caller, courseId);
    again := Enroll(db, caller, courseId, later);
  }
}
