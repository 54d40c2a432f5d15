/** Types shared by every part of the model: optional values, HTTP error
    results (the `HTTPException(status, { message })` convention of the API
    servers) and the user roles of the platform. */
module Common {

  datatype Option<+T> = None | Some(value: T)

  /** An HTTP failure: the status code and the message the server puts in
      its JSON error body. */
  datatype HttpError = HttpError(status: int, message: string)

  /** A library call either returns a value or throws an error. */
  datatype Outcome<+T, +E> = Success(value: T) | Failure(error: E)

  /** A route handler either answers or throws an HTTPException. */
  datatype Result<+T> = Ok(value: T) | Err(error: HttpError)

  /** `UserRole` of the Prisma schema. */
  datatype Role = ADMIN | INSTRUCTOR | LEARNER

  function RoleName(r: Role): (s: string)
    ensures |s| > 0
  {
    match r
    case ADMIN => "ADMIN"
    case INSTRUCTOR => "INSTRUCTOR"
    case LEARNER => "LEARNER"
  }

  /** Reads a role back from its name; the inverse of RoleName. */
  function RoleFromName(s: string): (r: Option<Role>)
    ensures r.Some? ==> RoleName(r.value) == s
  {
    if s == "ADMIN" then Some(ADMIN)
    else if s == "INSTRUCTOR" then Some(INSTRUCTOR)
    else if s == "LEARNER" then Some(LEARNER)
    else None
  }

  lemma RoleNameRoundTrip(r: Role)
    ensures RoleFromName(RoleName(r)) == Some(r)
  {
  }

  /** JavaScript truthiness of an optional string (`null`, `undefined` and
      `""` are falsy). */
  predicate Truthy(s: Option<string>)
  {
    s.Some? && s.value != ""
  }

  /** ASCII lower-casing: the case folding of Prisma's `mode:
      'insensitive'` on the letters A to Z, and of a regular expression's
      `i` flag on ASCII text. */
  function Lower(s: string): (r: string)
    ensures |r| == |s|
    ensures forall i :: 0 <= i < |s| ==> r[i] == (if 'A' <= s[i] <= 'Z' then s[i] - 'A' + 'a' else s[i])
  {
    if s == [] then []
    else [if 'A' <= s[0] <= 'Z' then s[0] - 'A' + 'a' else s[0]] + Lower(s[1..])
  }

  /** The values of the Prisma enums the request schemas list: `UserRole`,
      `CourseDifficulty` (also the course levels of the shared schemas),
      `LessonType` and `QuestionType`. */
  const RoleNames := ["ADMIN", "INSTRUCTOR", "LEARNER"]
  const DifficultyNames := ["BEGINNER", "INTERMEDIATE", "ADVANCED"]
  const LessonTypeNames := ["VIDEO", "TEXT", "QUIZ", "INTERACTIVE"]
  const QuestionTypeNames := ["MULTIPLE_CHOICE", "TRUE_FALSE"]

  /** Status codes used across the routes. */
  const BadRequest := 400
  const Unauthorized := 401
  const Forbidden := 403
  const NotFound := 404
  const Conflict := 409
  const InternalError := 500

  /** An exception that is not an HTTPException is answered with 500 by the
      global error handler. */
  const InternalServerError := HttpError(500, "Internal Server Error")
}
