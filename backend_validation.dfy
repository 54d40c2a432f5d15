/** The request schemas of backend/src/lib/validation.ts, written as Zod
    shapes, and what each accepts and produces. `validateBody` and
    `validateQuery` are `ParseObject` of the schema. */
module BackendValidation {
  import opened Common
  import opened Zod
  import Decimal
  import Catalog
  import CourseRoutes
  import BackendAuthRoutes

  function Str(checks: seq<StringCheck>): ZType
  {
    ZString(checks)
  }

  /** `z.number().int().positive()`. */
  const PositiveInt := ZNumber([IsInt(None), Positive(None)])

  /** A `z.array(z.string()).default([])` field. */
  function StringList(name: string): Field
  {
    Field(name, ZArray(ZString([]), []), Default(JArray([])))
  }

  // ------------------------------------------------------------------ auth

  const RegisterSchema: Schema := [
    Field("email", Str([EmailFormat(Some("Invalid email address"))]), Required),
    Field("password", Str([MinLength(6, Some("Password must be at least 6 characters"))]), Required),
    Field("name", Str([MinLength(2, Some("Name must be at least 2 characters"))]), Required),
    Field("role", ZNativeEnum(RoleNames), Default(JString("LEARNER")))
  ]

  const LoginSchema: Schema := [
    Field("email", Str([EmailFormat(Some("Invalid email address"))]), Required),
    Field("password", Str([MinLength(1, Some("Password is required"))]), Required)
  ]

  const RefreshTokenSchema: Schema := [
    Field("refreshToken", Str([MinLength(1, Some("Refresh token is required"))]), Required)
  ]

  const UpdateUserSchema: Schema := [
    Field("name", Str([MinLength(2, None)]), Optional),
    Field("avatar", Str([UrlFormat(None)]), Optional),
    Field("bio", Str([]), Optional)
  ]

  const ChangePasswordSchema: Schema := [
    Field("currentPassword", Str([MinLength(1, Some("Current password is required"))]), Required),
    Field("newPassword", Str([MinLength(6, Some("New password must be at least 6 characters"))]), Required)
  ]

  // --------------------------------------------------------------- courses

  const CreateCourseSchema: Schema := [
    Field("title", Str([MinLength(3, Some("Title must be at least 3 characters"))]), Required),
    Field("description", Str([MinLength(10, Some("Description must be at least 10 characters"))]), Required),
    Field("category", Str([MinLength(1, Some("Category is required"))]), Required),
    Field("difficulty", ZNativeEnum(DifficultyNames), Default(JString("BEGINNER"))),
    Field("thumbnail", Str([UrlFormat(None)]), Optional),
    Field("estimatedDuration", PositiveInt, Optional),
    Field("price", ZNumber([Positive(None)]), Optional),
    Field("isFree", ZBoolean, Default(JBool(false))),
    StringList("tags"),
    StringList("requirements"),
    StringList("learningPoints")
  ]

  const PublishedField := Field("isPublished", ZBoolean, Optional)

  const UpdateCourseSchema: Schema := ExtendWith(Partial(CreateCourseSchema), PublishedField)

  const CreateModuleSchema: Schema := [
    Field("courseId", Str([CuidFormat(Some("Invalid course ID"))]), Required),
    Field("title", Str([MinLength(3, Some("Title must be at least 3 characters"))]), Required),
    Field("description", Str([]), Optional),
    Field("order", PositiveInt, Required),
    Field("isRequired", ZBoolean, Default(JBool(true))),
    Field("duration", PositiveInt, Optional)
  ]

  const UpdateModuleSchema: Schema := Partial(Omit(CreateModuleSchema, "courseId"))

  const CreateLessonSchema: Schema := [
    Field("moduleId", Str([CuidFormat(Some("Invalid module ID"))]), Required),
    Field("title", Str([MinLength(3, Some("Title must be at least 3 characters"))]), Required),
    Field("content", ZAny, Optional),
    Field("type", ZNativeEnum(LessonTypeNames), Default(JString("TEXT"))),
    Field("videoUrl", Str([UrlFormat(None)]), Optional),
    Field("duration", PositiveInt, Optional),
    Field("order", PositiveInt, Required),
    Field("resources", ZAny, Optional),
    Field("isLocked", ZBoolean, Default(JBool(false)))
  ]

  const UpdateLessonSchema: Schema := Partial(Omit(CreateLessonSchema, "moduleId"))

  // ----------------------------------------------------------------- quizzes

  const CreateQuizSchema: Schema := [
    Field("lessonId", Str([CuidFormat(Some("Invalid lesson ID"))]), Required),
    Field("title", Str([MinLength(3, Some("Title must be at least 3 characters"))]), Required),
    Field("description", Str([]), Optional),
    Field("passingScore", ZNumber([IsInt(None), AtLeast(0.0, None), AtMost(100.0, None)]), Default(JNumber(70.0))),
    Field("timeLimit", PositiveInt, Optional),
    Field("shuffleQuestions", ZBoolean, Default(JBool(false))),
    Field("maxAttempts", PositiveInt, Default(JNumber(3.0))),
    Field("showAnswers", ZBoolean, Default(JBool(true)))
  ]

  const UpdateQuizSchema: Schema := Partial(Omit(CreateQuizSchema, "lessonId"))

  const CreateQuestionSchema: Schema := [
    Field("quizId", Str([CuidFormat(Some("Invalid quiz ID"))]), Required),
    Field("question", Str([MinLength(3, Some("Question must be at least 3 characters"))]), Required),
    Field("type", ZNativeEnum(QuestionTypeNames), Default(JString("MULTIPLE_CHOICE"))),
    Field("options", ZAny, Optional),
    Field("correctAnswer", ZAny, Required),
    Field("points", PositiveInt, Default(JNumber(1.0))),
    Field("explanation", Str([]), Optional),
    Field("order", PositiveInt, Required)
  ]

  const UpdateQuestionSchema: Schema := Partial(Omit(CreateQuestionSchema, "quizId"))

  // ------------------------------------------------------ enrollment, other

  const EnrollCourseSchema: Schema := [
    Field("courseId", Str([CuidFormat(Some("Invalid course ID"))]), Required)
  ]

  const SubmitQuizSchema: Schema := [
    Field("quizId", Str([CuidFormat(Some("Invalid quiz ID"))]), Required),
    Field("answers", ZAny, Required)
  ]

  const CreateDiscussionSchema: Schema := [
    Field("lessonId", Str([CuidFormat(Some("Invalid lesson ID"))]), Required),
    Field("content", Str([MinLength(1, Some("Content is required"))]), Required),
    Field("parentId", Str([CuidFormat(None)]), Optional)
  ]

  const UpdateDiscussionSchema: Schema := [
    Field("content", Str([MinLength(1, Some("Content is required"))]), Required)
  ]

  // ----------------------------------------------------------------- queries

  const PaginationSchema: Schema := [
    Field("page", ZNumericString(PageChecks), Default(JString("1"))),
    Field("limit", ZNumericString(LimitChecks), Default(JString("10"))),
    Field("sortBy", Str([]), Optional),
    Field("sortOrder", ZEnum(["asc", "desc"]), Default(JString("desc")))
  ]

  /** The filters `courseQuerySchema` adds to the pagination shape. */
  const CourseFilters: Schema := [
    Field("category", Str([]), Optional),
    Field("difficulty", ZNativeEnum(DifficultyNames), Optional),
    Field("isFree", ZFlagString, Optional),
    Field("isPublished", ZFlagString, Optional),
    Field("search", Str([]), Optional),
    Field("instructorId", Str([CuidFormat(None)]), Optional)
  ]

  const CourseQuerySchema: Schema := Extend(PaginationSchema, CourseFilters)

  const EnrollmentQuerySchema: Schema := Extend(PaginationSchema, [
    Field("status", Str([]), Optional),
    Field("courseId", Str([CuidFormat(None)]), Optional),
    Field("userId", Str([CuidFormat(None)]), Optional)
  ])

  // -------------------------------------------------------------- properties

  /** The string under a key, when the key holds a string. */
  predicate HasString(body: map<string, Json>, key: string)
  {
    key in body && body[key].JString?
  }

  /** Registration accepts a well-formed e-mail, a password of at least 6
      characters, a name of at least 2, and an optional role that must
      name a role. */
  lemma RegisterAccepts(body: map<string, Json>, fm: Formats)
    ensures ParseObject(RegisterSchema, JObject(body), fm).Success? <==>
              HasString(body, "email") && fm.isEmail(body["email"].s)
              && HasString(body, "password") && |body["password"].s| >= 6
              && HasString(body, "name") && |body["name"].s| >= 2
              && ("role" in body ==> HasString(body, "role") && RoleFromName(body["role"].s).Some?)
  {
    var s := RegisterSchema;
    FourFields(s, body, fm);
    OneCheckField(s[0], body, fm);
    OneCheckField(s[1], body, fm);
    OneCheckField(s[2], body, fm);
    RoleField(s[3], body, fm);
  }

  lemma RoleField(f: Field, body: map<string, Json>, fm: Formats)
    requires f == Field("role", ZNativeEnum(RoleNames), Default(JString("LEARNER")))
    ensures FieldAccepts(f, body, fm) <==>
              ("role" in body ==> HasString(body, "role") && RoleFromName(body["role"].s).Some?)
  {
    if HasString(body, "role") {
      RoleNameListed(body["role"].s);
    } else {
      RoleNameListed("LEARNER");
    }
  }

  lemma RoleNameListed(x: string)
    ensures x in RoleNames <==> RoleFromName(x).Some?
  {
  }

  /** A numeric role is refused as a value outside the enum, the issue the
      400 answer carries; a role that is neither text nor number is refused
      as the wrong type. */
  lemma RoleNumberIssue(body: map<string, Json>, fm: Formats)
    requires "role" in body && !body["role"].JString?
    ensures ParseField(RegisterSchema[3], body, fm)
            == Failure([Issue(["role"], if body["role"].JNumber? then InvalidEnumValue else InvalidType, None)])
  {
  }

  /** The typed body the register handler reads from the parsed object. */
  function RegisterBodyOf(out: map<string, Json>): Option<BackendAuthRoutes.RegisterBody>
  {
    if HasString(out, "email") && HasString(out, "password") && HasString(out, "name")
       && HasString(out, "role") && RoleFromName(out["role"].s).Some?
    then Some(BackendAuthRoutes.RegisterBody(out["email"].s, out["password"].s, out["name"].s,
                                             RoleFromName(out["role"].s).value))
    else None
  }

  /** Every accepted registration yields a body, with the fields as sent
      and the role LEARNER when none was sent. */
  lemma RegisterDefaultsRole(body: map<string, Json>, fm: Formats)
    requires ParseObject(RegisterSchema, JObject(body), fm).Success?
    ensures HasString(body, "email") && HasString(body, "password") && HasString(body, "name")
    ensures var b := RegisterBodyOf(ParseObject(RegisterSchema, JObject(body), fm).value);
            b.Some? && b.value.email == body["email"].s && b.value.password == body["password"].s
            && b.value.name == body["name"].s
            && ("role" !in body ==> b.value.role == LEARNER)
            && ("role" in body ==> HasString(body, "role") && RoleName(b.value.role) == body["role"].s)
  {
    RegisterAccepts(body, fm);
    RegisterOutput(body, fm);
  }

  /** The fields of an accepted registration, as parsed. */
  lemma RegisterOutput(body: map<string, Json>, fm: Formats)
    requires ParseObject(RegisterSchema, JObject(body), fm).Success?
    ensures var out := ParseObject(RegisterSchema, JObject(body), fm).value;
            "email" in out && "password" in out && "name" in out && "role" in out
            && ("email" in body ==> out["email"] == body["email"])
            && ("password" in body ==> out["password"] == body["password"])
            && ("name" in body ==> out["name"] == body["name"])
            && out["role"] == (if "role" in body then body["role"] else JString("LEARNER"))
  {
    var s := RegisterSchema;
    RegisterAccepts(body, fm);
    NameUnique(s, 0);
    NameUnique(s, 1);
    NameUnique(s, 2);
    NameUnique(s, 3);
    FieldOutput(s, body, fm, 0);
    FieldOutput(s, body, fm, 1);
    FieldOutput(s, body, fm, 2);
    FieldOutput(s, body, fm, 3);
  }

  /** Login needs a non-empty password and refresh a non-empty refresh
      token. */
  lemma LoginAndRefreshAccept(body: map<string, Json>, fm: Formats)
    ensures ParseObject(LoginSchema, JObject(body), fm).Success? <==>
              HasString(body, "email") && fm.isEmail(body["email"].s)
              && HasString(body, "password") && body["password"].s != ""
    ensures ParseObject(RefreshTokenSchema, JObject(body), fm).Success? <==>
              HasString(body, "refreshToken") && body["refreshToken"].s != ""
  {
    var l := LoginSchema;
    var r := RefreshTokenSchema;
    ParseFieldsAccepts(l, body, fm);
    ParseFieldsAccepts(r, body, fm);
    assert FieldAccepts(l[0], body, fm) <==> HasString(body, "email") && fm.isEmail(body["email"].s) by {
      assert l[0].ty.stringChecks[0] == EmailFormat(Some("Invalid email address"));
    }
    assert FieldAccepts(l[1], body, fm) <==> HasString(body, "password") && |body["password"].s| >= 1 by {
      assert l[1].ty.stringChecks[0] == MinLength(1, Some("Password is required"));
    }
    assert FieldAccepts(r[0], body, fm) <==> HasString(body, "refreshToken") && |body["refreshToken"].s| >= 1 by {
      assert r[0].ty.stringChecks[0] == MinLength(1, Some("Refresh token is required"));
    }
    assert (forall i :: 0 <= i < |l| ==> FieldAccepts(l[i], body, fm)) <==>
           FieldAccepts(l[0], body, fm) && FieldAccepts(l[1], body, fm);
  }

  /** A number the `.int()` check accepts. */
  predicate IsWhole(v: Json)
  {
    v.JNumber? && v.n.Floor as real == v.n
  }

  /** A quiz's passing score is a whole number from 0 to 100, and its
      attempt limit a positive whole number. */
  lemma QuizBounds(body: map<string, Json>, fm: Formats)
    requires ParseObject(CreateQuizSchema, JObject(body), fm).Success?
    ensures "passingScore" in body ==> IsWhole(body["passingScore"]) && 0.0 <= body["passingScore"].n <= 100.0
    ensures "maxAttempts" in body ==> IsWhole(body["maxAttempts"]) && body["maxAttempts"].n > 0.0
  {
    var s := CreateQuizSchema;
    ParseFieldsAccepts(s, body, fm);
    assert FieldAccepts(s[3], body, fm);
    assert FieldAccepts(s[6], body, fm);
    assert s[3].ty.numberChecks == [IsInt(None), AtLeast(0.0, None), AtMost(100.0, None)];
    assert s[6].ty.numberChecks == [IsInt(None), Positive(None)];
    if "passingScore" in body {
      assert NumberCheckHolds(s[3].ty.numberChecks[0], body["passingScore"].n);
      assert NumberCheckHolds(s[3].ty.numberChecks[1], body["passingScore"].n);
      assert NumberCheckHolds(s[3].ty.numberChecks[2], body["passingScore"].n);
    }
    if "maxAttempts" in body {
      assert NumberCheckHolds(s[6].ty.numberChecks[0], body["maxAttempts"].n);
      assert NumberCheckHolds(s[6].ty.numberChecks[1], body["maxAttempts"].n);
    }
  }

  /** An accepted quiz without a passing score gets 70, one without an
      attempt limit gets 3. */
  lemma QuizDefaults(body: map<string, Json>, fm: Formats)
    requires ParseObject(CreateQuizSchema, JObject(body), fm).Success?
    ensures var out := ParseObject(CreateQuizSchema, JObject(body), fm).value;
            ("passingScore" !in body ==> "passingScore" in out && out["passingScore"] == JNumber(70.0))
            && ("maxAttempts" !in body ==> "maxAttempts" in out && out["maxAttempts"] == JNumber(3.0))
  {
    var s := CreateQuizSchema;
    NameUnique(s, 3);
    NameUnique(s, 6);
    FieldOutput(s, body, fm, 3);
    FieldOutput(s, body, fm, 6);
  }

  /** The value `Number` gives a query parameter. */
  function NumberOf(v: Json): Option<int>
  {
    if v.JString? then Decimal.StringToNumber(v.s) else None
  }

  lemma DefaultPageTexts()
    ensures Decimal.StringToNumber("1") == Some(1) && Decimal.StringToNumber("10") == Some(10)
  {
    Decimal.StringToNumberOfNatToString(1);
    Decimal.StringToNumberOfNatToString(10);
    PageOneText();
    LimitTenText();
  }

  /** The page a query asks for: the number its text reads as, or 1. */
  predicate PageOk(query: map<string, Json>)
  {
    "page" in query ==> NumberOf(query["page"]).Some? && NumberOf(query["page"]).value >= 1
  }

  predicate LimitOk(query: map<string, Json>)
  {
    "limit" in query ==> NumberOf(query["limit"]).Some? && 1 <= NumberOf(query["limit"]).value <= 100
  }

  predicate SortOrderOk(query: map<string, Json>)
  {
    "sortOrder" in query ==> query["sortOrder"] == JString("asc") || query["sortOrder"] == JString("desc")
  }

  lemma PageField(query: map<string, Json>, fm: Formats)
    ensures FieldAccepts(PaginationSchema[0], query, fm) <==> PageOk(query)
  {
    if "page" in query {
      PageSent(query, fm);
    } else {
      DefaultsAccepted(fm);
    }
  }

  lemma LimitField(query: map<string, Json>, fm: Formats)
    ensures FieldAccepts(PaginationSchema[1], query, fm) <==> LimitOk(query)
  {
    if "limit" in query {
      LimitSent(query, fm);
    } else {
      DefaultsAccepted(fm);
    }
  }

  const PageChecks := [IsInt(None), Positive(None)]
  const LimitChecks := [IsInt(None), Positive(None), AtMost(100.0, None)]

  lemma PageChecksHold(n: int)
    ensures (forall i :: 0 <= i < |PageChecks| ==> NumberCheckHolds(PageChecks[i], n as real)) <==> n >= 1
  {
    assert NumberCheckHolds(PageChecks[0], n as real);
    assert NumberCheckHolds(PageChecks[1], n as real) <==> n >= 1;
  }

  lemma LimitChecksHold(n: int)
    ensures (forall i :: 0 <= i < |LimitChecks| ==> NumberCheckHolds(LimitChecks[i], n as real)) <==> 1 <= n <= 100
  {
    assert NumberCheckHolds(LimitChecks[0], n as real);
    assert NumberCheckHolds(LimitChecks[1], n as real) <==> n >= 1;
    assert NumberCheckHolds(LimitChecks[2], n as real) <==> n <= 100;
  }

  /** A numeric-text value is accepted exactly when its text reads as a
      number that passes the checks. */
  lemma NumericAccepts(checks: seq<NumberCheck>, v: Json, fm: Formats)
    ensures Accepts(ZNumericString(checks), v, fm) <==>
              NumberOf(v).Some? && forall i :: 0 <= i < |checks| ==> NumberCheckHolds(checks[i], NumberOf(v).value as real)
  {
  }

  lemma DefaultsAccepted(fm: Formats)
    ensures Accepts(PaginationSchema[0].ty, JString("1"), fm)
    ensures Accepts(PaginationSchema[1].ty, JString("10"), fm)
  {
    PageDefault(fm);
    LimitDefault(fm);
    assert PaginationSchema[0].ty == ZNumericString(PageChecks);
    assert PaginationSchema[1].ty == ZNumericString(LimitChecks);
  }

  lemma PageOneText()
    ensures Decimal.NatToString(1) == "1"
  {
  }

  lemma LimitTenText()
    ensures Decimal.NatToString(10) == "10"
  {
  }

  lemma PageDefault(fm: Formats)
    ensures Accepts(ZNumericString(PageChecks), JString("1"), fm)
  {
    PageChecksHold(1);
    NumericDefault(PageChecks, 1, fm);
    PageOneText();
  }

  lemma LimitDefault(fm: Formats)
    ensures Accepts(ZNumericString(LimitChecks), JString("10"), fm)
  {
    LimitChecksHold(10);
    NumericDefault(LimitChecks, 10, fm);
    LimitTenText();
  }

  lemma NumericDefault(checks: seq<NumberCheck>, n: nat, fm: Formats)
    requires forall i :: 0 <= i < |checks| ==> NumberCheckHolds(checks[i], n as real)
    ensures Accepts(ZNumericString(checks), JString(Decimal.NatToString(n)), fm)
  {
    Decimal.StringToNumberOfNatToString(n);
  }

  lemma PageSent(query: map<string, Json>, fm: Formats)
    requires "page" in query
    ensures FieldAccepts(PaginationSchema[0], query, fm) <==> PageOk(query)
  {
    NumericAccepts(PageChecks, query["page"], fm);
    if NumberOf(query["page"]).Some? {
      PageChecksHold(NumberOf(query["page"]).value);
    }
  }

  lemma LimitSent(query: map<string, Json>, fm: Formats)
    requires "limit" in query
    ensures FieldAccepts(PaginationSchema[1], query, fm) <==> LimitOk(query)
  {
    NumericAccepts(LimitChecks, query["limit"], fm);
    if NumberOf(query["limit"]).Some? {
      LimitChecksHold(NumberOf(query["limit"]).value);
    }
  }

  /** The pagination query accepts a page that reads as a whole number of
      at least 1, a limit that reads as one from 1 to 100, any sortBy
      text and a sortOrder of "asc" or "desc"; each may be left out. */
  lemma PaginationAccepts(query: map<string, Json>, fm: Formats)
    ensures ParseObject(PaginationSchema, JObject(query), fm).Success? <==>
              PageOk(query) && LimitOk(query)
              && ("sortBy" in query ==> query["sortBy"].JString?) && SortOrderOk(query)
  {
    var s := PaginationSchema;
    FourFields(s, query, fm);
    PageField(query, fm);
    LimitField(query, fm);
    SortByField(s[2], query, fm);
    SortOrderField(s[3], query, fm);
  }

  lemma SortByField(f: Field, query: map<string, Json>, fm: Formats)
    requires f == Field("sortBy", Str([]), Optional)
    ensures FieldAccepts(f, query, fm) <==> ("sortBy" in query ==> query["sortBy"].JString?)
  {
  }

  lemma SortOrderField(f: Field, query: map<string, Json>, fm: Formats)
    requires f == Field("sortOrder", ZEnum(["asc", "desc"]), Default(JString("desc")))
    ensures FieldAccepts(f, query, fm) <==> SortOrderOk(query)
  {
  }

  /** The page a valid query asks for: the number its text reads as,
      or 1. */
  function PageOf(query: map<string, Json>): int
    requires PageOk(query)
  {
    if "page" in query then NumberOf(query["page"]).value else 1
  }

  function LimitOf(query: map<string, Json>): int
    requires LimitOk(query)
  {
    if "limit" in query then NumberOf(query["limit"]).value else 10
  }

  /** Parsing a numeric-text field of a valid query yields the number the
      text reads as, or the number of its default text. */
  lemma NumericOutput(s: Schema, query: map<string, Json>, fm: Formats, i: nat, dflt: nat)
    requires i < |s| && forall j :: 0 <= j < |s| && j != i ==> s[j].name != s[i].name
    requires s[i].ty.ZNumericString? && s[i].presence == Default(JString(Decimal.NatToString(dflt)))
    requires ParseFields(s, query, fm).Success?
    ensures var out := ParseFields(s, query, fm).value;
            var key := s[i].name;
            key in out
            && (key in query ==> NumberOf(query[key]).Some? && out[key] == JNumber(NumberOf(query[key]).value as real))
            && (key !in query ==> out[key] == JNumber(dflt as real))
  {
    FieldOutput(s, query, fm, i);
    var key := s[i].name;
    if key in query {
      NumericNormal(s[i].ty, query[key], fm);
    } else {
      Decimal.StringToNumberOfNatToString(dflt);
      NumericNormal(s[i].ty, JString(Decimal.NatToString(dflt)), fm);
    }
  }

  lemma NumericNormal(ty: ZType, v: Json, fm: Formats)
    requires ty.ZNumericString? && Accepts(ty, v, fm)
    ensures NumberOf(v).Some? && Normal(ty, v) == JNumber(NumberOf(v).value as real)
  {
  }

  /** An accepted pagination query yields numbers: the page and limit
      given, or 1 and 10; and the sort order given, or "desc". */
  lemma PaginationDefaults(query: map<string, Json>, fm: Formats)
    requires ParseObject(PaginationSchema, JObject(query), fm).Success?
    ensures PageOk(query) && LimitOk(query)
    ensures var out := ParseObject(PaginationSchema, JObject(query), fm).value;
            "page" in out && "limit" in out && "sortOrder" in out
            && out["page"] == JNumber(PageOf(query) as real)
            && out["limit"] == JNumber(LimitOf(query) as real)
            && out["sortOrder"] == (if "sortOrder" in query then query["sortOrder"] else JString("desc"))
  {
    PaginationAccepts(query, fm);
    PageOutput(query, fm);
    LimitOutput(query, fm);
    var s := PaginationSchema;
    NameUnique(s, 3);
    FieldOutput(s, query, fm, 3);
  }

  lemma PageOutput(query: map<string, Json>, fm: Formats)
    requires ParseObject(PaginationSchema, JObject(query), fm).Success? && PageOk(query)
    ensures var out := ParseObject(PaginationSchema, JObject(query), fm).value;
            "page" in out && out["page"] == JNumber(PageOf(query) as real)
  {
    var s := PaginationSchema;
    assert Decimal.NatToString(1) == "1";
    NameUnique(s, 0);
    NumericOutput(s, query, fm, 0, 1);
  }

  lemma LimitOutput(query: map<string, Json>, fm: Formats)
    requires ParseObject(PaginationSchema, JObject(query), fm).Success? && LimitOk(query)
    ensures var out := ParseObject(PaginationSchema, JObject(query), fm).value;
            "limit" in out && out["limit"] == JNumber(LimitOf(query) as real)
  {
    var s := PaginationSchema;
    assert Decimal.NatToString(10) == "10";
    NameUnique(s, 1);
    NumericOutput(s, query, fm, 1, 10);
  }

  /** `courseQuerySchema` is the pagination shape followed by the
      filters. */
  lemma CourseQueryShape()
    ensures CourseQuerySchema == PaginationSchema + CourseFilters
  {
    FiltersDistinct();
    FiltersFresh();
    ExtendFresh(PaginationSchema, CourseFilters);
  }

  lemma FiltersDistinct()
    ensures DistinctNames(CourseFilters)
  {
  }

  lemma FiltersFresh()
    ensures FreshFrom(CourseFilters, PaginationSchema)
  {
    assert forall j :: 0 <= j < |PaginationSchema| ==> PaginationSchema[j].name in {"page", "limit", "sortBy", "sortOrder"};
    assert forall i :: 0 <= i < |CourseFilters| ==>
             CourseFilters[i].name in {"category", "difficulty", "isFree", "isPublished", "search", "instructorId"};
  }

  const QueryNames := ["page", "limit", "sortBy", "sortOrder", "category", "difficulty",
                        "isFree", "isPublished", "search", "instructorId"]

  /** The keys of the course query, in order; no two alike. */
  lemma QueryKeys()
    ensures |CourseQuerySchema| == |QueryNames|
    ensures forall j :: 0 <= j < |QueryNames| ==> CourseQuerySchema[j].name == QueryNames[j]
    ensures forall j :: 0 <= j < 4 ==> CourseQuerySchema[j] == PaginationSchema[j]
    ensures forall j :: 4 <= j < 10 ==> CourseQuerySchema[j] == CourseFilters[j - 4]
  {
    CourseQueryShape();
  }

  /** Field `k` of the quiz, registration or pagination shape is the only
      one with its name. */
  lemma NameUnique(s: Schema, k: nat)
    requires s == CreateQuizSchema || s == RegisterSchema || s == PaginationSchema
    requires k < |s|
    ensures forall j :: 0 <= j < |s| && j != k ==> s[j].name != s[k].name
  {
  }

  lemma QueryKeyUnique(k: nat)
    requires k < |QueryNames|
    ensures forall j :: 0 <= j < |QueryNames| && j != k ==> QueryNames[j] != QueryNames[k]
  {
  }

  /** `isFree` and `isPublished` become true for exactly the text "true"
      and false for any other text. */
  lemma QueryFlags(query: map<string, Json>, fm: Formats)
    requires ParseObject(CourseQuerySchema, JObject(query), fm).Success?
    ensures var out := ParseObject(CourseQuerySchema, JObject(query), fm).value;
            ("isFree" in query ==> query["isFree"].JString? && "isFree" in out && out["isFree"] == JBool(query["isFree"].s == "true"))
            && ("isFree" !in query ==> "isFree" !in out)
            && ("isPublished" in query ==> query["isPublished"].JString? && "isPublished" in out
                                           && out["isPublished"] == JBool(query["isPublished"].s == "true"))
            && ("isPublished" !in query ==> "isPublished" !in out)
  {
    IsFreeFlag(query, fm);
    IsPublishedFlag(query, fm);
  }

  lemma IsFreeFlag(query: map<string, Json>, fm: Formats)
    requires ParseObject(CourseQuerySchema, JObject(query), fm).Success?
    ensures var out := ParseObject(CourseQuerySchema, JObject(query), fm).value;
            ("isFree" in query ==> query["isFree"].JString? && "isFree" in out && out["isFree"] == JBool(query["isFree"].s == "true"))
            && ("isFree" !in query ==> "isFree" !in out)
  {
    var s := CourseQuerySchema;
    QueryKeys();
    QueryKeyUnique(6);
    assert s[6] == CourseFilters[2];
    FlagFieldOutput(s, query, fm, 6);
  }

  lemma IsPublishedFlag(query: map<string, Json>, fm: Formats)
    requires ParseObject(CourseQuerySchema, JObject(query), fm).Success?
    ensures var out := ParseObject(CourseQuerySchema, JObject(query), fm).value;
            ("isPublished" in query ==> query["isPublished"].JString? && "isPublished" in out && out["isPublished"] == JBool(query["isPublished"].s == "true"))
            && ("isPublished" !in query ==> "isPublished" !in out)
  {
    var s := CourseQuerySchema;
    QueryKeys();
    QueryKeyUnique(7);
    assert s[7] == CourseFilters[3];
    FlagFieldOutput(s, query, fm, 7);
  }

  /** The typed query the course listing reads from a parsed query. */
  function CourseQueryOf(out: map<string, Json>): Option<CourseRoutes.CourseQuery>
  {
    if "page" in out && IsWhole(out["page"]) && out["page"].n >= 1.0
       && "limit" in out && IsWhole(out["limit"]) && 1.0 <= out["limit"].n <= 100.0
       && "sortOrder" in out && (out["sortOrder"] == JString("asc") || out["sortOrder"] == JString("desc"))
    then
      Some(CourseRoutes.CourseQuery(
        out["page"].n.Floor, out["limit"].n.Floor,
        OptionalString(out, "sortBy"),
        if out["sortOrder"] == JString("asc") then CourseRoutes.Asc else CourseRoutes.Desc,
        OptionalString(out, "category"),
        if HasString(out, "difficulty") then DifficultyFromName(out["difficulty"].s) else None,
        OptionalFlag(out, "isFree"),
        OptionalFlag(out, "isPublished"),
        OptionalString(out, "search"),
        OptionalString(out, "instructorId")))
    else None
  }

  function OptionalString(out: map<string, Json>, key: string): Option<string>
  {
    if HasString(out, key) then Some(out[key].s) else None
  }

  function OptionalFlag(out: map<string, Json>, key: string): Option<bool>
  {
    if key in out && out[key].JBool? then Some(out[key].b) else None
  }

  function DifficultyFromName(s: string): Option<Catalog.Difficulty>
  {
    if s == "BEGINNER" then Some(Catalog.BEGINNER)
    else if s == "INTERMEDIATE" then Some(Catalog.INTERMEDIATE)
    else if s == "ADVANCED" then Some(Catalog.ADVANCED)
    else None
  }

  /** A course query parses as a pagination query does, with the same
      page, limit and sort order. */
  lemma QueryPaging(query: map<string, Json>, fm: Formats)
    requires ParseObject(CourseQuerySchema, JObject(query), fm).Success?
    ensures ParseObject(PaginationSchema, JObject(query), fm).Success?
    ensures var out := ParseObject(CourseQuerySchema, JObject(query), fm).value;
            var paged := ParseObject(PaginationSchema, JObject(query), fm).value;
            forall k :: k in paged ==> k in out && out[k] == paged[k]
  {
    CourseQueryShape();
    ParseFieldsAppend(PaginationSchema, CourseFilters, query, fm);
  }

  lemma QueryNumbers(query: map<string, Json>, fm: Formats)
    requires ParseObject(CourseQuerySchema, JObject(query), fm).Success?
    ensures PageOk(query) && LimitOk(query)
    ensures var out := ParseObject(CourseQuerySchema, JObject(query), fm).value;
            "page" in out && out["page"] == JNumber(PageOf(query) as real)
            && "limit" in out && out["limit"] == JNumber(LimitOf(query) as real)
            && "sortOrder" in out && out["sortOrder"] == (if "sortOrder" in query then query["sortOrder"] else JString("desc"))
            && (out["sortOrder"] == JString("asc") || out["sortOrder"] == JString("desc"))
  {
    QueryPaging(query, fm);
    PaginationDefaults(query, fm);
    PaginationAccepts(query, fm);
  }

  /** Whole numbers in range and a known order make a listing query. */
  lemma DecodeNumbers(out: map<string, Json>, page: int, limit: int)
    requires "page" in out && out["page"] == JNumber(page as real) && page >= 1
    requires "limit" in out && out["limit"] == JNumber(limit as real) && 1 <= limit <= 100
    requires "sortOrder" in out && (out["sortOrder"] == JString("asc") || out["sortOrder"] == JString("desc"))
    ensures CourseQueryOf(out).Some?
    ensures CourseQueryOf(out).value.page == page && CourseQueryOf(out).value.limit == limit
    ensures CourseQueryOf(out).value.sortOrder == if out["sortOrder"] == JString("asc") then CourseRoutes.Asc else CourseRoutes.Desc
  {
  }

  /** Every query the schema accepts yields a listing query whose page
      and limit are those sent (or 1 and 10), so at least 1 and from 1 to
      100, and whose order is the one sent (or descending). */
  lemma CourseQueryDecodes(query: map<string, Json>, fm: Formats)
    requires ParseObject(CourseQuerySchema, JObject(query), fm).Success?
    ensures PageOk(query) && LimitOk(query)
    ensures var q := CourseQueryOf(ParseObject(CourseQuerySchema, JObject(query), fm).value);
            q.Some? && q.value.page == PageOf(query) && q.value.limit == LimitOf(query)
            && q.value.sortOrder == (if "sortOrder" in query && query["sortOrder"] == JString("asc")
                                     then CourseRoutes.Asc else CourseRoutes.Desc)
  {
    QueryNumbers(query, fm);
    DecodeNumbers(ParseObject(CourseQuerySchema, JObject(query), fm).value, PageOf(query), LimitOf(query));
  }

  // ---------------------------------------------------------- update shapes

  lemma PartialMembers(s: Schema)
    ensures forall f :: f in Partial(s) <==> exists g :: g in s && f == g.(presence := Optional)
  {
    forall f | f in Partial(s)
      ensures exists g :: g in s && f == g.(presence := Optional)
    {
      var i :| 0 <= i < |Partial(s)| && Partial(s)[i] == f;
      assert s[i] in s;
    }
  }

  /** The update schemas for modules, lessons, quizzes and questions are
      their create schemas without the parent id and with every field
      optional. */
  lemma UpdateShapes()
    ensures forall f :: f in UpdateModuleSchema <==>
              exists g :: g in CreateModuleSchema && g.name != "courseId" && f == g.(presence := Optional)
    ensures forall f :: f in UpdateLessonSchema <==>
              exists g :: g in CreateLessonSchema && g.name != "moduleId" && f == g.(presence := Optional)
    ensures forall f :: f in UpdateQuizSchema <==>
              exists g :: g in CreateQuizSchema && g.name != "lessonId" && f == g.(presence := Optional)
    ensures forall f :: f in UpdateQuestionSchema <==>
              exists g :: g in CreateQuestionSchema && g.name != "quizId" && f == g.(presence := Optional)
  {
    OmitThenPartial(CreateModuleSchema, "courseId");
    OmitThenPartial(CreateLessonSchema, "moduleId");
    OmitThenPartial(CreateQuizSchema, "lessonId");
    OmitThenPartial(CreateQuestionSchema, "quizId");
  }

  lemma OmitThenPartial(s: Schema, parent: string)
    ensures forall f :: f in Partial(Omit(s, parent)) <==>
              exists g :: g in s && g.name != parent && f == g.(presence := Optional)
  {
    PartialMembers(Omit(s, parent));
  }

  /** The course update schema is the create schema with every field
      optional, followed by an optional isPublished. */
  lemma UpdateCourseShape()
    ensures UpdateCourseSchema == Partial(CreateCourseSchema) + [PublishedField]
  {
    var p := Partial(CreateCourseSchema);
    forall j | 0 <= j < |p|
      ensures p[j].name != "isPublished"
    {
      assert CreateCourseSchema[j] in CreateCourseSchema;
    }
    ExtendWithFresh(p, PublishedField);
  }

  /** The empty body is a valid update of every kind, and changes
      nothing. */
  lemma UpdatesAcceptEmpty(fm: Formats)
    ensures ParseObject(UpdateCourseSchema, JObject(map[]), fm) == Success(map[])
    ensures ParseObject(UpdateModuleSchema, JObject(map[]), fm) == Success(map[])
    ensures ParseObject(UpdateLessonSchema, JObject(map[]), fm) == Success(map[])
    ensures ParseObject(UpdateQuizSchema, JObject(map[]), fm) == Success(map[])
    ensures ParseObject(UpdateQuestionSchema, JObject(map[]), fm) == Success(map[])
  {
    PartialAcceptsEmpty(Omit(CreateModuleSchema, "courseId"), fm);
    PartialAcceptsEmpty(Omit(CreateLessonSchema, "moduleId"), fm);
    PartialAcceptsEmpty(Omit(CreateQuizSchema, "lessonId"), fm);
    PartialAcceptsEmpty(Omit(CreateQuestionSchema, "quizId"), fm);
    PartialAcceptsEmpty(CreateCourseSchema, fm);
    UpdateCourseShape();
    AppendAbsentOptional(Partial(CreateCourseSchema), PublishedField, map[], fm);
  }

  /** A parent id sent with an update is never passed on. */
  lemma UpdatesDropParent(body: map<string, Json>, fm: Formats)
    ensures ParseObject(UpdateModuleSchema, JObject(body), fm).Success? ==>
              "courseId" !in ParseObject(UpdateModuleSchema, JObject(body), fm).value
    ensures ParseObject(UpdateLessonSchema, JObject(body), fm).Success? ==>
              "moduleId" !in ParseObject(UpdateLessonSchema, JObject(body), fm).value
    ensures ParseObject(UpdateQuizSchema, JObject(body), fm).Success? ==>
              "lessonId" !in ParseObject(UpdateQuizSchema, JObject(body), fm).value
    ensures ParseObject(UpdateQuestionSchema, JObject(body), fm).Success? ==>
              "quizId" !in ParseObject(UpdateQuestionSchema, JObject(body), fm).value
  {
    PartialStripsOmitted(CreateModuleSchema, "courseId", body, fm);
    PartialStripsOmitted(CreateLessonSchema, "moduleId", body, fm);
    PartialStripsOmitted(CreateQuizSchema, "lessonId", body, fm);
    PartialStripsOmitted(CreateQuestionSchema, "quizId", body, fm);
  }

  lemma PartialStripsOmitted(s: Schema, name: string, body: map<string, Json>, fm: Formats)
    ensures ParseObject(Partial(Omit(s, name)), JObject(body), fm).Success? ==>
              name !in ParseObject(Partial(Omit(s, name)), JObject(body), fm).value
  {
    var p := Partial(Omit(s, name));
    if ParseObject(p, JObject(body), fm).Success? {
      ParseFieldsKeys(p, body, fm);
      forall i | 0 <= i < |p|
        ensures p[i].name != name
      {
        assert Omit(s, name)[i] in Omit(s, name);
      }
    }
  }
}
