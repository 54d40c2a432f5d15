/** The request schemas the front end and the API share,
    packages/shared/src/schemas/index.ts, written as Zod shapes, and the
    rules each one enforces. */
module SharedSchemas {
  import opened Common
  import opened Zod

  /** `z.number().int().min(0)`. */
  const Count := ZNumber([IsInt(None), AtLeast(0.0, None)])

  // ------------------------------------------------------------------ users

  const UsernameType := ZString([
    MinLength(3, Some("Username minimal 3 karakter")),
    MaxLength(20, Some("Username maksimal 20 karakter")),
    AllIn(WordChar, Some("Username hanya boleh berisi huruf, angka, dan underscore"))
  ])

  const PasswordType := ZString([
    MinLength(8, Some("Password minimal 8 karakter")),
    SomeIn(UpperLetter, Some("Password harus mengandung huruf besar")),
    SomeIn(LowerLetter, Some("Password harus mengandung huruf kecil")),
    SomeIn(DecimalDigit, Some("Password harus mengandung angka"))
  ])

  const UserRegisterSchema: Schema := [
    Field("email", ZString([EmailFormat(Some("Email tidak valid"))]), Required),
    Field("username", UsernameType, Required),
    Field("password", PasswordType, Required),
    Field("fullName", ZString([]), Optional)
  ]

  const UserLoginSchema: Schema := [
    Field("emailOrUsername", ZString([MinLength(1, Some("Email atau username harus diisi"))]), Required),
    Field("password", ZString([MinLength(1, Some("Password harus diisi"))]), Required)
  ]

  const UpdateUserSchema: Schema := [
    Field("fullName", ZString([]), Optional),
    Field("avatar", ZString([UrlFormat(None)]), Optional)
  ]

  // ---------------------------------------------------------------- courses

  const PriceType := ZNumber([AtLeast(0.0, Some("Harga tidak boleh negatif"))])

  const CreateCourseSchema: Schema := [
    Field("title", ZString([MinLength(3, Some("Judul minimal 3 karakter"))]), Required),
    Field("description", ZString([MinLength(10, Some("Deskripsi minimal 10 karakter"))]), Required),
    Field("categoryId", ZString([]), Required),
    Field("level", ZEnum(DifficultyNames), Required),
    Field("price", PriceType, Required),
    Field("thumbnail", ZString([UrlFormat(None)]), Optional)
  ]

  const UpdateCourseSchema: Schema := Partial(CreateCourseSchema)

  const CreateModuleSchema: Schema := [
    Field("title", ZString([MinLength(3, Some("Judul minimal 3 karakter"))]), Required),
    Field("description", ZString([]), Optional),
    Field("order", Count, Required)
  ]

  const UpdateModuleSchema: Schema := Partial(CreateModuleSchema)

  const CreateLessonSchema: Schema := [
    Field("title", ZString([MinLength(3, Some("Judul minimal 3 karakter"))]), Required),
    Field("content", ZString([]), Required),
    Field("type", ZEnum(LessonTypeNames), Required),
    Field("duration", Count, Required),
    Field("order", Count, Required),
    Field("videoUrl", ZString([UrlFormat(None)]), Optional),
    Field("isPreview", ZBoolean, Default(JBool(false)))
  ]

  const UpdateLessonSchema: Schema := Partial(CreateLessonSchema)

  // ---------------------------------------------------------------- quizzes

  const CreateQuizSchema: Schema := [
    Field("title", ZString([MinLength(3, Some("Judul minimal 3 karakter"))]), Required),
    Field("description", ZString([]), Optional),
    Field("passingScore", ZNumber([IsInt(None), AtLeast(0.0, None), AtMost(100.0, None)]), Required)
  ]

  const OptionsType := ZArray(ZString([]), [MinItems(2, Some("Minimal 2 pilihan")), MaxItems(6, Some("Maksimal 6 pilihan"))])

  const CreateQuestionSchema: Schema := [
    Field("question", ZString([MinLength(3, Some("Pertanyaan minimal 3 karakter"))]), Required),
    Field("options", OptionsType, Required),
    Field("correctAnswer", ZString([]), Required),
    Field("explanation", ZString([]), Optional),
    Field("order", Count, Required)
  ]

  // ------------------------------------------------------ reviews, progress

  const RatingType := ZNumber([IsInt(None), AtLeast(1.0, Some("Rating minimal 1")), AtMost(5.0, Some("Rating maksimal 5"))])

  const CreateReviewSchema: Schema := [
    Field("rating", RatingType, Required),
    Field("comment", ZString([]), Optional)
  ]

  const UpdateProgressSchema: Schema := [
    Field("isCompleted", ZBoolean, Optional),
    Field("timeSpent", Count, Optional),
    Field("lastPosition", Count, Optional)
  ]

  const PageType := ZNumber([IsInt(None), AtLeast(1.0, None)])
  const PageSizeType := ZNumber([IsInt(None), AtLeast(1.0, None), AtMost(100.0, None)])

  const PaginationSchema: Schema := [
    Field("page", PageType, Default(JNumber(1.0))),
    Field("pageSize", PageSizeType, Default(JNumber(10.0)))
  ]

  // ------------------------------------------------------------- properties

  predicate IsWordText(s: string)
  {
    forall i :: 0 <= i < |s| ==> InClass(s[i], WordChar)
  }

  predicate HasCharIn(s: string, k: CharClass)
  {
    exists i :: 0 <= i < |s| && InClass(s[i], k)
  }

  /** A username is 3 to 20 letters, digits and underscores. */
  lemma UsernameRule(s: string, fm: Formats)
    ensures Accepts(UsernameType, JString(s), fm) <==> 3 <= |s| <= 20 && IsWordText(s)
  {
    var c := UsernameType.stringChecks;
    assert StringCheckHolds(c[0], s, fm) <==> |s| >= 3;
    assert StringCheckHolds(c[1], s, fm) <==> |s| <= 20;
    assert StringCheckHolds(c[2], s, fm) <==> |s| > 0 && IsWordText(s);
  }

  /** A password has at least 8 characters, among them an upper-case
      letter, a lower-case letter and a digit. */
  lemma PasswordRule(s: string, fm: Formats)
    ensures Accepts(PasswordType, JString(s), fm) <==>
              |s| >= 8 && HasCharIn(s, UpperLetter) && HasCharIn(s, LowerLetter) && HasCharIn(s, DecimalDigit)
  {
    var c := PasswordType.stringChecks;
    assert StringCheckHolds(c[0], s, fm) <==> |s| >= 8;
    assert StringCheckHolds(c[1], s, fm) <==> HasCharIn(s, UpperLetter);
    assert StringCheckHolds(c[2], s, fm) <==> HasCharIn(s, LowerLetter);
    assert StringCheckHolds(c[3], s, fm) <==> HasCharIn(s, DecimalDigit);
  }

  /** A username that is too short but otherwise well formed is refused
      with the one message for the length, and the empty username with
      the length message and the character message as well. */
  lemma UsernameMessages(s: string, fm: Formats)
    requires |s| < 3 && IsWordText(s)
    ensures ParseValue(UsernameType, JString(s), fm, ["username"]) ==
              Failure([Issue(["username"], TooSmall, Some("Username minimal 3 karakter"))]
                      + (if s == [] then [Issue(["username"], InvalidString,
                                                Some("Username hanya boleh berisi huruf, angka, dan underscore"))]
                         else []))
  {
    var c := UsernameType.stringChecks;
    var p := ["username"];
    assert c[3..] == [];
    assert StringIssues(c, s, fm, p) == [Issue(p, TooSmall, c[0].message)] + StringIssues(c[1..], s, fm, p);
    assert StringIssues(c[2..], s, fm, p) ==
             (if s == [] then [Issue(p, InvalidString, c[2].message)] else []) + StringIssues(c[3..], s, fm, p);
    assert StringIssues(c[1..], s, fm, p) == StringIssues(c[2..], s, fm, p);
    var msg := if s == [] then [Issue(p, InvalidString, c[2].message)] else [];
    assert StringIssues(c, s, fm, p) == [Issue(p, TooSmall, c[0].message)] + msg;
    assert ParseValue(UsernameType, JString(s), fm, p) == Failure(StringIssues(c, s, fm, p));
  }

  /** Registration accepts a well-formed e-mail, username and password,
      and a full name that is text when sent. */
  lemma RegisterAccepts(body: map<string, Json>, fm: Formats)
    ensures ParseObject(UserRegisterSchema, JObject(body), fm).Success? <==>
              "email" in body && body["email"].JString? && fm.isEmail(body["email"].s)
              && "username" in body && body["username"].JString?
              && 3 <= |body["username"].s| <= 20 && IsWordText(body["username"].s)
              && "password" in body && Accepts(PasswordType, body["password"], fm)
              && ("fullName" in body ==> body["fullName"].JString?)
  {
    var s := UserRegisterSchema;
    FourFields(s, body, fm);
    OneCheckField(s[0], body, fm);
    if "username" in body && body["username"].JString? {
      UsernameRule(body["username"].s, fm);
    }
    assert FieldAccepts(s[1], body, fm) <==>
             ("username" in body && body["username"].JString?
              && 3 <= |body["username"].s| <= 20 && IsWordText(body["username"].s));
    assert FieldAccepts(s[2], body, fm) <==> "password" in body && Accepts(PasswordType, body["password"], fm);
  }

  /** Every string in the list, as many as two and at most six. */
  lemma OptionsRule(v: Json, fm: Formats)
    ensures Accepts(OptionsType, v, fm) <==>
              v.JArray? && 2 <= |v.items| <= 6 && forall j :: 0 <= j < |v.items| ==> v.items[j].JString?
  {
    var c := OptionsType.arrayChecks;
    if v.JArray? {
      assert ArrayCheckHolds(c[0], |v.items|) <==> |v.items| >= 2;
      assert ArrayCheckHolds(c[1], |v.items|) <==> |v.items| <= 6;
      assert forall j :: 0 <= j < |v.items| ==> (Accepts(ZString([]), v.items[j], fm) <==> v.items[j].JString?);
    }
  }

  /** A rating is one of the whole numbers 1 to 5. */
  lemma RatingRule(n: real, fm: Formats)
    ensures Accepts(RatingType, JNumber(n), fm) <==> n == 1.0 || n == 2.0 || n == 3.0 || n == 4.0 || n == 5.0
  {
    var c := RatingType.numberChecks;
    assert NumberCheckHolds(c[0], n) <==> n.Floor as real == n;
    assert NumberCheckHolds(c[1], n) <==> n >= 1.0;
    assert NumberCheckHolds(c[2], n) <==> n <= 5.0;
    if n.Floor as real == n && 1.0 <= n <= 5.0 {
      var k := n.Floor;
      assert 1 <= k <= 5;
      assert k == 1 || k == 2 || k == 3 || k == 4 || k == 5;
    }
  }

  /** A course's price is any number not below zero, and its level one of
      the three levels. */
  lemma CourseRules(v: Json, fm: Formats)
    ensures Accepts(PriceType, v, fm) <==> v.JNumber? && v.n >= 0.0
    ensures Accepts(ZEnum(DifficultyNames), v, fm) <==>
              v == JString("BEGINNER") || v == JString("INTERMEDIATE") || v == JString("ADVANCED")
  {
    if v.JNumber? {
      assert NumberCheckHolds(PriceType.numberChecks[0], v.n) <==> v.n >= 0.0;
    }
  }

  /** The empty query asks for page 1 of 10, and any other accepted query
      for a whole page of at least 1 and a whole page size from 1 to
      100. */
  lemma PaginationRules(query: map<string, Json>, fm: Formats)
    ensures ParseObject(PaginationSchema, JObject(map[]), fm) ==
              Success(map["page" := JNumber(1.0), "pageSize" := JNumber(10.0)])
    ensures ParseObject(PaginationSchema, JObject(query), fm).Success? ==>
              var out := ParseObject(PaginationSchema, JObject(query), fm).value;
              "page" in out && "pageSize" in out
              && out["page"].JNumber? && out["page"].n.Floor as real == out["page"].n && out["page"].n >= 1.0
              && out["pageSize"].JNumber? && out["pageSize"].n.Floor as real == out["pageSize"].n
              && 1.0 <= out["pageSize"].n <= 100.0
  {
    var s := PaginationSchema;
    assert Accepts(PageType, JNumber(1.0), fm) && Accepts(PageSizeType, JNumber(10.0), fm) by {
      assert NumberCheckHolds(PageType.numberChecks[0], 1.0) && NumberCheckHolds(PageType.numberChecks[1], 1.0);
      assert NumberCheckHolds(PageSizeType.numberChecks[0], 10.0);
      assert NumberCheckHolds(PageSizeType.numberChecks[1], 10.0);
      assert NumberCheckHolds(PageSizeType.numberChecks[2], 10.0);
    }
    ParseFieldAccepts(s[0], map[], fm);
    ParseFieldAccepts(s[1], map[], fm);
    assert ParseField(s[0], map[], fm) == Success(Some(JNumber(1.0)));
    assert ParseField(s[1], map[], fm) == Success(Some(JNumber(10.0)));
    assert ParseFields(s[1..], map[], fm) == Success(map["pageSize" := JNumber(10.0)]) by {
      assert s[1..][1..] == [];
      assert ParseFields(s[1..][1..], map[], fm) == Success(map[]);
    }
    assert ParseFields(s, map[], fm) == Success(map["pageSize" := JNumber(10.0)]["page" := JNumber(1.0)]);
    assert map["pageSize" := JNumber(10.0)]["page" := JNumber(1.0)] == map["page" := JNumber(1.0), "pageSize" := JNumber(10.0)];
    if ParseObject(s, JObject(query), fm).Success? {
      FieldOutput(s, query, fm, 0);
      FieldOutput(s, query, fm, 1);
      var out := ParseObject(s, JObject(query), fm).value;
      assert NumberCheckHolds(PageType.numberChecks[0], out["page"].n);
      assert NumberCheckHolds(PageType.numberChecks[1], out["page"].n);
      assert NumberCheckHolds(PageSizeType.numberChecks[0], out["pageSize"].n);
      assert NumberCheckHolds(PageSizeType.numberChecks[1], out["pageSize"].n);
      assert NumberCheckHolds(PageSizeType.numberChecks[2], out["pageSize"].n);
    }
  }

  /** A lesson sent without `isPreview` is not a preview. */
  lemma LessonPreviewDefault(body: map<string, Json>, fm: Formats)
    requires ParseObject(CreateLessonSchema, JObject(body), fm).Success?
    requires "isPreview" !in body
    ensures "isPreview" in ParseObject(CreateLessonSchema, JObject(body), fm).value
    ensures ParseObject(CreateLessonSchema, JObject(body), fm).value["isPreview"] == JBool(false)
  {
    var s := CreateLessonSchema;
    assert forall j :: 0 <= j < |s| && j != 6 ==> s[j].name != s[6].name;
    FieldOutput(s, body, fm, 6);
  }

  /** Each update schema takes the empty body, and everything its create
      schema takes. */
  lemma UpdatesWeaker(v: Json, fm: Formats)
    ensures ParseObject(UpdateCourseSchema, JObject(map[]), fm) == Success(map[])
    ensures ParseObject(UpdateModuleSchema, JObject(map[]), fm) == Success(map[])
    ensures ParseObject(UpdateLessonSchema, JObject(map[]), fm) == Success(map[])
    ensures ParseObject(CreateCourseSchema, v, fm).Success? ==> ParseObject(UpdateCourseSchema, v, fm).Success?
    ensures ParseObject(CreateModuleSchema, v, fm).Success? ==> ParseObject(UpdateModuleSchema, v, fm).Success?
    ensures ParseObject(CreateLessonSchema, v, fm).Success? ==> ParseObject(UpdateLessonSchema, v, fm).Success?
  {
    PartialAcceptsEmpty(CreateCourseSchema, fm);
    PartialAcceptsEmpty(CreateModuleSchema, fm);
    PartialAcceptsEmpty(CreateLessonSchema, fm);
    if ParseObject(CreateCourseSchema, v, fm).Success? {
      PartialWeakens(CreateCourseSchema, v, fm);
    }
    if ParseObject(CreateModuleSchema, v, fm).Success? {
      PartialWeakens(CreateModuleSchema, v, fm);
    }
    if ParseObject(CreateLessonSchema, v, fm).Success? {
      PartialWeakens(CreateLessonSchema, v, fm);
    }
  }
}
