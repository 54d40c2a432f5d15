/** The part of Zod (version 3) the request schemas use: object schemas
    over JSON values, whose fields are strings, numbers, booleans, enums,
    arrays or anything, each required, optional or defaulted; the
    `partial`, `omit` and `extend` operations on object schemas; and the
    two query-string transforms `z.string().transform(Number).pipe(...)`
    and `z.string().transform((val) => val === 'true')`.

    Parsing keeps going after a failed check and reports every issue, as
    Zod does; an issue carries the path, the kind of failure and the
    schema's own message when the schema gives one (Zod's default wording
    is not modelled). The e-mail and URL format checks are Zod's own and
    are passed in as predicates. */
module Zod {
  import opened Common
  import Decimal

  datatype Json =
    | JNull
    | JBool(b: bool)
    | JNumber(n: real)
    | JString(s: string)
    | JArray(items: seq<Json>)
    | JObject(fields: map<string, Json>)

  /** Zod's issue codes, as far as these schemas can raise them. */
  datatype IssueCode = InvalidType | TooSmall | TooBig | InvalidString | InvalidEnumValue

  datatype Issue = Issue(path: seq<string>, code: IssueCode, message: Option<string>)

  /** The format predicates Zod implements itself. */
  datatype Formats = Formats(isEmail: string -> bool, isUrl: string -> bool)

  /** The character classes of the schemas' regular expressions. */
  datatype CharClass = UpperLetter | LowerLetter | DecimalDigit | WordChar

  predicate InClass(c: char, k: CharClass)
  {
    match k
    case UpperLetter => 'A' <= c <= 'Z'
    case LowerLetter => 'a' <= c <= 'z'
    case DecimalDigit => '0' <= c <= '9'
    case WordChar => 'A' <= c <= 'Z' || 'a' <= c <= 'z' || '0' <= c <= '9' || c == '_'
  }

  /** Zod 3's cuid check, `/^c[^\s-]{8,}$/i`. */
  predicate IsCuid(s: string)
  {
    |s| >= 9 && (s[0] == 'c' || s[0] == 'C')
    && forall i :: 1 <= i < |s| ==> !Decimal.IsJsSpace(s[i]) && s[i] != '-'
  }

  /** The checks chained on `z.string()`: `.min`, `.max`, `.email`,
      `.url`, `.cuid`, and `.regex` with a pattern `^[class]+$`
      (AllIn) or `[class]` (SomeIn). */
  datatype StringCheck =
    | MinLength(n: nat, message: Option<string>)
    | MaxLength(n: nat, message: Option<string>)
    | EmailFormat(message: Option<string>)
    | UrlFormat(message: Option<string>)
    | CuidFormat(message: Option<string>)
    | AllIn(k: CharClass, message: Option<string>)
    | SomeIn(k: CharClass, message: Option<string>)

  predicate StringCheckHolds(c: StringCheck, s: string, fm: Formats)
  {
    match c
    case MinLength(n, _) => |s| >= n
    case MaxLength(n, _) => |s| <= n
    case EmailFormat(_) => fm.isEmail(s)
    case UrlFormat(_) => fm.isUrl(s)
    case CuidFormat(_) => IsCuid(s)
    case AllIn(k, _) => |s| > 0 && forall i :: 0 <= i < |s| ==> InClass(s[i], k)
    case SomeIn(k, _) => exists i :: 0 <= i < |s| && InClass(s[i], k)
  }

  function StringCheckCode(c: StringCheck): IssueCode
  {
    match c
    case MinLength(_, _) => TooSmall
    case MaxLength(_, _) => TooBig
    case _ => InvalidString
  }

  /** The checks chained on `z.number()`: `.int`, `.min`, `.max`,
      `.positive`. */
  datatype NumberCheck =
    | IsInt(message: Option<string>)
    | AtLeast(bound: real, message: Option<string>)
    | AtMost(bound: real, message: Option<string>)
    | Positive(message: Option<string>)

  predicate NumberCheckHolds(c: NumberCheck, n: real)
  {
    match c
    case IsInt(_) => n.Floor as real == n
    case AtLeast(b, _) => n >= b
    case AtMost(b, _) => n <= b
    case Positive(_) => n > 0.0
  }

  function NumberCheckCode(c: NumberCheck): IssueCode
  {
    match c
    case IsInt(_) => InvalidType
    case AtMost(_, _) => TooBig
    case _ => TooSmall
  }

  /** The checks chained on `z.array(...)`. */
  datatype ArrayCheck = MinItems(n: nat, message: Option<string>) | MaxItems(n: nat, message: Option<string>)

  predicate ArrayCheckHolds(c: ArrayCheck, len: nat)
  {
    match c
    case MinItems(n, _) => len >= n
    case MaxItems(n, _) => len <= n
  }

  datatype ZType =
    | ZString(stringChecks: seq<StringCheck>)
    | ZNumber(numberChecks: seq<NumberCheck>)
    | ZBoolean
      /** `z.enum([...])`: a string among the values. */
    | ZEnum(values: seq<string>)
      /** `z.nativeEnum(E)` over a string enum: the same values, but a
         number is refused as a value outside the enum, not as a value of
         the wrong type. */
    | ZNativeEnum(members: seq<string>)
    | ZArray(item: ZType, arrayChecks: seq<ArrayCheck>)
    | ZAny
      /** `z.string().transform(Number).pipe(z.number()...)`. */
    | ZNumericString(pipeChecks: seq<NumberCheck>)
      /** `z.string().transform((val) => val === 'true')`. */
    | ZFlagString

  /** What a field does when its key is absent: `Required` fails (except
      for `z.any()`, which takes undefined), `Optional` leaves the key
      out, `Default(v)` parses `v` in its place. */
  datatype Presence = Required | Optional | Default(value: Json)

  datatype Field = Field(name: string, ty: ZType, presence: Presence)

  /** The shape of a `z.object`, in declaration order. */
  type Schema = seq<Field>

  // ------------------------------------------------------------ acceptance

  /** The values a type accepts, stated check by check. */
  predicate Accepts(ty: ZType, v: Json, fm: Formats)
  {
    match ty
    case ZString(checks) => v.JString? && forall i :: 0 <= i < |checks| ==> StringCheckHolds(checks[i], v.s, fm)
    case ZNumber(checks) => v.JNumber? && forall i :: 0 <= i < |checks| ==> NumberCheckHolds(checks[i], v.n)
    case ZBoolean => v.JBool?
    case ZEnum(values) => v.JString? && v.s in values
    case ZNativeEnum(members) => v.JString? && v.s in members
    case ZArray(item, checks) =>
      v.JArray? && (forall i :: 0 <= i < |checks| ==> ArrayCheckHolds(checks[i], |v.items|))
      && forall j :: 0 <= j < |v.items| ==> Accepts(item, v.items[j], fm)
    case ZAny => true
    case ZNumericString(checks) =>
      v.JString? && Decimal.StringToNumber(v.s).Some?
      && forall i :: 0 <= i < |checks| ==> NumberCheckHolds(checks[i], Decimal.StringToNumber(v.s).value as real)
    case ZFlagString => v.JString?
  }

  /** What an accepted value becomes: the transforms applied, everything
      else as it came. */
  function Normal(ty: ZType, v: Json): Json
    decreases ty, 0
  {
    match ty
    case ZArray(item, _) =>
      if v.JArray? then JArray(NormalItems(item, v.items)) else v
    case ZNumericString(_) =>
      if v.JString? && Decimal.StringToNumber(v.s).Some? then JNumber(Decimal.StringToNumber(v.s).value as real) else v
    case ZFlagString => if v.JString? then JBool(v.s == "true") else v
    case _ => v
  }

  function NormalItems(item: ZType, items: seq<Json>): (r: seq<Json>)
    decreases item, |items| + 1
  {
    if items == [] then [] else [Normal(item, items[0])] + NormalItems(item, items[1..])
  }

  // --------------------------------------------------------------- parsing

  function StringIssues(checks: seq<StringCheck>, s: string, fm: Formats, path: seq<string>): (r: seq<Issue>)
    ensures r == [] <==> forall i :: 0 <= i < |checks| ==> StringCheckHolds(checks[i], s, fm)
  {
    if checks == [] then []
    else
      (if StringCheckHolds(checks[0], s, fm) then [] else [Issue(path, StringCheckCode(checks[0]), checks[0].message)])
      + StringIssues(checks[1..], s, fm, path)
  }

  function NumberIssues(checks: seq<NumberCheck>, n: real, path: seq<string>): (r: seq<Issue>)
    ensures r == [] <==> forall i :: 0 <= i < |checks| ==> NumberCheckHolds(checks[i], n)
  {
    if checks == [] then []
    else
      (if NumberCheckHolds(checks[0], n) then [] else [Issue(path, NumberCheckCode(checks[0]), checks[0].message)])
      + NumberIssues(checks[1..], n, path)
  }

  function ArrayIssues(checks: seq<ArrayCheck>, len: nat, path: seq<string>): (r: seq<Issue>)
    ensures r == [] <==> forall i :: 0 <= i < |checks| ==> ArrayCheckHolds(checks[i], len)
  {
    if checks == [] then []
    else
      (if ArrayCheckHolds(checks[0], len) then [] else [Issue(path, if checks[0].MinItems? then TooSmall else TooBig, checks[0].message)])
      + ArrayIssues(checks[1..], len, path)
  }

  function Issues<T>(o: Outcome<T, seq<Issue>>): seq<Issue>
  {
    if o.Failure? then o.error else []
  }

  function TypeIssue<T>(path: seq<string>): Outcome<T, seq<Issue>>
  {
    Failure([Issue(path, InvalidType, None)])
  }

  /** `schema.parse` of one value at `path`. */
  function ParseValue(ty: ZType, v: Json, fm: Formats, path: seq<string>): (r: Outcome<Json, seq<Issue>>)
    ensures r.Failure? ==> r.error != []
    decreases ty, 1
  {
    match ty
    case ZString(checks) => ParseText(checks, v, fm, path)
    case ZNumber(checks) => ParseNumber(checks, v, path)
    case ZBoolean =>
      if v.JBool? then Success(v) else TypeIssue(path)
    case ZEnum(values) =>
      if !v.JString? then TypeIssue(path)
      else if v.s in values then Success(v)
      else Failure([Issue(path, InvalidEnumValue, None)])
    case ZNativeEnum(members) =>
      if !v.JString? && !v.JNumber? then TypeIssue(path)
      else if v.JString? && v.s in members then Success(v)
      else Failure([Issue(path, InvalidEnumValue, None)])
    case ZArray(item, checks) => ParseArray(item, checks, v, fm, path)
    case ZAny => Success(v)
    case ZNumericString(checks) => ParseNumeric(checks, v, path)
    case ZFlagString =>
      if v.JString? then Success(JBool(v.s == "true")) else TypeIssue(path)
  }

  /** A string that must meet the checks. */
  function ParseText(checks: seq<StringCheck>, v: Json, fm: Formats, path: seq<string>): (r: Outcome<Json, seq<Issue>>)
    ensures r.Failure? ==> r.error != []
  {
    if !v.JString? then TypeIssue(path)
    else
      var issues := StringIssues(checks, v.s, fm, path);
      if issues == [] then Success(v) else Failure(issues)
  }

  /** A number that must meet the checks. */
  function ParseNumber(checks: seq<NumberCheck>, v: Json, path: seq<string>): (r: Outcome<Json, seq<Issue>>)
    ensures r.Failure? ==> r.error != []
  {
    if !v.JNumber? then TypeIssue(path)
    else
      var issues := NumberIssues(checks, v.n, path);
      if issues == [] then Success(v) else Failure(issues)
  }

  /** An array whose length meets the checks and whose elements all parse. */
  function ParseArray(item: ZType, checks: seq<ArrayCheck>, v: Json, fm: Formats, path: seq<string>): (r: Outcome<Json, seq<Issue>>)
    ensures r.Failure? ==> r.error != []
    decreases ZArray(item, checks), 0
  {
    if !v.JArray? then TypeIssue(path)
    else
      var lengthIssues := ArrayIssues(checks, |v.items|, path);
      var items := ParseItems(item, v.items, fm, path, 0);
      if lengthIssues == [] && items.Success? then Success(JArray(items.value))
      else Failure(lengthIssues + Issues(items))
  }

  /** A text that must read as a number, which then meets the checks. */
  function ParseNumeric(checks: seq<NumberCheck>, v: Json, path: seq<string>): (r: Outcome<Json, seq<Issue>>)
    ensures r.Failure? ==> r.error != []
  {
    if !v.JString? then TypeIssue(path) else ParseNumberText(checks, Decimal.StringToNumber(v.s), path)
  }

  /** The number a text read as, if any, checked. */
  function ParseNumberText(checks: seq<NumberCheck>, read: Option<int>, path: seq<string>): (r: Outcome<Json, seq<Issue>>)
    ensures r.Failure? ==> r.error != []
  {
    match read
    case None => TypeIssue(path)
    case Some(n) =>
      var issues := NumberIssues(checks, n as real, path);
      if issues == [] then Success(JNumber(n as real)) else Failure(issues)
  }

  /** The elements of an array, from index `start` on, each at its own
      path. */
  function ParseItems(item: ZType, items: seq<Json>, fm: Formats, path: seq<string>, start: nat): (r: Outcome<seq<Json>, seq<Issue>>)
    ensures r.Failure? ==> r.error != []
    decreases item, |items| + 1
  {
    if items == [] then Success([])
    else
      var head := ParseValue(item, items[0], fm, path + [Decimal.NatToString(start)]);
      var rest := ParseItems(item, items[1..], fm, path, start + 1);
      if head.Success? && rest.Success? then Success([head.value] + rest.value)
      else Failure(Issues(head) + Issues(rest))
  }

  /** A value parses exactly when the type accepts it, and parses to its
      normal form. */
  lemma {:induction false} ParseValueAccepts(ty: ZType, v: Json, fm: Formats, path: seq<string>)
    ensures ParseValue(ty, v, fm, path).Success? <==> Accepts(ty, v, fm)
    ensures ParseValue(ty, v, fm, path).Success? ==> ParseValue(ty, v, fm, path).value == Normal(ty, v)
    decreases ty, 0
  {
    match ty
    case ZArray(item, checks) =>
      if v.JArray? {
        ParseItemsAccepts(item, v.items, fm, path, 0);
      }
    case ZString(checks) => ParseStringAccepts(checks, v, fm, path);
    case ZNumber(checks) => ParseNumberAccepts(checks, v, fm, path);
    case ZNumericString(checks) => ParseNumericAccepts(checks, v, fm, path);
    case _ =>
  }

  /** `z.enum` and `z.nativeEnum` over the same values accept the same
      values and agree on every refusal except a number, which the first
      refuses as the wrong type and the second as a value outside the
      enum; a value neither string nor number is the wrong type for both. */
  lemma EnumKindsDiffer(values: seq<string>, v: Json, fm: Formats, path: seq<string>)
    ensures Accepts(ZEnum(values), v, fm) <==> Accepts(ZNativeEnum(values), v, fm)
    ensures v.JNumber? ==>
              ParseValue(ZEnum(values), v, fm, path) == Failure([Issue(path, InvalidType, None)])
              && ParseValue(ZNativeEnum(values), v, fm, path) == Failure([Issue(path, InvalidEnumValue, None)])
    ensures !v.JNumber? ==> ParseValue(ZEnum(values), v, fm, path) == ParseValue(ZNativeEnum(values), v, fm, path)
    ensures !v.JString? && !v.JNumber? ==>
              ParseValue(ZNativeEnum(values), v, fm, path) == Failure([Issue(path, InvalidType, None)])
  {
  }

  lemma ParseStringAccepts(checks: seq<StringCheck>, v: Json, fm: Formats, path: seq<string>)
    ensures ParseValue(ZString(checks), v, fm, path).Success? <==> Accepts(ZString(checks), v, fm)
    ensures ParseValue(ZString(checks), v, fm, path).Success? ==> ParseValue(ZString(checks), v, fm, path).value == v
  {
  }

  lemma ParseNumberAccepts(checks: seq<NumberCheck>, v: Json, fm: Formats, path: seq<string>)
    ensures ParseValue(ZNumber(checks), v, fm, path).Success? <==> Accepts(ZNumber(checks), v, fm)
    ensures ParseValue(ZNumber(checks), v, fm, path).Success? ==> ParseValue(ZNumber(checks), v, fm, path).value == v
  {
  }

  lemma ParseNumericAccepts(checks: seq<NumberCheck>, v: Json, fm: Formats, path: seq<string>)
    ensures ParseValue(ZNumericString(checks), v, fm, path).Success? <==> Accepts(ZNumericString(checks), v, fm)
    ensures ParseValue(ZNumericString(checks), v, fm, path).Success? ==>
              ParseValue(ZNumericString(checks), v, fm, path).value == Normal(ZNumericString(checks), v)
  {
    ParseValueNumeric(checks, v, fm, path);
    NumericMeaning(checks, v, fm, path);
  }

  lemma ParseValueNumeric(checks: seq<NumberCheck>, v: Json, fm: Formats, path: seq<string>)
    ensures ParseValue(ZNumericString(checks), v, fm, path).Success? == ParseNumeric(checks, v, path).Success?
    ensures ParseValue(ZNumericString(checks), v, fm, path).Success? ==>
              ParseValue(ZNumericString(checks), v, fm, path).value == ParseNumeric(checks, v, path).value
  {
  }

  lemma NumericMeaning(checks: seq<NumberCheck>, v: Json, fm: Formats, path: seq<string>)
    ensures ParseNumeric(checks, v, path).Success? <==> Accepts(ZNumericString(checks), v, fm)
    ensures ParseNumeric(checks, v, path).Success? ==> ParseNumeric(checks, v, path).value == Normal(ZNumericString(checks), v)
  {
    if v.JString? && Decimal.StringToNumber(v.s).Some? {
      var n := Decimal.StringToNumber(v.s).value;
      assert NumberIssues(checks, n as real, path) == [] <==>
             forall i :: 0 <= i < |checks| ==> NumberCheckHolds(checks[i], n as real);
    }
  }

  lemma {:induction false} ParseItemsAccepts(item: ZType, items: seq<Json>, fm: Formats, path: seq<string>, start: nat)
    ensures ParseItems(item, items, fm, path, start).Success? <==> forall j :: 0 <= j < |items| ==> Accepts(item, items[j], fm)
    ensures ParseItems(item, items, fm, path, start).Success? ==> ParseItems(item, items, fm, path, start).value == NormalItems(item, items)
    decreases item, |items| + 1
  {
    if items != [] {
      ParseValueAccepts(item, items[0], fm, path + [Decimal.NatToString(start)]);
      ParseItemsAccepts(item, items[1..], fm, path, start + 1);
      AcceptsEach(item, items, fm);
    }
  }

  lemma AcceptsEach(item: ZType, items: seq<Json>, fm: Formats)
    requires items != []
    ensures (forall j :: 0 <= j < |items| ==> Accepts(item, items[j], fm)) <==>
              Accepts(item, items[0], fm) && forall j :: 0 <= j < |items[1..]| ==> Accepts(item, items[1..][j], fm)
  {
    EverySplit(x => Accepts(item, x, fm), items);
  }

  lemma EverySplit<T>(p: T -> bool, s: seq<T>)
    requires s != []
    ensures (forall j :: 0 <= j < |s| ==> p(s[j])) <==> p(s[0]) && forall j :: 0 <= j < |s[1..]| ==> p(s[1..][j])
  {
    if p(s[0]) && forall j :: 0 <= j < |s[1..]| ==> p(s[1..][j]) {
      forall j | 0 <= j < |s|
        ensures p(s[j])
      {
        if j > 0 {
          assert s[j] == s[1..][j - 1];
        }
      }
    }
  }

  // --------------------------------------------------------------- objects

  /** A field accepts an input object, stated directly. */
  predicate FieldAccepts(f: Field, input: map<string, Json>, fm: Formats)
  {
    if f.name in input then Accepts(f.ty, input[f.name], fm)
    else match f.presence
      case Required => f.ty.ZAny?
      case Optional => true
      case Default(d) => Accepts(f.ty, d, fm)
  }

  /** A required string field with one check. */
  lemma OneCheckField(f: Field, input: map<string, Json>, fm: Formats)
    requires f.presence == Required && f.ty.ZString? && |f.ty.stringChecks| == 1
    ensures FieldAccepts(f, input, fm) <==>
              f.name in input && input[f.name].JString? && StringCheckHolds(f.ty.stringChecks[0], input[f.name].s, fm)
  {
  }

  /** One key of `z.object`: the parsed value, or None when the key is
      left out of the result. */
  function ParseField(f: Field, input: map<string, Json>, fm: Formats): (r: Outcome<Option<Json>, seq<Issue>>)
    ensures r.Failure? ==> r.error != []
  {
    var parsed :=
      if f.name in input then ParseValue(f.ty, input[f.name], fm, [f.name])
      else match f.presence
        case Required => if f.ty.ZAny? then Success(JNull) else TypeIssue([f.name])
        case Optional => Success(JNull)
        case Default(d) => ParseValue(f.ty, d, fm, [f.name]);
    if parsed.Failure? then Failure(parsed.error)
    else if f.name !in input && !f.presence.Default? then Success(None)
    else Success(Some(parsed.value))
  }

  function ParseFields(fs: Schema, input: map<string, Json>, fm: Formats): (r: Outcome<map<string, Json>, seq<Issue>>)
    ensures r.Failure? ==> r.error != []
  {
    if fs == [] then Success(map[])
    else
      var head := ParseField(fs[0], input, fm);
      var rest := ParseFields(fs[1..], input, fm);
      if head.Success? && rest.Success? then
        Success(if head.value.Some? then rest.value[fs[0].name := head.value.value] else rest.value)
      else Failure(Issues(head) + Issues(rest))
  }

  /** `objectSchema.parse(v)`: keys the shape does not name are dropped. */
  function ParseObject(schema: Schema, v: Json, fm: Formats): (r: Outcome<map<string, Json>, seq<Issue>>)
    ensures r.Success? ==> v.JObject? && r.value.Keys <= Names(schema)
    ensures r.Failure? ==> r.error != []
  {
    if v.JObject? then
      var parsed := ParseFields(schema, v.fields, fm);
      if parsed.Success? then ParseFieldsKeys(schema, v.fields, fm); parsed else parsed
    else TypeIssue([])
  }

  /** An object passes its schema exactly when every field of the shape
      accepts it. */
  lemma ParseObjectAccepts(schema: Schema, v: Json, fm: Formats)
    ensures ParseObject(schema, v, fm).Success? <==>
              v.JObject? && forall i :: 0 <= i < |schema| ==> FieldAccepts(schema[i], v.fields, fm)
  {
    if v.JObject? {
      ParseFieldsAccepts(schema, v.fields, fm);
    }
  }

  lemma ParseFieldAccepts(f: Field, input: map<string, Json>, fm: Formats)
    ensures ParseField(f, input, fm).Success? <==> FieldAccepts(f, input, fm)
    ensures f.name in input && ParseField(f, input, fm).Success? ==>
              ParseField(f, input, fm).value == Some(Normal(f.ty, input[f.name]))
    ensures f.name !in input && ParseField(f, input, fm).Success? ==>
              ParseField(f, input, fm).value == if f.presence.Default? then Some(Normal(f.ty, f.presence.value)) else None
  {
    if f.name in input {
      ParseValueAccepts(f.ty, input[f.name], fm, [f.name]);
    } else if f.presence.Default? {
      ParseValueAccepts(f.ty, f.presence.value, fm, [f.name]);
    }
  }

  /** An object parses exactly when every field accepts it. */
  lemma {:induction false} ParseFieldsAccepts(fs: Schema, input: map<string, Json>, fm: Formats)
    ensures ParseFields(fs, input, fm).Success? <==> forall i :: 0 <= i < |fs| ==> FieldAccepts(fs[i], input, fm)
  {
    if fs != [] {
      ParseFieldAccepts(fs[0], input, fm);
      ParseFieldsAccepts(fs[1..], input, fm);
      assert forall i :: 1 <= i < |fs| ==> fs[i] == fs[1..][i - 1];
    }
  }

  /** An object of four fields is accepted when each of them is. */
  lemma FourFields(fs: Schema, input: map<string, Json>, fm: Formats)
    requires |fs| == 4
    ensures ParseObject(fs, JObject(input), fm).Success? <==>
              FieldAccepts(fs[0], input, fm) && FieldAccepts(fs[1], input, fm)
              && FieldAccepts(fs[2], input, fm) && FieldAccepts(fs[3], input, fm)
  {
    ParseFieldsAccepts(fs, input, fm);
    if FieldAccepts(fs[0], input, fm) && FieldAccepts(fs[1], input, fm)
       && FieldAccepts(fs[2], input, fm) && FieldAccepts(fs[3], input, fm) {
      forall i | 0 <= i < |fs|
        ensures FieldAccepts(fs[i], input, fm)
      {
        assert i == 0 || i == 1 || i == 2 || i == 3;
      }
    }
  }

  function Names(fs: Schema): (r: set<string>)
    ensures forall i :: 0 <= i < |fs| ==> fs[i].name in r
    ensures forall n :: n in r ==> exists i :: 0 <= i < |fs| && fs[i].name == n
  {
    if fs == [] then {}
    else
      var rest := Names(fs[1..]);
      assert forall n :: n in rest ==> exists i :: 1 <= i < |fs| && fs[i].name == n by {
        forall n | n in rest
          ensures exists i :: 1 <= i < |fs| && fs[i].name == n
        {
          var i :| 0 <= i < |fs[1..]| && fs[1..][i].name == n;
          assert fs[i + 1].name == n;
        }
      }
      {fs[0].name} + rest
  }

  predicate DistinctNames(fs: Schema)
  {
    forall i, j :: 0 <= i < j < |fs| ==> fs[i].name != fs[j].name
  }

  /** A parsed object holds only keys of the shape (unknown keys are
      stripped), holds every key the input gave or a default filled in,
      and lacks every absent key that has no default. */
  lemma ParseFieldsOutput(fs: Schema, input: map<string, Json>, fm: Formats)
    requires DistinctNames(fs)
    requires ParseFields(fs, input, fm).Success?
    ensures ParseFields(fs, input, fm).value.Keys <= Names(fs)
    ensures forall i :: 0 <= i < |fs| && (fs[i].name in input || fs[i].presence.Default?) ==>
              fs[i].name in ParseFields(fs, input, fm).value
    ensures forall i :: 0 <= i < |fs| && fs[i].name in input ==>
              ParseFields(fs, input, fm).value[fs[i].name] == Normal(fs[i].ty, input[fs[i].name])
    ensures forall i :: 0 <= i < |fs| && fs[i].name !in input && fs[i].presence.Default? ==>
              ParseFields(fs, input, fm).value[fs[i].name] == Normal(fs[i].ty, fs[i].presence.value)
    ensures forall i :: 0 <= i < |fs| && fs[i].name !in input && !fs[i].presence.Default? ==>
              fs[i].name !in ParseFields(fs, input, fm).value
  {
    ParseFieldsKeys(fs, input, fm);
    var out := ParseFields(fs, input, fm).value;
    forall i | 0 <= i < |fs|
      ensures (fs[i].name in input || fs[i].presence.Default?) ==> fs[i].name in out
      ensures fs[i].name in input ==> out[fs[i].name] == Normal(fs[i].ty, input[fs[i].name])
      ensures fs[i].name !in input && fs[i].presence.Default? ==> out[fs[i].name] == Normal(fs[i].ty, fs[i].presence.value)
      ensures fs[i].name !in input && !fs[i].presence.Default? ==> fs[i].name !in out
    {
      FieldOutput(fs, input, fm, i);
    }
  }

  /** A parsed object holds only keys the shape names. */
  lemma {:induction false} ParseFieldsKeys(fs: Schema, input: map<string, Json>, fm: Formats)
    requires ParseFields(fs, input, fm).Success?
    ensures ParseFields(fs, input, fm).value.Keys <= Names(fs)
  {
    if fs != [] {
      ParseFieldsKeys(fs[1..], input, fm);
    }
  }

  /** An optional flag field of a parsed object: text sent becomes true
      exactly for "true", and nothing sent leaves the key out. */
  lemma FlagFieldOutput(fs: Schema, input: map<string, Json>, fm: Formats, i: nat)
    requires i < |fs| && forall j :: 0 <= j < |fs| && j != i ==> fs[j].name != fs[i].name
    requires fs[i].ty == ZFlagString && fs[i].presence == Optional
    requires ParseFields(fs, input, fm).Success?
    ensures var key := fs[i].name;
            var out := ParseFields(fs, input, fm).value;
            (key in input ==> input[key].JString? && key in out && out[key] == JBool(input[key].s == "true"))
            && (key !in input ==> key !in out)
  {
    FieldOutput(fs, input, fm, i);
  }

  /** The result of parsing at one field of the shape whose name no other
      field shares. */
  lemma {:induction false} FieldOutput(fs: Schema, input: map<string, Json>, fm: Formats, i: nat)
    requires i < |fs| && forall j :: 0 <= j < |fs| && j != i ==> fs[j].name != fs[i].name
    requires ParseFields(fs, input, fm).Success?
    ensures FieldAccepts(fs[i], input, fm)
    ensures fs[i].name in input ==>
              fs[i].name in ParseFields(fs, input, fm).value
              && ParseFields(fs, input, fm).value[fs[i].name] == Normal(fs[i].ty, input[fs[i].name])
    ensures fs[i].name !in input && fs[i].presence.Default? ==>
              fs[i].name in ParseFields(fs, input, fm).value
              && ParseFields(fs, input, fm).value[fs[i].name] == Normal(fs[i].ty, fs[i].presence.value)
    ensures fs[i].name !in input && !fs[i].presence.Default? ==> fs[i].name !in ParseFields(fs, input, fm).value
  {
    ParseFieldAccepts(fs[0], input, fm);
    if i == 0 {
      ParseFieldsKeys(fs[1..], input, fm);
      assert forall k :: 0 <= k < |fs[1..]| ==> fs[1..][k] == fs[k + 1];
    } else {
      forall j | 0 <= j < |fs[1..]| && j != i - 1
        ensures fs[1..][j].name != fs[1..][i - 1].name
      {
        assert fs[1..][j] == fs[j + 1];
      }
      FieldOutput(fs[1..], input, fm, i - 1);
      assert fs[1..][i - 1] == fs[i];
    }
  }

  /** Parsing against two shapes in sequence parses against each; a key
      both name takes the first shape's value. */
  lemma {:induction false} ParseFieldsAppend(a: Schema, b: Schema, input: map<string, Json>, fm: Formats)
    ensures ParseFields(a + b, input, fm).Success? <==>
              ParseFields(a, input, fm).Success? && ParseFields(b, input, fm).Success?
    ensures ParseFields(a + b, input, fm).Success? ==>
              ParseFields(a + b, input, fm).value == ParseFields(b, input, fm).value + ParseFields(a, input, fm).value
  {
    if a == [] {
      assert [] + b == b;
    } else {
      assert (a + b)[1..] == a[1..] + b;
      ParseFieldsAppend(a[1..], b, input, fm);
    }
  }

  // ----------------------------------------------------- schema operations

  /** `.partial()`: every field optional. An optional wrapper answers an
      absent key before an inner default is reached, so defaults are
      dropped too. */
  function Partial(s: Schema): (r: Schema)
    ensures |r| == |s|
    ensures forall i :: 0 <= i < |s| ==> r[i] == s[i].(presence := Optional)
  {
    if s == [] then [] else [s[0].(presence := Optional)] + Partial(s[1..])
  }

  /** `.omit({ name: true })`. */
  function Omit(s: Schema, name: string): (r: Schema)
    ensures forall f :: f in r <==> f in s && f.name != name
    ensures |r| <= |s|
  {
    if s == [] then []
    else if s[0].name == name then Omit(s[1..], name)
    else [s[0]] + Omit(s[1..], name)
  }

  /** `.extend({ f })` for one field: a field of the same name is replaced
      where it stands, otherwise the field is added at the end. */
  function ExtendWith(s: Schema, f: Field): Schema
  {
    if s == [] then [f]
    else if s[0].name == f.name then [f] + s[1..]
    else [s[0]] + ExtendWith(s[1..], f)
  }

  /** The extended shape holds the new field, only fields it already had
      besides, and every field of another name. */
  lemma {:induction false} ExtendWithMembers(s: Schema, f: Field)
    ensures f in ExtendWith(s, f)
    ensures forall g :: g in ExtendWith(s, f) ==> g == f || g in s
    ensures forall g :: g in s && g.name != f.name ==> g in ExtendWith(s, f)
  {
    if s != [] && s[0].name != f.name {
      ExtendWithMembers(s[1..], f);
      assert s == [s[0]] + s[1..];
    }
  }

  /** `.extend({ ... })` with several fields, in order. */
  function Extend(s: Schema, fs: Schema): Schema
    decreases |fs|
  {
    if fs == [] then s else Extend(ExtendWith(s, fs[0]), fs[1..])
  }

  /** No field of fs shares its name with a field of s. */
  predicate FreshFrom(fs: Schema, s: Schema)
  {
    forall i, j :: 0 <= i < |fs| && 0 <= j < |s| ==> fs[i].name != s[j].name
  }

  /** Extending with a field whose name is new appends it. */
  lemma {:induction false} ExtendWithFresh(s: Schema, f: Field)
    requires forall j :: 0 <= j < |s| ==> s[j].name != f.name
    ensures ExtendWith(s, f) == s + [f]
  {
    if s != [] {
      assert forall j :: 0 <= j < |s| - 1 ==> s[1..][j] == s[j + 1];
      ExtendWithFresh(s[1..], f);
      assert s == [s[0]] + s[1..];
    }
  }

  /** Extending with fields whose names are new and distinct appends them
      in order. */
  lemma {:induction false} ExtendFresh(s: Schema, fs: Schema)
    requires DistinctNames(fs) && FreshFrom(fs, s)
    ensures Extend(s, fs) == s + fs
    decreases |fs|
  {
    if fs != [] {
      ExtendWithFresh(s, fs[0]);
      FreshAfterFirst(s, fs);
      ExtendFresh(s + [fs[0]], fs[1..]);
      assert fs == [fs[0]] + fs[1..];
    }
  }

  lemma FreshAfterFirst(s: Schema, fs: Schema)
    requires fs != [] && DistinctNames(fs) && FreshFrom(fs, s)
    ensures DistinctNames(fs[1..]) && FreshFrom(fs[1..], s + [fs[0]])
  {
    forall i, j | 0 <= i < |fs| - 1 && 0 <= j < |s| + 1
      ensures fs[1..][i].name != (s + [fs[0]])[j].name
    {
      assert fs[1..][i] == fs[i + 1];
      if j < |s| {
        assert (s + [fs[0]])[j] == s[j];
      } else {
        assert (s + [fs[0]])[j] == fs[0];
      }
    }
    forall i, j | 0 <= i < j < |fs| - 1
      ensures fs[1..][i].name != fs[1..][j].name
    {
      assert fs[1..][i] == fs[i + 1] && fs[1..][j] == fs[j + 1];
    }
  }

  /** An optional field whose key is absent changes nothing when appended
      to a shape. */
  lemma {:induction false} AppendAbsentOptional(s: Schema, f: Field, input: map<string, Json>, fm: Formats)
    requires f.presence == Optional && f.name !in input
    ensures ParseFields(s + [f], input, fm) == ParseFields(s, input, fm)
  {
    if s == [] {
      assert ParseFields([f][1..], input, fm) == Success(map[]);
    } else {
      assert (s + [f])[1..] == s[1..] + [f];
      AppendAbsentOptional(s[1..], f, input, fm);
    }
  }

  /** A partial schema accepts the empty object and gives it back empty. */
  lemma {:induction false} PartialAcceptsEmpty(s: Schema, fm: Formats)
    ensures ParseObject(Partial(s), JObject(map[]), fm) == Success(map[])
  {
    if s != [] {
      PartialAcceptsEmpty(s[1..], fm);
      assert Partial(s)[1..] == Partial(s[1..]);
    }
  }

  /** Whatever a schema accepts, its partial form accepts too. */
  lemma PartialWeakens(s: Schema, v: Json, fm: Formats)
    requires ParseObject(s, v, fm).Success?
    ensures ParseObject(Partial(s), v, fm).Success?
  {
    var input := v.fields;
    ParseFieldsAccepts(s, input, fm);
    ParseFieldsAccepts(Partial(s), input, fm);
    forall i | 0 <= i < |s|
      ensures FieldAccepts(Partial(s)[i], input, fm)
    {
      assert FieldAccepts(s[i], input, fm);
    }
  }

  /** An omitted key is never in the result, even when the input has it. */
  lemma OmittedKeyStripped(s: Schema, name: string, v: Json, fm: Formats)
    requires DistinctNames(s)
    requires ParseObject(Omit(s, name), v, fm).Success?
    ensures name !in ParseObject(Omit(s, name), v, fm).value
  {
    var o := Omit(s, name);
    OmitDistinct(s, name);
    ParseFieldsKeys(o, v.fields, fm);
    assert name !in Names(o) by {
      forall i | 0 <= i < |o|
        ensures o[i].name != name
      {
        assert o[i] in o;
      }
    }
  }

  /** Omitting a field keeps the names distinct. */
  lemma {:induction false} OmitDistinct(s: Schema, name: string)
    requires DistinctNames(s)
    ensures DistinctNames(Omit(s, name))
  {
    if s != [] {
      assert DistinctNames(s[1..]);
      OmitDistinct(s[1..], name);
      if s[0].name != name {
        var r := Omit(s[1..], name);
        forall g | g in r
          ensures g.name != s[0].name
        {
          var k :| 0 <= k < |s[1..]| && s[1..][k] == g;
          assert s[k + 1] == g;
        }
        ConsDistinct(s[0], r);
      }
    }
  }

  lemma ConsDistinct(f: Field, r: Schema)
    requires DistinctNames(r) && forall g :: g in r ==> g.name != f.name
    ensures DistinctNames([f] + r)
  {
    var o := [f] + r;
    forall i, j | 0 <= i < j < |o|
      ensures o[i].name != o[j].name
    {
      if i == 0 {
        assert o[j] == r[j - 1] && r[j - 1] in r;
      } else {
        assert o[i] == r[i - 1] && o[j] == r[j - 1];
      }
    }
  }
}
