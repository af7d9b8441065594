/**
 * The zod object schemas of the Meet.bot API, as data: each schema is a list
 * of fields, each field a key, a check and whether it is optional.  A value
 * is accepted when it is an object and every declared field passes its
 * check; undeclared keys are ignored on input and stripped from the parsed
 * output, as `z.object` does by default.
 */
module Schemas {
  import opened Wrappers
  import opened Js

  /**
   * The parts of zod the model does not reimplement: the `url()`, `email()`
   * and `datetime()` string checks, and the text of a `ZodError`.
   */
  datatype Zod = Zod(
    isUrl: string -> bool,
    isEmail: string -> bool,
    isDatetime: string -> bool,
    message: seq<Issue> -> string)

  /** One problem found by a parse: the input is not an object, or a field fails. */
  datatype Issue = NotAnObject | InvalidField(key: string)

  datatype Check =
    | AnyString          // z.string()
    | Url                // z.string().url()
    | Email              // z.string().email()
    | Datetime           // z.string().datetime()
    | NonEmptyString     // z.string().min(1)
    | PositiveInt        // z.number().int().positive()
    | NonNegativeInt     // z.number().int().nonnegative()
    | Boolean            // z.boolean()
    | DateString         // z.string().regex(/^\d{4}-\d{2}-\d{2}$/)
    | FalseLiteral       // z.literal(false)
    | ArrayOf(item: Shape)  // z.array(z.object(...))
    | StringArrayRecord  // z.record(z.array(z.string()))

  datatype Field = Field(key: string, check: Check, optional: bool)

  /** The field list of one `z.object`. */
  datatype Shape = Shape(fields: seq<Field>)

  datatype Schema =
    | BookSlotSchema
    | PageInfoSchema
    | SchedulingPageSchema
    | PagesSchema
    | SlotDetailsSchema
    | SlotsSchema
    | BookSlotRequestSchema
    | GetSlotsParamsSchema
    | GetInfoParamsSchema
    | ApiErrorSchema
    | MeetbotConfigSchema

  function Req(key: string, check: Check): Field { Field(key, check, false) }
  function Opt(key: string, check: Check): Field { Field(key, check, true) }

  // The declarations of src/schemas.ts, field by field.

  const BookSlotShape := Shape([
    Req("success", Boolean), Req("page", Url), Req("guest_email", Email),
    Req("guest_name", NonEmptyString), Opt("notes", AnyString),
    Req("start", Datetime), Req("ical_uid", AnyString)])
  const PageInfoShape := Shape([
    Req("title", AnyString), Req("duration", PositiveInt), Req("url", Url),
    Req("owner_name", AnyString), Req("max_days_into_the_future", PositiveInt)])
  const SchedulingPageShape := Shape([
    Req("title", AnyString), Req("duration", PositiveInt), Req("url", Url)])
  const PagesShape := Shape([
    Req("email", Email), Req("pages", ArrayOf(SchedulingPageShape))])
  const SlotDetailsShape := Shape([
    Req("start", Datetime), Opt("url", Url)])
  const SlotsShape := Shape([
    Req("count", NonNegativeInt), Req("duration", PositiveInt),
    Req("slots", ArrayOf(SlotDetailsShape))])
  const BookSlotRequestShape := Shape([
    Req("page", Url), Req("guest_email", Email), Req("guest_name", NonEmptyString),
    Opt("notes", AnyString), Req("start", Datetime)])
  const GetSlotsParamsShape := Shape([
    Req("page", Url), Opt("count", PositiveInt), Opt("start", DateString),
    Opt("end", DateString), Opt("timezone", NonEmptyString), Opt("booking_link", Boolean)])
  const GetInfoParamsShape := Shape([Req("page", Url)])
  const ApiErrorShape := Shape([
    Req("success", FalseLiteral), Req("error", AnyString), Opt("errors", StringArrayRecord)])
  const MeetbotConfigShape := Shape([Opt("authToken", AnyString)])

  /**
   * The shape of each schema.  Every declaration has distinct keys, and only
   * `Pages` and `Slots` nest objects (so only they are not flat).
   */
  function ShapeOf(s: Schema): (r: Shape)
    ensures forall i, j :: 0 <= i < j < |r.fields| ==> r.fields[i].key != r.fields[j].key
    ensures Flat(r) <==> !(s == PagesSchema || s == SlotsSchema)
  {
    match s
    case BookSlotSchema => BookSlotShape
    case PageInfoSchema => PageInfoShape
    case SchedulingPageSchema => SchedulingPageShape
    case PagesSchema => assert PagesShape.fields[1].check.ArrayOf?; PagesShape
    case SlotDetailsSchema => SlotDetailsShape
    case SlotsSchema => assert SlotsShape.fields[2].check.ArrayOf?; SlotsShape
    case BookSlotRequestSchema => BookSlotRequestShape
    case GetSlotsParamsSchema => GetSlotsParamsShape
    case GetInfoParamsSchema => GetInfoParamsShape
    case ApiErrorSchema => ApiErrorShape
    case MeetbotConfigSchema => MeetbotConfigShape
  }

  // ---------------------------------------------------------------- the regex

  /** One element of a regular expression made of single-character atoms. */
  datatype Atom = Digit | Literal(c: char)

  /** `\d{4}-\d{2}-\d{2}`; `\d` without the `u` flag is the ASCII digits. */
  const DatePattern: seq<Atom> :=
    [Digit, Digit, Digit, Digit, Literal('-'), Digit, Digit, Literal('-'), Digit, Digit]

  predicate IsDigit(c: char) { '0' <= c <= '9' }

  predicate AtomMatches(a: Atom, c: char)
  {
    match a
    case Digit => IsDigit(c)
    case Literal(x) => c == x
  }

  /** An anchored match, `^p$`: the pattern consumes the whole string. */
  predicate FullMatch(p: seq<Atom>, s: string)
    decreases |p|
  {
    if p == [] then s == []
    else s != [] && AtomMatches(p[0], s[0]) && FullMatch(p[1..], s[1..])
  }

  /** An anchored pattern of single-character atoms matches position by position. */
  lemma {:induction false} FullMatchPositionwise(p: seq<Atom>, s: string)
    ensures FullMatch(p, s) <==> |s| == |p| && forall i :: 0 <= i < |p| ==> AtomMatches(p[i], s[i])
    decreases |p|
  {
    if p != [] && s != [] {
      FullMatchPositionwise(p[1..], s[1..]);
      if |s| == |p| && forall i :: 0 <= i < |p| ==> AtomMatches(p[i], s[i]) {
        forall i | 0 <= i < |p| - 1 ensures AtomMatches(p[1..][i], s[1..][i]) {
          assert AtomMatches(p[i + 1], s[i + 1]);
        }
      }
      if FullMatch(p, s) {
        forall i | 0 <= i < |p| ensures AtomMatches(p[i], s[i]) {
          if i > 0 { assert AtomMatches(p[1..][i - 1], s[1..][i - 1]); }
        }
      }
    }
  }

  /** The date shape written out: four digits, '-', two digits, '-', two digits. */
  predicate IsDateShape(s: string)
  {
    && |s| == 10
    && IsDigit(s[0]) && IsDigit(s[1]) && IsDigit(s[2]) && IsDigit(s[3])
    && s[4] == '-'
    && IsDigit(s[5]) && IsDigit(s[6])
    && s[7] == '-'
    && IsDigit(s[8]) && IsDigit(s[9])
  }

  /** The date regex accepts exactly the date shape; it checks no month or day range. */
  lemma DatePatternIsDateShape(s: string)
    ensures FullMatch(DatePattern, s) <==> IsDateShape(s)
  {
    FullMatchPositionwise(DatePattern, s);
    if IsDateShape(s) {
      forall i | 0 <= i < |DatePattern| ensures AtomMatches(DatePattern[i], s[i]) {
        assert i == 0 || i == 1 || i == 2 || i == 3 || i == 4 || i == 5 || i == 6 || i == 7 || i == 8 || i == 9;
      }
    }
    if FullMatch(DatePattern, s) {
      assert AtomMatches(DatePattern[0], s[0]) && AtomMatches(DatePattern[1], s[1]);
      assert AtomMatches(DatePattern[2], s[2]) && AtomMatches(DatePattern[3], s[3]);
      assert AtomMatches(DatePattern[4], s[4]) && AtomMatches(DatePattern[5], s[5]);
      assert AtomMatches(DatePattern[6], s[6]) && AtomMatches(DatePattern[7], s[7]);
      assert AtomMatches(DatePattern[8], s[8]) && AtomMatches(DatePattern[9], s[9]);
    }
  }

  // ---------------------------------------------------------------- acceptance

  predicate IsInteger(n: real) { n.Floor as real == n }

  /** Whether one value passes one check; `undefined` and `null` pass none. */
  function ValueOk(z: Zod, c: Check, v: Json): (r: bool)
    ensures r ==> v != Undefined && v != Null
    decreases c
  {
    match c
    case AnyString => v.Str?
    case Url => v.Str? && z.isUrl(v.s)
    case Email => v.Str? && z.isEmail(v.s)
    case Datetime => v.Str? && z.isDatetime(v.s)
    case NonEmptyString => v.Str? && |v.s| >= 1
    case PositiveInt => v.Num? && IsInteger(v.n) && v.n > 0.0
    case NonNegativeInt => v.Num? && IsInteger(v.n) && v.n >= 0.0
    case Boolean => v.Bool?
    case DateString => v.Str? && FullMatch(DatePattern, v.s)
    case FalseLiteral => v == Bool(false)
    case ArrayOf(item) => v.Arr? && forall i :: 0 <= i < |v.items| ==> ObjectOk(z, item, v.items[i])
    case StringArrayRecord =>
      v.Obj? && forall k :: k in v.fields ==> StringArray(v.fields[k])
  }

  predicate StringArray(v: Json)
  {
    v.Arr? && forall i :: 0 <= i < |v.items| ==> v.items[i].Str?
  }

  /**
   * A declared field passes: an absent (undefined) one exactly when it is
   * optional, a present one exactly when its value passes the check.
   */
  function FieldOk(z: Zod, f: Field, v: Json): (r: bool)
    ensures Get(v, f.key) == Undefined ==> (r <==> f.optional)
    ensures Get(v, f.key) != Undefined ==> (r <==> ValueOk(z, f.check, Get(v, f.key)))
    decreases f
  {
    (f.optional && Get(v, f.key) == Undefined) || ValueOk(z, f.check, Get(v, f.key))
  }

  /**
   * `z.object(shape)` accepts `v`: an object whose every declared field
   * passes; in particular every required key is present.
   */
  function ObjectOk(z: Zod, sh: Shape, v: Json): (r: bool)
    ensures r ==> v.Obj? && RequiredKeys(sh) <= v.fields.Keys
    decreases sh
  {
    v.Obj? && forall j :: 0 <= j < |sh.fields| ==> FieldOk(z, sh.fields[j], v)
  }

  /** The keys of the fields a shape does not mark optional. */
  function RequiredKeys(sh: Shape): set<string>
  {
    set f | f in sh.fields && !f.optional :: f.key
  }

  /**
   * `schema` accepts `v`: `v` is an object holding every required key, and
   * whether it is accepted depends on the declared keys only.
   */
  function Accepts(z: Zod, s: Schema, v: Json): (r: bool)
    ensures r ==> v.Obj? && RequiredKeys(ShapeOf(s)) <= v.fields.Keys
    ensures forall w: Json :: w.Obj? && v.Obj? && SameOn(Keys(ShapeOf(s)), v, w) ==> (r <==> ObjectOk(z, ShapeOf(s), w))
  {
    ObjectOk(z, ShapeOf(s), v)
  }

  /** `v` and `w` agree on every key of `keys`. */
  predicate SameOn(keys: set<string>, v: Json, w: Json)
  {
    forall k :: k in keys ==> Get(v, k) == Get(w, k)
  }

  // ---------------------------------------------------------------- parsing

  function Keys(sh: Shape): set<string>
  {
    set f | f in sh.fields :: f.key
  }

  /** A shape none of whose fields is an array of objects (so stripping is shallow). */
  predicate Flat(sh: Shape)
  {
    forall j :: 0 <= j < |sh.fields| ==> !sh.fields[j].check.ArrayOf?
  }

  /** The issues of an object, one per failing field, in declaration order. */
  function FieldIssues(z: Zod, fields: seq<Field>, v: Json): (r: seq<Issue>)
    ensures r == [] <==> forall j :: 0 <= j < |fields| ==> FieldOk(z, fields[j], v)
    ensures forall i :: 0 <= i < |r| ==>
      r[i].InvalidField? && exists j :: 0 <= j < |fields| && fields[j].key == r[i].key && !FieldOk(z, fields[j], v)
    decreases |fields|
  {
    if fields == [] then []
    else
      var rest := FieldIssues(z, fields[1..], v);
      assert forall j :: 1 <= j < |fields| ==> fields[j] == fields[1..][j - 1];
      if FieldOk(z, fields[0], v) then rest else [InvalidField(fields[0].key)] + rest
  }

  /** The parsed copy: the declared keys that are present, nothing else. */
  function Strip(sh: Shape, v: Json): Json
  {
    if v.Obj? then Obj(map k | k in v.fields && k in Keys(sh) :: v.fields[k]) else v
  }

  /** `z.object(sh).parse(v)`: the stripped copy when accepted, otherwise the issues. */
  function ParseShape(z: Zod, sh: Shape, v: Json): (r: Result<Json, seq<Issue>>)
    requires Flat(sh)
    ensures r.Ok? <==> ObjectOk(z, sh, v)
    ensures r.Err? ==> |r.error| > 0
    ensures r.Ok? ==> r.value.Obj? && r.value.fields.Keys == v.fields.Keys * Keys(sh)
    ensures r.Ok? ==> forall k :: k in Keys(sh) ==> Get(r.value, k) == Get(v, k)
  {
    if !v.Obj? then Err([NotAnObject])
    else
      var issues := FieldIssues(z, sh.fields, v);
      if issues != [] then Err(issues) else Ok(Strip(sh, v))
  }

  /**
   * `schema.parse(v)` for one of the schemas the source parses (all flat):
   * the stripped copy when `v` is accepted, otherwise a non-empty issue list.
   */
  function Parse(z: Zod, s: Schema, v: Json): (r: Result<Json, seq<Issue>>)
    requires Flat(ShapeOf(s))
    ensures r.Ok? <==> Accepts(z, s, v)
    ensures r.Err? ==> |r.error| > 0
    ensures r.Ok? ==> r.value.Obj? && r.value.fields.Keys == v.fields.Keys * Keys(ShapeOf(s))
    ensures r.Ok? ==> forall k :: k in Keys(ShapeOf(s)) ==> Get(r.value, k) == Get(v, k)
  {
    ParseShape(z, ShapeOf(s), v)
  }

  /** Whether a field passes depends only on that field's own value. */
  lemma FieldOkLocal(z: Zod, f: Field, v: Json, w: Json)
    requires v.Obj? && w.Obj? && Get(v, f.key) == Get(w, f.key)
    ensures FieldOk(z, f, v) <==> FieldOk(z, f, w)
  {
  }

  /** The parsed copy is itself accepted, and parsing it again changes nothing. */
  lemma {:induction false} ParseShapeIdempotent(z: Zod, sh: Shape, v: Json)
    requires Flat(sh) && ParseShape(z, sh, v).Ok?
    ensures ObjectOk(z, sh, ParseShape(z, sh, v).value)
    ensures ParseShape(z, sh, ParseShape(z, sh, v).value) == ParseShape(z, sh, v)
  {
    var p := ParseShape(z, sh, v).value;
    forall j | 0 <= j < |sh.fields| ensures FieldOk(z, sh.fields[j], p) {
      assert sh.fields[j].key in Keys(sh);
      FieldOkLocal(z, sh.fields[j], v, p);
    }
    assert Strip(sh, p) == p;
  }

  // ---------------------------------------------------------------- properties of the declarations

  /** A `GetSlotsParams` check on an optional field: absent, or passing `c`. */
  predicate OptionalOk(z: Zod, c: Check, v: Json, key: string)
  {
    Get(v, key) == Undefined || ValueOk(z, c, Get(v, key))
  }

  /** An optional date field: absent, or a string with the date shape. */
  predicate OptionalDate(v: Json, key: string)
  {
    Get(v, key) == Undefined || (Get(v, key).Str? && IsDateShape(Get(v, key).s))
  }

  /** What each of the six `GetSlotsParams` fields demands. */
  lemma GetSlotsParamsFields(z: Zod, v: Json)
    ensures FieldOk(z, GetSlotsParamsShape.fields[0], v) <==> Get(v, "page").Str? && z.isUrl(Get(v, "page").s)
    ensures FieldOk(z, GetSlotsParamsShape.fields[1], v) <==> OptionalOk(z, PositiveInt, v, "count")
    ensures FieldOk(z, GetSlotsParamsShape.fields[2], v) <==> OptionalDate(v, "start")
    ensures FieldOk(z, GetSlotsParamsShape.fields[3], v) <==> OptionalDate(v, "end")
    ensures FieldOk(z, GetSlotsParamsShape.fields[4], v) <==> OptionalOk(z, NonEmptyString, v, "timezone")
    ensures FieldOk(z, GetSlotsParamsShape.fields[5], v) <==> OptionalOk(z, Boolean, v, "booking_link")
  {
    var fs := GetSlotsParamsShape.fields;
    assert FieldOk(z, fs[0], v) <==> Get(v, "page").Str? && z.isUrl(Get(v, "page").s);
    assert FieldOk(z, fs[1], v) <==> OptionalOk(z, PositiveInt, v, "count");
    assert FieldOk(z, fs[2], v) <==> OptionalDate(v, "start") by {
      if Get(v, "start").Str? { DatePatternIsDateShape(Get(v, "start").s); }
    }
    assert FieldOk(z, fs[3], v) <==> OptionalDate(v, "end") by {
      if Get(v, "end").Str? { DatePatternIsDateShape(Get(v, "end").s); }
    }
    assert FieldOk(z, fs[4], v) <==> OptionalOk(z, NonEmptyString, v, "timezone");
    assert FieldOk(z, fs[5], v) <==> OptionalOk(z, Boolean, v, "booking_link");
  }

  /**
   * `GetSlotsParams` needs only a URL `page`; `count`, when present, is a
   * positive integer; `start` and `end`, when present, have the date shape;
   * `timezone`, when present, is non-empty; `booking_link` is a boolean.
   */
  lemma GetSlotsParamsAccepts(z: Zod, v: Json)
    ensures Accepts(z, GetSlotsParamsSchema, v) <==>
      && v.Obj?
      && Get(v, "page").Str? && z.isUrl(Get(v, "page").s)
      && OptionalOk(z, PositiveInt, v, "count")
      && OptionalDate(v, "start")
      && OptionalDate(v, "end")
      && OptionalOk(z, NonEmptyString, v, "timezone")
      && OptionalOk(z, Boolean, v, "booking_link")
  {
    GetSlotsParamsFields(z, v);
    ObjectOkOfSix(z, GetSlotsParamsShape, v);
    assert Accepts(z, GetSlotsParamsSchema, v) == ObjectOk(z, GetSlotsParamsShape, v);
  }

  /** An object passes a six-field shape when it passes each of the six fields. */
  lemma ObjectOkOfSix(z: Zod, sh: Shape, v: Json)
    requires |sh.fields| == 6
    ensures ObjectOk(z, sh, v) <==> (v.Obj? &&
      FieldOk(z, sh.fields[0], v) && FieldOk(z, sh.fields[1], v) && FieldOk(z, sh.fields[2], v) &&
      FieldOk(z, sh.fields[3], v) && FieldOk(z, sh.fields[4], v) && FieldOk(z, sh.fields[5], v))
  {
    if v.Obj? && FieldOk(z, sh.fields[0], v) && FieldOk(z, sh.fields[1], v) && FieldOk(z, sh.fields[2], v) &&
      FieldOk(z, sh.fields[3], v) && FieldOk(z, sh.fields[4], v) && FieldOk(z, sh.fields[5], v)
    {
      forall j | 0 <= j < 6 ensures FieldOk(z, sh.fields[j], v) {
        assert j == 0 || j == 1 || j == 2 || j == 3 || j == 4 || j == 5;
      }
    }
  }

  /** A record holding only `page` is accepted. */
  lemma GetSlotsParamsMinimal(z: Zod, page: string)
    requires z.isUrl(page)
    ensures Accepts(z, GetSlotsParamsSchema, Single("page", page))
  {
    GetSlotsParamsAccepts(z, Single("page", page));
  }

  /** "2025/01/01" is not a date for `GetSlotsParams.start`. */
  lemma GetSlotsParamsRejectsSlashDate(z: Zod, page: string)
    ensures !Accepts(z, GetSlotsParamsSchema, Obj(map["page" := Str(page), "start" := Str("2025/01/01")]))
  {
    GetSlotsParamsAccepts(z, Obj(map["page" := Str(page), "start" := Str("2025/01/01")]));
  }

  /** `PageInfo.duration` and `max_days_into_the_future` are positive integers. */
  lemma PageInfoPositive(z: Zod, v: Json)
    requires Accepts(z, PageInfoSchema, v)
    ensures ValueOk(z, PositiveInt, Get(v, "duration"))
    ensures ValueOk(z, PositiveInt, Get(v, "max_days_into_the_future"))
    ensures Get(v, "duration").n > 0.0
  {
    var fs := PageInfoShape.fields;
    assert FieldOk(z, fs[1], v) && FieldOk(z, fs[4], v);
  }

  /** A negative duration is rejected, whatever the other fields hold. */
  lemma PageInfoRejectsNegativeDuration(z: Zod, v: Json)
    requires Get(v, "duration") == Num(-30.0)
    ensures !Accepts(z, PageInfoSchema, v)
  {
    if Accepts(z, PageInfoSchema, v) { PageInfoPositive(z, v); }
  }

  /** `Slots.count` is a non-negative integer, `Slots.duration` and `SchedulingPage.duration` positive. */
  lemma SlotsAndPagesCounts(z: Zod, slots: Json, page: Json)
    ensures Accepts(z, SlotsSchema, slots) ==>
      ValueOk(z, NonNegativeInt, Get(slots, "count")) && ValueOk(z, PositiveInt, Get(slots, "duration"))
    ensures Accepts(z, SchedulingPageSchema, page) ==> ValueOk(z, PositiveInt, Get(page, "duration"))
  {
    if Accepts(z, SlotsSchema, slots) {
      var fs := SlotsShape.fields;
      assert FieldOk(z, fs[0], slots) && FieldOk(z, fs[1], slots);
    }
    if Accepts(z, SchedulingPageSchema, page) {
      assert FieldOk(z, SchedulingPageShape.fields[1], page);
    }
  }

  /** Zero slots is a valid count; a zero duration is not. */
  lemma SlotsCountMayBeZero(z: Zod, slots: Json)
    requires Get(slots, "duration") == Num(0.0)
    ensures ValueOk(z, NonNegativeInt, Num(0.0))
    ensures !Accepts(z, SlotsSchema, slots)
  {
    if Accepts(z, SlotsSchema, slots) { SlotsAndPagesCounts(z, slots, Null); }
  }

  /**
   * `guest_name` is a non-empty string in both `BookSlot` and
   * `BookSlotRequest`, and a present `GetSlotsParams.timezone` is non-empty.
   */
  lemma NonEmptyNames(z: Zod, v: Json)
    ensures Accepts(z, BookSlotSchema, v) ==> Get(v, "guest_name").Str? && Get(v, "guest_name").s != ""
    ensures Accepts(z, BookSlotRequestSchema, v) ==> Get(v, "guest_name").Str? && Get(v, "guest_name").s != ""
    ensures Accepts(z, GetSlotsParamsSchema, v) && Get(v, "timezone") != Undefined ==>
      Get(v, "timezone").Str? && Get(v, "timezone").s != ""
  {
    if Accepts(z, BookSlotSchema, v) { assert FieldOk(z, BookSlotShape.fields[3], v); }
    if Accepts(z, BookSlotRequestSchema, v) { assert FieldOk(z, BookSlotRequestShape.fields[2], v); }
    if Accepts(z, GetSlotsParamsSchema, v) { GetSlotsParamsAccepts(z, v); }
  }

  /** `MeetbotConfig` accepts exactly the objects whose `authToken`, if present, is a string. */
  lemma MeetbotConfigAccepts(z: Zod, v: Json)
    ensures Accepts(z, MeetbotConfigSchema, v) <==>
      v.Obj? && (Get(v, "authToken") == Undefined || Get(v, "authToken").Str?)
  {
    if Accepts(z, MeetbotConfigSchema, v) { assert FieldOk(z, MeetbotConfigShape.fields[0], v); }
  }

  /** Extra keys such as `baseUrl` or `sessionId` never make a config invalid. */
  lemma MeetbotConfigIgnoresExtraKeys(z: Zod, v: Json, key: string, x: Json)
    requires v.Obj? && key != "authToken"
    ensures Accepts(z, MeetbotConfigSchema, Obj(v.fields[key := x])) <==> Accepts(z, MeetbotConfigSchema, v)
  {
    MeetbotConfigAccepts(z, v);
    MeetbotConfigAccepts(z, Obj(v.fields[key := x]));
  }

  /** `ApiError.success` must be literally `false`. */
  lemma ApiErrorSuccessIsFalse(z: Zod, v: Json)
    requires Accepts(z, ApiErrorSchema, v)
    ensures Get(v, "success") == Bool(false)
  {
    assert FieldOk(z, ApiErrorShape.fields[0], v);
  }
}
