/**
 * The part of zod the record validators use: a JSON value is checked field by
 * field against a declared shape, every failing check contributes an issue,
 * and the parse succeeds only when no field has an issue.
 */
module SchemaFields {
  import opened Wrappers

  /** A parsed JSON value. Numbers are reals: JSON has no separate integer type. */
  datatype Json =
    | JNull
    | JBool(b: bool)
    | JNum(x: real)
    | JStr(s: string)
    | JArr(items: seq<Json>)
    | JObj(fields: map<string, Json>)

  /** The string formats zod checks with its own library code (`uuid()`, `email()`, `datetime()`
      and `datetime({ offset: true })`); they are inputs of the model, not modelled themselves. */
  datatype Formats = Formats(
    uuid: string -> bool,
    email: string -> bool,
    datetime: string -> bool,
    datetimeOffset: string -> bool)

  datatype IssueKind = InvalidType | InvalidEnumValue | NotInteger | TooSmall | InvalidString

  /** One validation failure: the field it concerns, its kind and the schema's own message, if it gives one. */
  datatype Issue = Issue(path: string, kind: IssueKind, message: Option<string>)

  /** The outcome of checking one field. */
  datatype Check<+T> = Pass(value: T) | Fail(issues: seq<Issue>)

  datatype Gender = Male | Female

  /** The value under `key`, or `None` when the key is missing (`undefined`). */
  function Field(obj: map<string, Json>, key: string): Option<Json> {
    if key in obj then Some(obj[key]) else None
  }

  function IssuesOf<T>(c: Check<T>): seq<Issue> {
    if c.Fail? then c.issues else []
  }

  /** The number an integer denotes. */
  function FromInt(n: int): real { n as real }

  /** `Number.isInteger`: the number is the value of some integer. */
  predicate IsInteger(x: real)
    ensures IsInteger(x) <==> exists n: int :: FromInt(n) == x
  {
    assert FromInt(x.Floor) == x.Floor as real;
    x.Floor as real == x
  }

  /** `z.enum(['male', 'female'])`. */
  function GenderField(path: string, v: Option<Json>): (c: Check<Gender>)
    ensures c.Pass? <==> v == Some(JStr("male")) || v == Some(JStr("female"))
    ensures c.Pass? ==> (c.value == Male <==> v == Some(JStr("male")))
    ensures c.Fail? ==> c.issues != []
  {
    match v
    case Some(JStr(s)) =>
      if s == "male" then Pass(Male)
      else if s == "female" then Pass(Female)
      else Fail([Issue(path, InvalidEnumValue, None)])
    case _ => Fail([Issue(path, InvalidType, None)])
  }

  /** `z.string().min(1, message)`: the empty string fails with the schema's message. */
  function NonEmptyString(path: string, v: Option<Json>, message: string): (c: Check<string>)
    ensures c.Pass? <==> v.Some? && v.value.JStr? && v.value.s != ""
    ensures c.Pass? ==> c.value == v.value.s
    ensures v == Some(JStr("")) ==> c == Fail([Issue(path, TooSmall, Some(message))])
    ensures c.Fail? ==> c.issues != []
  {
    match v
    case Some(JStr(s)) =>
      if |s| >= 1 then Pass(s) else Fail([Issue(path, TooSmall, Some(message))])
    case _ => Fail([Issue(path, InvalidType, None)])
  }

  /** `z.string().regex(pattern, message)` and the library string formats: a string the format accepts. */
  function FormattedString(path: string, v: Option<Json>, accepts: string -> bool, message: Option<string>): (c: Check<string>)
    ensures c.Pass? <==> v.Some? && v.value.JStr? && accepts(v.value.s)
    ensures c.Pass? ==> c.value == v.value.s
    ensures c.Fail? ==> c.issues != []
  {
    match v
    case Some(JStr(s)) =>
      if accepts(s) then Pass(s) else Fail([Issue(path, InvalidString, message)])
    case _ => Fail([Issue(path, InvalidType, None)])
  }

  /** `z.number().int()` followed by `.positive()` (`positive`) or `.min(0)`, with an optional `.default(d)`.
      Both number checks run, so a negative fraction yields two issues. */
  function IntegerField(path: string, v: Option<Json>, positive: bool, default: Option<int>): (c: Check<int>)
    ensures c.Pass? <==>
      (v.None? && default.Some?) ||
      (v.Some? && v.value.JNum? && IsInteger(v.value.x) && (if positive then v.value.x > 0.0 else v.value.x >= 0.0))
    ensures c.Pass? && v.Some? ==> c.value as real == v.value.x
    ensures c.Pass? && v.None? ==> c.value == default.value
    ensures c.Fail? ==> c.issues != []
  {
    match v
    case None =>
      if default.Some? then Pass(default.value) else Fail([Issue(path, InvalidType, None)])
    case Some(JNum(x)) =>
      var tooSmall := if positive then x <= 0.0 else x < 0.0;
      var issues :=
        (if IsInteger(x) then [] else [Issue(path, NotInteger, None)])
        + (if tooSmall then [Issue(path, TooSmall, None)] else []);
      if issues == [] then Pass(x.Floor) else Fail(issues)
    case Some(_) => Fail([Issue(path, InvalidType, None)])
  }

  /** `z.boolean()`, with an optional `.default(d)`. */
  function BooleanField(path: string, v: Option<Json>, default: Option<bool>): (c: Check<bool>)
    ensures c.Pass? <==> (v.None? && default.Some?) || (v.Some? && v.value.JBool?)
    ensures c.Pass? && v.Some? ==> c.value == v.value.b
    ensures c.Pass? && v.None? ==> c.value == default.value
    ensures c.Fail? ==> c.issues != []
  {
    match v
    case None => if default.Some? then Pass(default.value) else Fail([Issue(path, InvalidType, None)])
    case Some(JBool(b)) => Pass(b)
    case Some(_) => Fail([Issue(path, InvalidType, None)])
  }

  /** The issues of the array elements that are not strings, one per element, in order. */
  function ElementIssues(path: string, items: seq<Json>): (issues: seq<Issue>)
    ensures issues == [] <==> forall i :: 0 <= i < |items| ==> items[i].JStr?
  {
    if items == [] then []
    else
      var rest := ElementIssues(path, items[1..]);
      assert forall i :: 1 <= i < |items| ==> items[i] == items[1..][i - 1];
      (if items[0].JStr? then [] else [Issue(path, InvalidType, None)]) + rest
  }

  /** `z.array(z.string())`, with an optional `.default(d)`. */
  function StringArrayField(path: string, v: Option<Json>, default: Option<seq<string>>): (c: Check<seq<string>>)
    ensures c.Pass? <==>
      (v.None? && default.Some?) ||
      (v.Some? && v.value.JArr? && forall i :: 0 <= i < |v.value.items| ==> v.value.items[i].JStr?)
    ensures c.Pass? && v.Some? ==>
      |c.value| == |v.value.items| && forall i :: 0 <= i < |c.value| ==> v.value.items[i] == JStr(c.value[i])
    ensures c.Pass? && v.None? ==> c.value == default.value
    ensures c.Fail? ==> c.issues != []
  {
    match v
    case None => if default.Some? then Pass(default.value) else Fail([Issue(path, InvalidType, None)])
    case Some(JArr(items)) =>
      var issues := ElementIssues(path, items);
      if issues == [] then Pass(seq(|items|, i requires 0 <= i < |items| => items[i].s)) else Fail(issues)
    case Some(_) => Fail([Issue(path, InvalidType, None)])
  }

  /** `<string check>.optional()`: a missing key is accepted as `undefined`. */
  function OptionalString(path: string, v: Option<Json>, accepts: string -> bool): (c: Check<Option<string>>)
    ensures c.Pass? <==> v.None? || (v.value.JStr? && accepts(v.value.s))
    ensures c.Pass? ==> (c.value.None? <==> v.None?)
    ensures c.Pass? && v.Some? ==> c.value == Some(v.value.s)
    ensures c.Fail? ==> c.issues != []
  {
    if v.None? then Pass(None)
    else
      match FormattedString(path, v, accepts, None)
      case Pass(s) => Pass(Some(s))
      case Fail(issues) => Fail(issues)
  }

  /** `<string check>.nullable().optional()`: a missing key and `null` are both accepted. */
  function NullableString(path: string, v: Option<Json>, accepts: string -> bool): (c: Check<Nullish<string>>)
    ensures c.Pass? <==> v.None? || v.value.JNull? || (v.value.JStr? && accepts(v.value.s))
    ensures c.Pass? ==> (c.value.Absent? <==> v.None?) && (c.value.Null? <==> v == Some(JNull))
    ensures c.Pass? && c.value.Present? ==> v == Some(JStr(c.value.value))
    ensures c.Fail? ==> c.issues != []
  {
    match v
    case None => Pass(Absent)
    case Some(JNull) => Pass(Null)
    case Some(_) =>
      match FormattedString(path, v, accepts, None)
      case Pass(s) => Pass(Present(s))
      case Fail(issues) => Fail(issues)
  }

  /** A field of a `.partial()` schema: a missing key is `undefined` and the field's own
      default, if any, is not applied. */
  function Optional<T>(v: Option<Json>, c: Check<T>): (r: Check<Option<T>>)
    ensures v.None? ==> r == Pass(None)
    ensures v.Some? ==> (r.Pass? <==> c.Pass?) && (r.Pass? ==> r.value == Some(c.value))
    ensures r.Fail? ==> r.issues == c.issues
  {
    if v.None? then Pass(None)
    else
      match c
      case Pass(x) => Pass(Some(x))
      case Fail(issues) => Fail(issues)
  }

  /** Any string: the format of a field the schema does not restrict. */
  const AnyString: string -> bool := (s: string) => true

  /** The issue zod reports when the value to parse is not an object at all. */
  const NotAnObject: Issue := Issue("", InvalidType, None)

  /** The JSON of an optional string: the key is left out when the string is missing. */
  function OptionJson(v: Option<string>): Option<Json> {
    if v.Some? then Some(JStr(v.value)) else None
  }

  /** The JSON of a nullable optional string. */
  function NullableJson(v: Nullish<string>): Option<Json> {
    match v
    case Absent => None
    case Null => Some(JNull)
    case Present(s) => Some(JStr(s))
  }

  function StringsJson(items: seq<string>): (js: seq<Json>)
    ensures |js| == |items| && forall i :: 0 <= i < |items| ==> js[i] == JStr(items[i])
  {
    seq(|items|, i requires 0 <= i < |items| => JStr(items[i]))
  }

  /** The enum member a gender is written as. */
  function GenderText(g: Gender): string {
    if g == Male then "male" else "female"
  }

  /** An optional string written as JSON checks back to itself when the format accepts it. */
  lemma OptionalStringOfJson(path: string, v: Option<string>, accepts: string -> bool)
    ensures var c := OptionalString(path, OptionJson(v), accepts);
      (c.Pass? <==> (v.Some? ==> accepts(v.value))) && (c.Pass? ==> c.value == v)
  {
  }

  /** A nullable optional string written as JSON checks back to itself when the format accepts it. */
  lemma NullableStringOfJson(path: string, v: Nullish<string>, accepts: string -> bool)
    ensures var c := NullableString(path, NullableJson(v), accepts);
      (c.Pass? <==> (v.Present? ==> accepts(v.value))) && (c.Pass? ==> c.value == v)
  {
  }

  /** A gender written as its enum member checks back to itself. */
  lemma GenderOfText(path: string, g: Gender)
    ensures GenderField(path, Some(JStr(GenderText(g)))) == Pass(g)
  {
  }
}
