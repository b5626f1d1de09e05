/**
 * The administrator record and its schemas (lib/validations/administrator.ts).
 * Its timestamps use the offset-accepting date-time format.
 */
module AdministratorSchema {
  import opened Wrappers
  import opened Patterns
  import opened SchemaFields

  /** An administrator as `administratorSchema` returns it. */
  datatype Administrator = Administrator(
    id: Option<string>,
    gender: Gender,
    name: string,
    phone: string,
    created_at: Option<string>,
    updated_at: Option<string>)

  datatype Key = KId | KGender | KName | KPhone | KCreatedAt | KUpdatedAt

  function KeyName(k: Key): string {
    match k
    case KId => "id"
    case KGender => "gender"
    case KName => "name"
    case KPhone => "phone"
    case KCreatedAt => "created_at"
    case KUpdatedAt => "updated_at"
  }

  lemma KeyNameInjective(a: Key, b: Key)
    ensures KeyName(a) == KeyName(b) ==> a == b
  {
  }

  const KeyOrder: seq<Key> := [KId, KGender, KName, KPhone, KCreatedAt, KUpdatedAt]

  /** The keys the create and update schemas omit. */
  function ServerNames(): set<string> {
    {KeyName(KId), KeyName(KCreatedAt), KeyName(KUpdatedAt)}
  }

  const NameRequired := "이름은 필수입니다"
  const PhoneMessage := "올바른 전화번호 형식이 아닙니다"

  function At(obj: map<string, Json>, k: Key): Option<Json> {
    Field(obj, KeyName(k))
  }

  // The check of each field of `administratorSchema`.

  function IdCheck(obj: map<string, Json>, fm: Formats): (c: Check<Option<string>>)
    ensures At(obj, KId).None? ==> c == Pass(None)
    ensures c.Pass? && c.value.Some? ==> fm.uuid(c.value.value) && At(obj, KId) == Some(JStr(c.value.value))
    ensures var v := At(obj, KId);
      v.Some? && v.value.JStr? && !fm.uuid(v.value.s) ==> c.Fail?
  {
    OptionalString(KeyName(KId), At(obj, KId), fm.uuid)
  }

  function GenderCheck(obj: map<string, Json>): (c: Check<Gender>)
    ensures c == Pass(Male) <==> At(obj, KGender) == Some(JStr("male"))
    ensures c == Pass(Female) <==> At(obj, KGender) == Some(JStr("female"))
  {
    GenderField(KeyName(KGender), At(obj, KGender))
  }

  function NameCheck(obj: map<string, Json>): (c: Check<string>)
    ensures c.Pass? ==> c.value != "" && At(obj, KName) == Some(JStr(c.value))
    ensures At(obj, KName) == Some(JStr("")) ==>
        c == Fail([Issue(KeyName(KName), TooSmall, Some(NameRequired))])
    ensures At(obj, KName).None? ==> c.Fail?
  {
    NonEmptyString(KeyName(KName), At(obj, KName), NameRequired)
  }

  function PhoneCheck(obj: map<string, Json>): (c: Check<string>)
    ensures c.Pass? ==> IsPhone(c.value) && At(obj, KPhone) == Some(JStr(c.value))
    ensures var v := At(obj, KPhone);
      v.Some? && v.value.JStr? && !IsPhone(v.value.s) ==>
        c == Fail([Issue(KeyName(KPhone), InvalidString, Some(PhoneMessage))])
    ensures At(obj, KPhone).None? ==> c.Fail?
  {
    FormattedString(KeyName(KPhone), At(obj, KPhone), IsPhone, Some(PhoneMessage))
  }

  function CreatedAtCheck(obj: map<string, Json>, fm: Formats): (c: Check<Option<string>>)
    ensures At(obj, KCreatedAt).None? ==> c == Pass(None)
    ensures c.Pass? && c.value.Some? ==> fm.datetimeOffset(c.value.value) && At(obj, KCreatedAt) == Some(JStr(c.value.value))
    ensures var v := At(obj, KCreatedAt);
      v.Some? && v.value.JStr? && !fm.datetimeOffset(v.value.s) ==> c.Fail?
  {
    OptionalString(KeyName(KCreatedAt), At(obj, KCreatedAt), fm.datetimeOffset)
  }

  function UpdatedAtCheck(obj: map<string, Json>, fm: Formats): (c: Check<Option<string>>)
    ensures At(obj, KUpdatedAt).None? ==> c == Pass(None)
    ensures c.Pass? && c.value.Some? ==> fm.datetimeOffset(c.value.value) && At(obj, KUpdatedAt) == Some(JStr(c.value.value))
    ensures var v := At(obj, KUpdatedAt);
      v.Some? && v.value.JStr? && !fm.datetimeOffset(v.value.s) ==> c.Fail?
  {
    OptionalString(KeyName(KUpdatedAt), At(obj, KUpdatedAt), fm.datetimeOffset)
  }

  /** `administratorSchema.safeParse(input)`: the record, or every issue found. */
  function Parse(input: Json, fm: Formats): (r: Result<Administrator, seq<Issue>>)
    ensures r.Err? ==> r.error != []
    ensures !input.JObj? ==> r == Err([NotAnObject])
  {
    match input
    case JObj(obj) =>
      var id := IdCheck(obj, fm);
      var gender := GenderCheck(obj);
      var name := NameCheck(obj);
      var phone := PhoneCheck(obj);
      var created := CreatedAtCheck(obj, fm);
      var updated := UpdatedAtCheck(obj, fm);
      if id.Pass? && gender.Pass? && name.Pass? && phone.Pass? && created.Pass? && updated.Pass?
      then Ok(Administrator(id.value, gender.value, name.value, phone.value, created.value, updated.value))
      else Err(IssuesOf(id) + IssuesOf(gender) + IssuesOf(name) + IssuesOf(phone) + IssuesOf(created) + IssuesOf(updated))
    case _ => Err([NotAnObject])
  }

  /** `createAdministratorSchema.safeParse(input)`: `id` and the timestamps are neither checked nor returned. */
  function ParseCreate(input: Json, fm: Formats): (r: Result<Administrator, seq<Issue>>)
    ensures r.Ok? ==> r.value.id.None? && r.value.created_at.None? && r.value.updated_at.None?
    ensures r.Err? ==> r.error != []
  {
    match input
    case JObj(obj) =>
      var r := Parse(JObj(obj - ServerNames()), fm);
      assert r.Ok? ==> At(obj - ServerNames(), KId).None?;
      assert r.Ok? ==> At(obj - ServerNames(), KCreatedAt).None? && At(obj - ServerNames(), KUpdatedAt).None?;
      r
    case _ => Err([NotAnObject])
  }

  /** The fields an administrator update may carry. */
  datatype AdministratorPatch = AdministratorPatch(gender: Option<Gender>, name: Option<string>, phone: Option<string>)

  /** `updateAdministratorSchema.safeParse(input)`: every sent field is checked, none is required. */
  function ParseUpdate(input: Json, fm: Formats): (r: Result<AdministratorPatch, seq<Issue>>)
    ensures r.Err? ==> r.error != []
  {
    match input
    case JObj(obj) =>
      var gender := Optional(At(obj, KGender), GenderCheck(obj));
      var name := Optional(At(obj, KName), NameCheck(obj));
      var phone := Optional(At(obj, KPhone), PhoneCheck(obj));
      if gender.Pass? && name.Pass? && phone.Pass?
      then Ok(AdministratorPatch(gender.value, name.value, phone.value))
      else Err(IssuesOf(gender) + IssuesOf(name) + IssuesOf(phone))
    case _ => Err([NotAnObject])
  }

  /** What `administratorSchema` demands of a typed record. */
  predicate WellFormed(a: Administrator, fm: Formats) {
    && (a.id.Some? ==> fm.uuid(a.id.value))
    && a.name != ""
    && IsPhone(a.phone)
    && (a.created_at.Some? ==> fm.datetimeOffset(a.created_at.value))
    && (a.updated_at.Some? ==> fm.datetimeOffset(a.updated_at.value))
  }

  function ValueAt(a: Administrator, k: Key): Option<Json> {
    match k
    case KId => OptionJson(a.id)
    case KGender => Some(JStr(GenderText(a.gender)))
    case KName => Some(JStr(a.name))
    case KPhone => Some(JStr(a.phone))
    case KCreatedAt => OptionJson(a.created_at)
    case KUpdatedAt => OptionJson(a.updated_at)
  }

  function Build(a: Administrator, keys: seq<Key>): map<string, Json> {
    if keys == [] then map[]
    else
      var m := Build(a, keys[1..]);
      if ValueAt(a, keys[0]).Some? then m[KeyName(keys[0]) := ValueAt(a, keys[0]).value] else m
  }

  lemma {:induction false} BuildAt(a: Administrator, keys: seq<Key>, k: Key)
    ensures Field(Build(a, keys), KeyName(k)) == if k in keys then ValueAt(a, k) else None
  {
    if keys != [] {
      BuildAt(a, keys[1..], k);
      KeyNameInjective(keys[0], k);
      if keys[0] != k {
        assert k in keys <==> k in keys[1..];
      }
    }
  }

  /** An administrator row as the store returns it. */
  function ToJson(a: Administrator): Json {
    JObj(Build(a, KeyOrder))
  }

  lemma ChecksOfToJsonA(a: Administrator, fm: Formats)
    ensures var obj := ToJson(a).fields;
      && (IdCheck(obj, fm).Pass? <==> (a.id.Some? ==> fm.uuid(a.id.value)))
      && (IdCheck(obj, fm).Pass? ==> IdCheck(obj, fm).value == a.id)
      && GenderCheck(obj) == Pass(a.gender)
  {
    BuildAt(a, KeyOrder, KId);
    BuildAt(a, KeyOrder, KGender);
    OptionalStringOfJson(KeyName(KId), a.id, fm.uuid);
    GenderOfText(KeyName(KGender), a.gender);
  }

  lemma ChecksOfToJsonC(a: Administrator, fm: Formats)
    ensures var obj := ToJson(a).fields;
      && (NameCheck(obj).Pass? <==> a.name != "") && (NameCheck(obj).Pass? ==> NameCheck(obj).value == a.name)
      && (PhoneCheck(obj).Pass? <==> IsPhone(a.phone)) && (PhoneCheck(obj).Pass? ==> PhoneCheck(obj).value == a.phone)
  {
    BuildAt(a, KeyOrder, KName);
    BuildAt(a, KeyOrder, KPhone);
  }

  lemma ChecksOfToJsonB(a: Administrator, fm: Formats)
    ensures var obj := ToJson(a).fields;
      && (CreatedAtCheck(obj, fm).Pass? <==> (a.created_at.Some? ==> fm.datetimeOffset(a.created_at.value)))
      && (CreatedAtCheck(obj, fm).Pass? ==> CreatedAtCheck(obj, fm).value == a.created_at)
      && (UpdatedAtCheck(obj, fm).Pass? <==> (a.updated_at.Some? ==> fm.datetimeOffset(a.updated_at.value)))
      && (UpdatedAtCheck(obj, fm).Pass? ==> UpdatedAtCheck(obj, fm).value == a.updated_at)
  {
    BuildAt(a, KeyOrder, KCreatedAt);
    BuildAt(a, KeyOrder, KUpdatedAt);
    OptionalStringOfJson(KeyName(KCreatedAt), a.created_at, fm.datetimeOffset);
    OptionalStringOfJson(KeyName(KUpdatedAt), a.updated_at, fm.datetimeOffset);
  }

  /** Checking a stored administrator row passes exactly when the record is well formed, and gives it back. */
  lemma ParseToJson(a: Administrator, fm: Formats)
    ensures Parse(ToJson(a), fm).Ok? <==> WellFormed(a, fm)
    ensures Parse(ToJson(a), fm).Ok? ==> Parse(ToJson(a), fm).value == a
  {
    ChecksOfToJsonA(a, fm);
    ChecksOfToJsonB(a, fm);
    ChecksOfToJsonC(a, fm);
  }

  /** Gender must be listed, the name non-empty and the phone a Korean mobile number. */
  lemma FieldRules(obj: map<string, Json>, fm: Formats)
    ensures Parse(JObj(obj), fm).Ok? ==> At(obj, KGender) in {Some(JStr("male")), Some(JStr("female"))}
    ensures At(obj, KName) == Some(JStr("")) ==>
      Parse(JObj(obj), fm).Err? && Issue("name", TooSmall, Some("이름은 필수입니다")) in Parse(JObj(obj), fm).error
    ensures Parse(JObj(obj), fm).Ok? ==> IsPhone(Parse(JObj(obj), fm).value.phone)
  {
  }

  /** The timestamps may be missing; when sent they must be offset date-times. */
  lemma TimestampsOptional(obj: map<string, Json>, fm: Formats)
    requires At(obj, KCreatedAt).None? && At(obj, KUpdatedAt).None?
    ensures CreatedAtCheck(obj, fm) == Pass(None) && UpdatedAtCheck(obj, fm) == Pass(None)
    ensures Parse(JObj(obj), fm).Ok? ==> Parse(JObj(obj), fm).value.created_at.None?
  {
  }

  /** The create schema ignores `id` and the timestamps, whatever they hold. */
  lemma CreateIgnoresServerKeys(obj: map<string, Json>, key: string, v: Json, fm: Formats)
    requires key in ServerNames()
    ensures ParseCreate(JObj(obj[key := v]), fm) == ParseCreate(JObj(obj), fm)
  {
    var s := ServerNames();
    var o1, o2 := obj[key := v] - s, obj - s;
    forall k ensures At(o1, k) == At(o2, k) {
      KeyNameInjective(k, KId);
      KeyNameInjective(k, KCreatedAt);
      KeyNameInjective(k, KUpdatedAt);
    }
    assert At(o1, KGender) == At(o2, KGender) && At(o1, KName) == At(o2, KName) && At(o1, KPhone) == At(o2, KPhone);
    assert At(o1, KId) == At(o2, KId) && At(o1, KCreatedAt) == At(o2, KCreatedAt) && At(o1, KUpdatedAt) == At(o2, KUpdatedAt);
  }

  /** An update may send nothing at all; a sent field is checked as on create. */
  lemma UpdateFieldsOptional(obj: map<string, Json>, fm: Formats)
    ensures ParseUpdate(JObj(map[]), fm) == Ok(AdministratorPatch(None, None, None))
    ensures At(obj, KName) == Some(JStr("")) ==> ParseUpdate(JObj(obj), fm).Err?
    ensures ParseUpdate(JObj(obj), fm).Ok? && At(obj, KPhone).Some? ==>
      ParseUpdate(JObj(obj), fm).value.phone.Some? && IsPhone(ParseUpdate(JObj(obj), fm).value.phone.value)
  {
  }
}
