/**
 * The meeting record and its schemas (lib/validations/meeting.ts): a
 * required name and an optional, nullable description.
 */
module MeetingSchema {
  import opened Wrappers
  import opened SchemaFields

  /** A meeting as `meetingSchema` returns it. */
  datatype Meeting = Meeting(
    id: Option<string>,
    name: string,
    description: Nullish<string>,
    created_at: Option<string>,
    updated_at: Option<string>)

  datatype Key = KId | KName | KDescription | KCreatedAt | KUpdatedAt

  function KeyName(k: Key): string {
    match k
    case KId => "id"
    case KName => "name"
    case KDescription => "description"
    case KCreatedAt => "created_at"
    case KUpdatedAt => "updated_at"
  }

  lemma KeyNameInjective(a: Key, b: Key)
    ensures KeyName(a) == KeyName(b) ==> a == b
  {
  }

  const KeyOrder: seq<Key> := [KId, KName, KDescription, KCreatedAt, KUpdatedAt]

  /** The keys the create and update schemas omit. */
  function ServerNames(): set<string> {
    {KeyName(KId), KeyName(KCreatedAt), KeyName(KUpdatedAt)}
  }

  const NameRequired := "모임 이름은 필수입니다"

  function At(obj: map<string, Json>, k: Key): Option<Json> {
    Field(obj, KeyName(k))
  }

  // The check of each field of `meetingSchema`.

  function IdCheck(obj: map<string, Json>, fm: Formats): (c: Check<Option<string>>)
    ensures At(obj, KId).None? ==> c == Pass(None)
    ensures c.Pass? && c.value.Some? ==> fm.uuid(c.value.value) && At(obj, KId) == Some(JStr(c.value.value))
    ensures var v := At(obj, KId);
      v.Some? && v.value.JStr? && !fm.uuid(v.value.s) ==> c.Fail?
  {
    OptionalString(KeyName(KId), At(obj, KId), fm.uuid)
  }

  function NameCheck(obj: map<string, Json>): (c: Check<string>)
    ensures c.Pass? ==> c.value != "" && At(obj, KName) == Some(JStr(c.value))
    ensures At(obj, KName) == Some(JStr("")) ==>
        c == Fail([Issue(KeyName(KName), TooSmall, Some(NameRequired))])
    ensures At(obj, KName).None? ==> c.Fail?
  {
    NonEmptyString(KeyName(KName), At(obj, KName), NameRequired)
  }

  function DescriptionCheck(obj: map<string, Json>): (c: Check<Nullish<string>>)
    ensures At(obj, KDescription).None? ==> c == Pass(Absent)
    ensures At(obj, KDescription) == Some(JNull) ==> c == Pass(Null)
    ensures var v := At(obj, KDescription);
      v.Some? && v.value.JStr? ==> c == Pass(Present(v.value.s))
    ensures var v := At(obj, KDescription);
      c.Fail? <==> v.Some? && !v.value.JNull? && !v.value.JStr?
  {
    NullableString(KeyName(KDescription), At(obj, KDescription), AnyString)
  }

  function CreatedAtCheck(obj: map<string, Json>, fm: Formats): (c: Check<Option<string>>)
    ensures At(obj, KCreatedAt).None? ==> c == Pass(None)
    ensures c.Pass? && c.value.Some? ==> fm.datetime(c.value.value) && At(obj, KCreatedAt) == Some(JStr(c.value.value))
    ensures var v := At(obj, KCreatedAt);
      v.Some? && v.value.JStr? && !fm.datetime(v.value.s) ==> c.Fail?
  {
    OptionalString(KeyName(KCreatedAt), At(obj, KCreatedAt), fm.datetime)
  }

  function UpdatedAtCheck(obj: map<string, Json>, fm: Formats): (c: Check<Option<string>>)
    ensures At(obj, KUpdatedAt).None? ==> c == Pass(None)
    ensures c.Pass? && c.value.Some? ==> fm.datetime(c.value.value) && At(obj, KUpdatedAt) == Some(JStr(c.value.value))
    ensures var v := At(obj, KUpdatedAt);
      v.Some? && v.value.JStr? && !fm.datetime(v.value.s) ==> c.Fail?
  {
    OptionalString(KeyName(KUpdatedAt), At(obj, KUpdatedAt), fm.datetime)
  }

  /** `meetingSchema.safeParse(input)`: the record, or every issue found. */
  function Parse(input: Json, fm: Formats): (r: Result<Meeting, seq<Issue>>)
    ensures r.Err? ==> r.error != []
    ensures !input.JObj? ==> r == Err([NotAnObject])
  {
    match input
    case JObj(obj) =>
      var id := IdCheck(obj, fm);
      var name := NameCheck(obj);
      var description := DescriptionCheck(obj);
      var created := CreatedAtCheck(obj, fm);
      var updated := UpdatedAtCheck(obj, fm);
      if id.Pass? && name.Pass? && description.Pass? && created.Pass? && updated.Pass?
      then Ok(Meeting(id.value, name.value, description.value, created.value, updated.value))
      else Err(IssuesOf(id) + IssuesOf(name) + IssuesOf(description) + IssuesOf(created) + IssuesOf(updated))
    case _ => Err([NotAnObject])
  }

  /** `createMeetingSchema.safeParse(input)`: `id` and the timestamps are neither checked nor returned. */
  function ParseCreate(input: Json, fm: Formats): (r: Result<Meeting, seq<Issue>>)
    ensures r.Ok? ==> r.value.id.None? && r.value.created_at.None? && r.value.updated_at.None?
    ensures r.Err? ==> r.error != []
  {
    match input
    case JObj(obj) =>
      var r := Parse(JObj(obj - ServerNames()), fm);
      assert r.Ok? ==> At(obj - ServerNames(), KId).None?;
      assert r.Ok? ==> At(obj - ServerNames(), KCreatedAt).None? && At(obj - ServerNames(), KUpdatedAt).None?;
      r
    case _ => Err([NotAnObject])
  }

  /** The fields a meeting update may carry. */
  datatype MeetingPatch = MeetingPatch(name: Option<string>, description: Nullish<string>)

  /** `updateMeetingSchema.safeParse(input)`: every sent field is checked, none is required. */
  function ParseUpdate(input: Json, fm: Formats): (r: Result<MeetingPatch, seq<Issue>>)
    ensures r.Err? ==> r.error != []
  {
    match input
    case JObj(obj) =>
      var name := Optional(At(obj, KName), NameCheck(obj));
      var description := DescriptionCheck(obj);
      if name.Pass? && description.Pass?
      then Ok(MeetingPatch(name.value, description.value))
      else Err(IssuesOf(name) + IssuesOf(description))
    case _ => Err([NotAnObject])
  }

  /** What `meetingSchema` demands of a typed record. */
  predicate WellFormed(m: Meeting, fm: Formats) {
    && (m.id.Some? ==> fm.uuid(m.id.value))
    && m.name != ""
    && (m.created_at.Some? ==> fm.datetime(m.created_at.value))
    && (m.updated_at.Some? ==> fm.datetime(m.updated_at.value))
  }

  function ValueAt(m: Meeting, k: Key): Option<Json> {
    match k
    case KId => OptionJson(m.id)
    case KName => Some(JStr(m.name))
    case KDescription => NullableJson(m.description)
    case KCreatedAt => OptionJson(m.created_at)
    case KUpdatedAt => OptionJson(m.updated_at)
  }

  function Build(m: Meeting, keys: seq<Key>): map<string, Json> {
    if keys == [] then map[]
    else
      var rest := Build(m, keys[1..]);
      if ValueAt(m, keys[0]).Some? then rest[KeyName(keys[0]) := ValueAt(m, keys[0]).value] else rest
  }

  lemma {:induction false} BuildAt(m: Meeting, keys: seq<Key>, k: Key)
    ensures Field(Build(m, keys), KeyName(k)) == if k in keys then ValueAt(m, k) else None
  {
    if keys != [] {
      BuildAt(m, keys[1..], k);
      KeyNameInjective(keys[0], k);
      if keys[0] != k {
        assert k in keys <==> k in keys[1..];
      }
    }
  }

  /** A meeting row as the store returns it. */
  function ToJson(m: Meeting): Json {
    JObj(Build(m, KeyOrder))
  }

  /** Checking a stored meeting row passes exactly when the record is well formed, and gives it back. */
  lemma ParseToJson(m: Meeting, fm: Formats)
    ensures Parse(ToJson(m), fm).Ok? <==> WellFormed(m, fm)
    ensures Parse(ToJson(m), fm).Ok? ==> Parse(ToJson(m), fm).value == m
  {
    BuildAt(m, KeyOrder, KId);
    BuildAt(m, KeyOrder, KName);
    BuildAt(m, KeyOrder, KDescription);
    BuildAt(m, KeyOrder, KCreatedAt);
    BuildAt(m, KeyOrder, KUpdatedAt);
    OptionalStringOfJson(KeyName(KId), m.id, fm.uuid);
    NullableStringOfJson(KeyName(KDescription), m.description, AnyString);
    OptionalStringOfJson(KeyName(KCreatedAt), m.created_at, fm.datetime);
    OptionalStringOfJson(KeyName(KUpdatedAt), m.updated_at, fm.datetime);
  }

  /** An empty meeting name is rejected with the meeting's own message. */
  lemma EmptyNameRejected(obj: map<string, Json>, fm: Formats)
    requires At(obj, KName) == Some(JStr(""))
    ensures Parse(JObj(obj), fm).Err?
    ensures Issue("name", TooSmall, Some("모임 이름은 필수입니다")) in Parse(JObj(obj), fm).error
  {
  }

  /** The description may be missing, `null` or any string. */
  lemma DescriptionOptional(obj: map<string, Json>, fm: Formats)
    requires At(obj, KDescription).None? || At(obj, KDescription) == Some(JNull) || At(obj, KDescription).value.JStr?
    ensures DescriptionCheck(obj).Pass?
  {
  }

  /** The create schema ignores `id` and the timestamps, whatever they hold. */
  lemma CreateIgnoresServerKeys(obj: map<string, Json>, key: string, v: Json, fm: Formats)
    requires key in ServerNames()
    ensures ParseCreate(JObj(obj[key := v]), fm) == ParseCreate(JObj(obj), fm)
  {
    var s := ServerNames();
    var o1, o2 := obj[key := v] - s, obj - s;
    forall k ensures At(o1, k) == At(o2, k) {
      KeyNameInjective(k, KId);
      KeyNameInjective(k, KCreatedAt);
      KeyNameInjective(k, KUpdatedAt);
    }
    assert At(o1, KName) == At(o2, KName) && At(o1, KDescription) == At(o2, KDescription);
    assert At(o1, KId) == At(o2, KId) && At(o1, KCreatedAt) == At(o2, KCreatedAt) && At(o1, KUpdatedAt) == At(o2, KUpdatedAt);
  }

  /** An update may send nothing; a sent name is still checked, with the same message. */
  lemma UpdateFieldsOptional(obj: map<string, Json>, fm: Formats)
    ensures ParseUpdate(JObj(map[]), fm) == Ok(MeetingPatch(None, Absent))
    ensures At(obj, KName) == Some(JStr("")) ==>
      ParseUpdate(JObj(obj), fm).Err? && Issue("name", TooSmall, Some("모임 이름은 필수입니다")) in ParseUpdate(JObj(obj), fm).error
  {
  }
}
