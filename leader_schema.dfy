/**
 * The leader record and its schemas (lib/validations/leader.ts): gender,
 * name, phone, the assigned meeting and the Google account address, with
 * the same create/update shape as the other records.
 */
module LeaderSchema {
  import opened Wrappers
  import opened Patterns
  import opened SchemaFields

  /** A leader as `leaderSchema` returns it. */
  datatype Leader = Leader(
    id: Option<string>,
    gender: Gender,
    name: string,
    phone: string,
    assigned_meeting_id: Nullish<string>,
    google_email: string,
    created_at: Option<string>,
    updated_at: Option<string>)

  datatype Key = KId | KGender | KName | KPhone | KAssignedMeeting | KGoogleEmail | KCreatedAt | KUpdatedAt

  function KeyName(k: Key): string {
    match k
    case KId => "id"
    case KGender => "gender"
    case KName => "name"
    case KPhone => "phone"
    case KAssignedMeeting => "assigned_meeting_id"
    case KGoogleEmail => "google_email"
    case KCreatedAt => "created_at"
    case KUpdatedAt => "updated_at"
  }

  lemma KeyNameInjective(a: Key, b: Key)
    ensures KeyName(a) == KeyName(b) ==> a == b
  {
  }

  const KeyOrder: seq<Key> := [KId, KGender, KName, KPhone, KAssignedMeeting, KGoogleEmail, KCreatedAt, KUpdatedAt]

  /** The keys the create and update schemas omit. */
  function ServerNames(): set<string> {
    {KeyName(KId), KeyName(KCreatedAt), KeyName(KUpdatedAt)}
  }

  const NameRequired := "이름은 필수입니다"
  const PhoneMessage := "올바른 전화번호 형식이 아닙니다"
  const EmailMessage := "올바른 이메일 형식이 아닙니다"

  function At(obj: map<string, Json>, k: Key): Option<Json> {
    Field(obj, KeyName(k))
  }

  // The check of each field of `leaderSchema`.

  function IdCheck(obj: map<string, Json>, fm: Formats): (c: Check<Option<string>>)
    ensures At(obj, KId).None? ==> c == Pass(None)
    ensures c.Pass? && c.value.Some? ==> fm.uuid(c.value.value) && At(obj, KId) == Some(JStr(c.value.value))
    ensures var v := At(obj, KId);
      v.Some? && v.value.JStr? && !fm.uuid(v.value.s) ==> c.Fail?
  {
    OptionalString(KeyName(KId), At(obj, KId), fm.uuid)
  }

  function GenderCheck(obj: map<string, Json>): (c: Check<Gender>)
    ensures c == Pass(Male) <==> At(obj, KGender) == Some(JStr("male"))
    ensures c == Pass(Female) <==> At(obj, KGender) == Some(JStr("female"))
  {
    GenderField(KeyName(KGender), At(obj, KGender))
  }

  function NameCheck(obj: map<string, Json>): (c: Check<string>)
    ensures c.Pass? ==> c.value != "" && At(obj, KName) == Some(JStr(c.value))
    ensures At(obj, KName) == Some(JStr("")) ==>
        c == Fail([Issue(KeyName(KName), TooSmall, Some(NameRequired))])
    ensures At(obj, KName).None? ==> c.Fail?
  {
    NonEmptyString(KeyName(KName), At(obj, KName), NameRequired)
  }

  function PhoneCheck(obj: map<string, Json>): (c: Check<string>)
    ensures c.Pass? ==> IsPhone(c.value) && At(obj, KPhone) == Some(JStr(c.value))
    ensures var v := At(obj, KPhone);
      v.Some? && v.value.JStr? && !IsPhone(v.value.s) ==>
        c == Fail([Issue(KeyName(KPhone), InvalidString, Some(PhoneMessage))])
    ensures At(obj, KPhone).None? ==> c.Fail?
  {
    FormattedString(KeyName(KPhone), At(obj, KPhone), IsPhone, Some(PhoneMessage))
  }

  function AssignedMeetingCheck(obj: map<string, Json>, fm: Formats): (c: Check<Nullish<string>>)
    ensures At(obj, KAssignedMeeting).None? ==> c == Pass(Absent)
    ensures At(obj, KAssignedMeeting) == Some(JNull) ==> c == Pass(Null)
    ensures c.Pass? && c.value.Present? ==> fm.uuid(c.value.value) && At(obj, KAssignedMeeting) == Some(JStr(c.value.value))
  {
    NullableString(KeyName(KAssignedMeeting), At(obj, KAssignedMeeting), fm.uuid)
  }

  function GoogleEmailCheck(obj: map<string, Json>, fm: Formats): (c: Check<string>)
    ensures c.Pass? ==> fm.email(c.value) && At(obj, KGoogleEmail) == Some(JStr(c.value))
    ensures var v := At(obj, KGoogleEmail);
      v.Some? && v.value.JStr? && !fm.email(v.value.s) ==>
        c == Fail([Issue(KeyName(KGoogleEmail), InvalidString, Some(EmailMessage))])
    ensures At(obj, KGoogleEmail).None? ==> c.Fail?
  {
    FormattedString(KeyName(KGoogleEmail), At(obj, KGoogleEmail), fm.email, Some(EmailMessage))
  }

  function CreatedAtCheck(obj: map<string, Json>, fm: Formats): (c: Check<Option<string>>)
    ensures At(obj, KCreatedAt).None? ==> c == Pass(None)
    ensures c.Pass? && c.value.Some? ==> fm.datetime(c.value.value) && At(obj, KCreatedAt) == Some(JStr(c.value.value))
    ensures var v := At(obj, KCreatedAt);
      v.Some? && v.value.JStr? && !fm.datetime(v.value.s) ==> c.Fail?
  {
    OptionalString(KeyName(KCreatedAt), At(obj, KCreatedAt), fm.datetime)
  }

  function UpdatedAtCheck(obj: map<string, Json>, fm: Formats): (c: Check<Option<string>>)
    ensures At(obj, KUpdatedAt).None? ==> c == Pass(None)
    ensures c.Pass? && c.value.Some? ==> fm.datetime(c.value.value) && At(obj, KUpdatedAt) == Some(JStr(c.value.value))
    ensures var v := At(obj, KUpdatedAt);
      v.Some? && v.value.JStr? && !fm.datetime(v.value.s) ==> c.Fail?
  {
    OptionalString(KeyName(KUpdatedAt), At(obj, KUpdatedAt), fm.datetime)
  }

  /** `leaderSchema.safeParse(input)`: the record, or every issue found. */
  function Parse(input: Json, fm: Formats): (r: Result<Leader, seq<Issue>>)
    ensures r.Err? ==> r.error != []
    ensures !input.JObj? ==> r == Err([NotAnObject])
  {
    match input
    case JObj(obj) =>
      var id := IdCheck(obj, fm);
      var gender := GenderCheck(obj);
      var name := NameCheck(obj);
      var phone := PhoneCheck(obj);
      var meeting := AssignedMeetingCheck(obj, fm);
      var email := GoogleEmailCheck(obj, fm);
      var created := CreatedAtCheck(obj, fm);
      var updated := UpdatedAtCheck(obj, fm);
      if && id.Pass? && gender.Pass? && name.Pass? && phone.Pass? && meeting.Pass? && email.Pass?
         && created.Pass? && updated.Pass?
      then Ok(Leader(id.value, gender.value, name.value, phone.value, meeting.value, email.value, created.value, updated.value))
      else Err(IssuesOf(id) + IssuesOf(gender) + IssuesOf(name) + IssuesOf(phone) + IssuesOf(meeting)
        + IssuesOf(email) + IssuesOf(created) + IssuesOf(updated))
    case _ => Err([NotAnObject])
  }

  /** `createLeaderSchema.safeParse(input)`: `id` and the timestamps are neither checked nor returned. */
  function ParseCreate(input: Json, fm: Formats): (r: Result<Leader, seq<Issue>>)
    ensures r.Ok? ==> r.value.id.None? && r.value.created_at.None? && r.value.updated_at.None?
    ensures r.Err? ==> r.error != []
  {
    match input
    case JObj(obj) =>
      var r := Parse(JObj(obj - ServerNames()), fm);
      assert r.Ok? ==> At(obj - ServerNames(), KId).None?;
      assert r.Ok? ==> At(obj - ServerNames(), KCreatedAt).None? && At(obj - ServerNames(), KUpdatedAt).None?;
      r
    case _ => Err([NotAnObject])
  }

  /** The fields a leader update may carry. */
  datatype LeaderPatch = LeaderPatch(
    gender: Option<Gender>,
    name: Option<string>,
    phone: Option<string>,
    assigned_meeting_id: Nullish<string>,
    google_email: Option<string>)

  /** `updateLeaderSchema.safeParse(input)`: every sent field is checked, none is required. */
  function ParseUpdate(input: Json, fm: Formats): (r: Result<LeaderPatch, seq<Issue>>)
    ensures r.Err? ==> r.error != []
  {
    match input
    case JObj(obj) =>
      var gender := Optional(At(obj, KGender), GenderCheck(obj));
      var name := Optional(At(obj, KName), NameCheck(obj));
      var phone := Optional(At(obj, KPhone), PhoneCheck(obj));
      var meeting := AssignedMeetingCheck(obj, fm);
      var email := Optional(At(obj, KGoogleEmail), GoogleEmailCheck(obj, fm));
      if gender.Pass? && name.Pass? && phone.Pass? && meeting.Pass? && email.Pass?
      then Ok(LeaderPatch(gender.value, name.value, phone.value, meeting.value, email.value))
      else Err(IssuesOf(gender) + IssuesOf(name) + IssuesOf(phone) + IssuesOf(meeting) + IssuesOf(email))
    case _ => Err([NotAnObject])
  }

  /** What `leaderSchema` demands of a typed record. */
  predicate WellFormed(l: Leader, fm: Formats) {
    && (l.id.Some? ==> fm.uuid(l.id.value))
    && l.name != ""
    && IsPhone(l.phone)
    && (l.assigned_meeting_id.Present? ==> fm.uuid(l.assigned_meeting_id.value))
    && fm.email(l.google_email)
    && (l.created_at.Some? ==> fm.datetime(l.created_at.value))
    && (l.updated_at.Some? ==> fm.datetime(l.updated_at.value))
  }

  function ValueAt(l: Leader, k: Key): Option<Json> {
    match k
    case KId => OptionJson(l.id)
    case KGender => Some(JStr(GenderText(l.gender)))
    case KName => Some(JStr(l.name))
    case KPhone => Some(JStr(l.phone))
    case KAssignedMeeting => NullableJson(l.assigned_meeting_id)
    case KGoogleEmail => Some(JStr(l.google_email))
    case KCreatedAt => OptionJson(l.created_at)
    case KUpdatedAt => OptionJson(l.updated_at)
  }

  function Build(l: Leader, keys: seq<Key>): map<string, Json> {
    if keys == [] then map[]
    else
      var m := Build(l, keys[1..]);
      if ValueAt(l, keys[0]).Some? then m[KeyName(keys[0]) := ValueAt(l, keys[0]).value] else m
  }

  lemma {:induction false} BuildAt(l: Leader, keys: seq<Key>, k: Key)
    ensures Field(Build(l, keys), KeyName(k)) == if k in keys then ValueAt(l, k) else None
  {
    if keys != [] {
      BuildAt(l, keys[1..], k);
      KeyNameInjective(keys[0], k);
      if keys[0] != k {
        assert k in keys <==> k in keys[1..];
      }
    }
  }

  /** A leader row as the store returns it. */
  function ToJson(l: Leader): Json {
    JObj(Build(l, KeyOrder))
  }

  lemma ChecksOfToJsonA(l: Leader, fm: Formats)
    ensures var obj := ToJson(l).fields;
      && (IdCheck(obj, fm).Pass? <==> (l.id.Some? ==> fm.uuid(l.id.value)))
      && (IdCheck(obj, fm).Pass? ==> IdCheck(obj, fm).value == l.id)
      && GenderCheck(obj) == Pass(l.gender)
  {
    BuildAt(l, KeyOrder, KId);
    BuildAt(l, KeyOrder, KGender);
    OptionalStringOfJson(KeyName(KId), l.id, fm.uuid);
    GenderOfText(KeyName(KGender), l.gender);
  }

  lemma ChecksOfToJsonC(l: Leader, fm: Formats)
    ensures var obj := ToJson(l).fields;
      && (NameCheck(obj).Pass? <==> l.name != "") && (NameCheck(obj).Pass? ==> NameCheck(obj).value == l.name)
      && (PhoneCheck(obj).Pass? <==> IsPhone(l.phone)) && (PhoneCheck(obj).Pass? ==> PhoneCheck(obj).value == l.phone)
  {
    BuildAt(l, KeyOrder, KName);
    BuildAt(l, KeyOrder, KPhone);
  }

  lemma ChecksOfToJsonB(l: Leader, fm: Formats)
    ensures var obj := ToJson(l).fields;
      && (AssignedMeetingCheck(obj, fm).Pass? <==> (l.assigned_meeting_id.Present? ==> fm.uuid(l.assigned_meeting_id.value)))
      && (AssignedMeetingCheck(obj, fm).Pass? ==> AssignedMeetingCheck(obj, fm).value == l.assigned_meeting_id)
      && (GoogleEmailCheck(obj, fm).Pass? <==> fm.email(l.google_email))
      && (GoogleEmailCheck(obj, fm).Pass? ==> GoogleEmailCheck(obj, fm).value == l.google_email)
  {
    BuildAt(l, KeyOrder, KAssignedMeeting);
    BuildAt(l, KeyOrder, KGoogleEmail);
    NullableStringOfJson(KeyName(KAssignedMeeting), l.assigned_meeting_id, fm.uuid);
  }

  lemma ChecksOfToJsonD(l: Leader, fm: Formats)
    ensures var obj := ToJson(l).fields;
      && (CreatedAtCheck(obj, fm).Pass? <==> (l.created_at.Some? ==> fm.datetime(l.created_at.value)))
      && (CreatedAtCheck(obj, fm).Pass? ==> CreatedAtCheck(obj, fm).value == l.created_at)
      && (UpdatedAtCheck(obj, fm).Pass? <==> (l.updated_at.Some? ==> fm.datetime(l.updated_at.value)))
      && (UpdatedAtCheck(obj, fm).Pass? ==> UpdatedAtCheck(obj, fm).value == l.updated_at)
  {
    BuildAt(l, KeyOrder, KCreatedAt);
    BuildAt(l, KeyOrder, KUpdatedAt);
    OptionalStringOfJson(KeyName(KCreatedAt), l.created_at, fm.datetime);
    OptionalStringOfJson(KeyName(KUpdatedAt), l.updated_at, fm.datetime);
  }

  /** Checking a stored leader row passes exactly when the record is well formed, and gives it back. */
  lemma ParseToJson(l: Leader, fm: Formats)
    ensures Parse(ToJson(l), fm).Ok? <==> WellFormed(l, fm)
    ensures Parse(ToJson(l), fm).Ok? ==> Parse(ToJson(l), fm).value == l
  {
    ChecksOfToJsonA(l, fm);
    ChecksOfToJsonB(l, fm);
    ChecksOfToJsonC(l, fm);
    ChecksOfToJsonD(l, fm);
  }

  /** Only `'male'` and `'female'` are genders, and an empty name is rejected with its message. */
  lemma GenderAndNameRules(obj: map<string, Json>, fm: Formats)
    ensures Parse(JObj(obj), fm).Ok? ==> At(obj, KGender) in {Some(JStr("male")), Some(JStr("female"))}
    ensures At(obj, KName) == Some(JStr("")) ==>
      Parse(JObj(obj), fm).Err? && Issue("name", TooSmall, Some("이름은 필수입니다")) in Parse(JObj(obj), fm).error
  {
  }

  /** The phone is checked by the same recogniser as a participant's, with the same message. */
  lemma PhoneRule(obj: map<string, Json>, s: string, fm: Formats)
    requires At(obj, KPhone) == Some(JStr(s))
    ensures Parse(JObj(obj), fm).Ok? ==> IsPhone(s)
    ensures !IsPhone(s) ==> Issue("phone", InvalidString, Some("올바른 전화번호 형식이 아닙니다")) in Parse(JObj(obj), fm).error
  {
  }

  /** The Google address must be one the e-mail format accepts; otherwise it is reported with its message. */
  lemma EmailRule(obj: map<string, Json>, s: string, fm: Formats)
    requires At(obj, KGoogleEmail) == Some(JStr(s))
    ensures Parse(JObj(obj), fm).Ok? ==> fm.email(s) && Parse(JObj(obj), fm).value.google_email == s
    ensures !fm.email(s) ==> Issue("google_email", InvalidString, Some("올바른 이메일 형식이 아닙니다")) in Parse(JObj(obj), fm).error
  {
  }

  /** The assigned meeting may be missing or `null`; neither makes the parse fail. */
  lemma AssignedMeetingOptional(obj: map<string, Json>, fm: Formats)
    requires At(obj, KAssignedMeeting).None? || At(obj, KAssignedMeeting) == Some(JNull)
    ensures AssignedMeetingCheck(obj, fm).Pass?
    ensures Parse(JObj(obj), fm).Ok? ==>
      Parse(JObj(obj), fm).value.assigned_meeting_id == (if At(obj, KAssignedMeeting).None? then Absent else Null)
  {
  }

  /** The create schema ignores `id` and the timestamps, whatever they hold. */
  lemma CreateIgnoresServerKeys(obj: map<string, Json>, key: string, v: Json, fm: Formats)
    requires key in ServerNames()
    ensures ParseCreate(JObj(obj[key := v]), fm) == ParseCreate(JObj(obj), fm)
  {
    var s := ServerNames();
    var o1, o2 := obj[key := v] - s, obj - s;
    forall k ensures At(o1, k) == At(o2, k) {
      KeyNameInjective(k, KId);
      KeyNameInjective(k, KCreatedAt);
      KeyNameInjective(k, KUpdatedAt);
    }
    assert At(o1, KGender) == At(o2, KGender) && At(o1, KName) == At(o2, KName);
    assert At(o1, KPhone) == At(o2, KPhone) && At(o1, KAssignedMeeting) == At(o2, KAssignedMeeting);
    assert At(o1, KGoogleEmail) == At(o2, KGoogleEmail);
    assert At(o1, KId) == At(o2, KId) && At(o1, KCreatedAt) == At(o2, KCreatedAt) && At(o1, KUpdatedAt) == At(o2, KUpdatedAt);
  }

  /** An update may send nothing at all; a sent field is checked as strictly as on create. */
  lemma UpdateFieldsOptional(obj: map<string, Json>, fm: Formats)
    ensures ParseUpdate(JObj(map[]), fm) == Ok(LeaderPatch(None, None, None, Absent, None))
    ensures At(obj, KName) == Some(JStr("")) ==> ParseUpdate(JObj(obj), fm).Err?
    ensures ParseUpdate(JObj(obj), fm).Ok? && At(obj, KGoogleEmail).Some? ==>
      ParseUpdate(JObj(obj), fm).value.google_email.Some? && fm.email(ParseUpdate(JObj(obj), fm).value.google_email.value)
  {
  }
}
