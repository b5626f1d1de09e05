/**
 * The participant record and its three schemas (lib/validations/participant.ts):
 * the full schema that every row read from the store passes through, the
 * create schema without the server-assigned keys, and the update schema in
 * which every remaining field is optional.
 */
module ParticipantSchema {
  import opened Wrappers
  import opened Patterns
  import opened SchemaFields

  /** A participant as the full schema returns it. */
  datatype Participant = Participant(
    id: Option<string>,
    gender: Gender,
    age: int,
    name: string,
    months: int,
    first_registration_month: string,
    phone: string,
    fee: int,
    re_registration: bool,
    latest_registration: string,
    current_meeting_id: Nullish<string>,
    notes: Nullish<string>,
    past_meetings: seq<string>,
    created_at: Option<string>,
    updated_at: Option<string>)

  /** The keys the full schema declares. */
  datatype Key =
    | KId | KGender | KAge | KName | KMonths | KFirstRegistration | KPhone | KFee
    | KReRegistration | KLatestRegistration | KCurrentMeeting | KNotes | KPastMeetings
    | KCreatedAt | KUpdatedAt

  function KeyName(k: Key): string {
    match k
    case KId => "id"
    case KGender => "gender"
    case KAge => "age"
    case KName => "name"
    case KMonths => "months"
    case KFirstRegistration => "first_registration_month"
    case KPhone => "phone"
    case KFee => "fee"
    case KReRegistration => "re_registration"
    case KLatestRegistration => "latest_registration"
    case KCurrentMeeting => "current_meeting_id"
    case KNotes => "notes"
    case KPastMeetings => "past_meetings"
    case KCreatedAt => "created_at"
    case KUpdatedAt => "updated_at"
  }

  lemma KeyNameInjective(a: Key, b: Key)
    ensures KeyName(a) == KeyName(b) ==> a == b
  {
    if KeyName(a) == KeyName(b) {
      var s := KeyName(a);
      assert |s| > 0;
      match a
      case KId => assert s[0] == 'i';
      case _ =>
    }
  }

  /** The names of the declared keys; any other key of the input is dropped by every parse. */
  function DeclaredNames(): (names: set<string>)
    ensures forall k :: KeyName(k) in names
  {
    set k | k in KeyOrder :: KeyName(k)
  }

  /** The keys the create and update schemas omit. */
  function ServerNames(): set<string> {
    {KeyName(KId), KeyName(KCreatedAt), KeyName(KUpdatedAt)}
  }

  const NameRequired := "이름은 필수입니다"
  const MonthFormatMessage := "올바른 형식이 아닙니다 (YYYY-MM)"
  const PhoneMessage := "올바른 전화번호 형식이 아닙니다"

  /** The value under a declared key. */
  function At(obj: map<string, Json>, k: Key): Option<Json> {
    Field(obj, KeyName(k))
  }

  /** The outcome of every field check of the full schema, for one input object. */
  datatype Checks = Checks(
    id: Check<Option<string>>,
    gender: Check<Gender>,
    age: Check<int>,
    name: Check<string>,
    months: Check<int>,
    first_registration_month: Check<string>,
    phone: Check<string>,
    fee: Check<int>,
    re_registration: Check<bool>,
    latest_registration: Check<string>,
    current_meeting_id: Check<Nullish<string>>,
    notes: Check<Nullish<string>>,
    past_meetings: Check<seq<string>>,
    created_at: Check<Option<string>>,
    updated_at: Check<Option<string>>)

  // The check of each field of `participantSchema`, one function per key.

  function IdCheck(obj: map<string, Json>, fm: Formats): (c: Check<Option<string>>)
    ensures At(obj, KId).None? ==> c == Pass(None)
    ensures c.Pass? && c.value.Some? ==> fm.uuid(c.value.value) && At(obj, KId) == Some(JStr(c.value.value))
    ensures var v := At(obj, KId);
      v.Some? && v.value.JStr? && !fm.uuid(v.value.s) ==> c.Fail?
  {
    OptionalString(KeyName(KId), At(obj, KId), fm.uuid)
  }

  function GenderCheck(obj: map<string, Json>): (c: Check<Gender>)
    ensures c == Pass(Male) <==> At(obj, KGender) == Some(JStr("male"))
    ensures c == Pass(Female) <==> At(obj, KGender) == Some(JStr("female"))
  {
    GenderField(KeyName(KGender), At(obj, KGender))
  }

  function AgeCheck(obj: map<string, Json>): (c: Check<int>)
    ensures c.Pass? ==> c.value > 0 && At(obj, KAge) == Some(JNum(c.value as real))
    ensures At(obj, KAge).None? ==> c.Fail?
  {
    IntegerField(KeyName(KAge), At(obj, KAge), true, None)
  }

  function NameCheck(obj: map<string, Json>): (c: Check<string>)
    ensures c.Pass? ==> c.value != "" && At(obj, KName) == Some(JStr(c.value))
    ensures At(obj, KName) == Some(JStr("")) ==>
        c == Fail([Issue(KeyName(KName), TooSmall, Some(NameRequired))])
    ensures At(obj, KName).None? ==> c.Fail?
  {
    NonEmptyString(KeyName(KName), At(obj, KName), NameRequired)
  }

  function MonthsCheck(obj: map<string, Json>): (c: Check<int>)
    ensures c.Pass? ==> c.value >= 0
    ensures At(obj, KMonths).None? ==> c == Pass(0)
    ensures var v := At(obj, KMonths);
      c.Pass? && v.Some? ==> v == Some(JNum(c.value as real))
  {
    IntegerField(KeyName(KMonths), At(obj, KMonths), false, Some(0))
  }

  function FirstRegistrationCheck(obj: map<string, Json>): (c: Check<string>)
    ensures c.Pass? ==> IsYearMonth(c.value) && At(obj, KFirstRegistration) == Some(JStr(c.value))
    ensures var v := At(obj, KFirstRegistration);
      v.Some? && v.value.JStr? && !IsYearMonth(v.value.s) ==>
        c == Fail([Issue(KeyName(KFirstRegistration), InvalidString, Some(MonthFormatMessage))])
    ensures At(obj, KFirstRegistration).None? ==> c.Fail?
  {
    FormattedString(KeyName(KFirstRegistration), At(obj, KFirstRegistration), IsYearMonth, Some(MonthFormatMessage))
  }

  function PhoneCheck(obj: map<string, Json>): (c: Check<string>)
    ensures c.Pass? ==> IsPhone(c.value) && At(obj, KPhone) == Some(JStr(c.value))
    ensures var v := At(obj, KPhone);
      v.Some? && v.value.JStr? && !IsPhone(v.value.s) ==>
        c == Fail([Issue(KeyName(KPhone), InvalidString, Some(PhoneMessage))])
    ensures At(obj, KPhone).None? ==> c.Fail?
  {
    FormattedString(KeyName(KPhone), At(obj, KPhone), IsPhone, Some(PhoneMessage))
  }

  function FeeCheck(obj: map<string, Json>): (c: Check<int>)
    ensures c.Pass? ==> c.value >= 0 && At(obj, KFee) == Some(JNum(c.value as real))
    ensures At(obj, KFee).None? ==> c.Fail?
  {
    IntegerField(KeyName(KFee), At(obj, KFee), false, None)
  }

  function ReRegistrationCheck(obj: map<string, Json>): (c: Check<bool>)
    ensures At(obj, KReRegistration).None? ==> c == Pass(false)
    ensures var v := At(obj, KReRegistration);
      v.Some? ==> (c.Pass? <==> v.value.JBool?)
    ensures var v := At(obj, KReRegistration);
      c.Pass? && v.Some? ==> v == Some(JBool(c.value))
  {
    BooleanField(KeyName(KReRegistration), At(obj, KReRegistration), Some(false))
  }

  function LatestRegistrationCheck(obj: map<string, Json>): (c: Check<string>)
    ensures c.Pass? ==> IsYearMonth(c.value) && At(obj, KLatestRegistration) == Some(JStr(c.value))
    ensures var v := At(obj, KLatestRegistration);
      v.Some? && v.value.JStr? && !IsYearMonth(v.value.s) ==>
        c == Fail([Issue(KeyName(KLatestRegistration), InvalidString, Some(MonthFormatMessage))])
    ensures At(obj, KLatestRegistration).None? ==> c.Fail?
  {
    FormattedString(KeyName(KLatestRegistration), At(obj, KLatestRegistration), IsYearMonth, Some(MonthFormatMessage))
  }

  function CurrentMeetingCheck(obj: map<string, Json>, fm: Formats): (c: Check<Nullish<string>>)
    ensures At(obj, KCurrentMeeting).None? ==> c == Pass(Absent)
    ensures At(obj, KCurrentMeeting) == Some(JNull) ==> c == Pass(Null)
    ensures c.Pass? && c.value.Present? ==> fm.uuid(c.value.value) && At(obj, KCurrentMeeting) == Some(JStr(c.value.value))
  {
    NullableString(KeyName(KCurrentMeeting), At(obj, KCurrentMeeting), fm.uuid)
  }

  function NotesCheck(obj: map<string, Json>): (c: Check<Nullish<string>>)
    ensures At(obj, KNotes).None? ==> c == Pass(Absent)
    ensures At(obj, KNotes) == Some(JNull) ==> c == Pass(Null)
    ensures var v := At(obj, KNotes);
      v.Some? && v.value.JStr? ==> c == Pass(Present(v.value.s))
    ensures var v := At(obj, KNotes);
      c.Fail? <==> v.Some? && !v.value.JNull? && !v.value.JStr?
  {
    NullableString(KeyName(KNotes), At(obj, KNotes), AnyString)
  }

  function PastMeetingsCheck(obj: map<string, Json>): (c: Check<seq<string>>)
    ensures At(obj, KPastMeetings).None? ==> c == Pass([])
    ensures var v := At(obj, KPastMeetings);
      c.Pass? <==> v.None? || (v.value.JArr? && forall i :: 0 <= i < |v.value.items| ==> v.value.items[i].JStr?)
    ensures var v := At(obj, KPastMeetings);
      c.Pass? && v.Some? ==> |c.value| == |v.value.items| && forall i :: 0 <= i < |c.value| ==> v.value.items[i] == JStr(c.value[i])
  {
    StringArrayField(KeyName(KPastMeetings), At(obj, KPastMeetings), Some([]))
  }

  function CreatedAtCheck(obj: map<string, Json>, fm: Formats): (c: Check<Option<string>>)
    ensures At(obj, KCreatedAt).None? ==> c == Pass(None)
    ensures c.Pass? && c.value.Some? ==> fm.datetime(c.value.value) && At(obj, KCreatedAt) == Some(JStr(c.value.value))
    ensures var v := At(obj, KCreatedAt);
      v.Some? && v.value.JStr? && !fm.datetime(v.value.s) ==> c.Fail?
  {
    OptionalString(KeyName(KCreatedAt), At(obj, KCreatedAt), fm.datetime)
  }

  function UpdatedAtCheck(obj: map<string, Json>, fm: Formats): (c: Check<Option<string>>)
    ensures At(obj, KUpdatedAt).None? ==> c == Pass(None)
    ensures c.Pass? && c.value.Some? ==> fm.datetime(c.value.value) && At(obj, KUpdatedAt) == Some(JStr(c.value.value))
    ensures var v := At(obj, KUpdatedAt);
      v.Some? && v.value.JStr? && !fm.datetime(v.value.s) ==> c.Fail?
  {
    OptionalString(KeyName(KUpdatedAt), At(obj, KUpdatedAt), fm.datetime)
  }

  /** Every field of `participantSchema` checked against `obj`; zod runs them all, whatever fails. */
  function CheckFields(obj: map<string, Json>, fm: Formats): (c: Checks)
    ensures FailuresReported(c)
  {
    Checks(
      IdCheck(obj, fm), GenderCheck(obj), AgeCheck(obj), NameCheck(obj), MonthsCheck(obj),
      FirstRegistrationCheck(obj), PhoneCheck(obj), FeeCheck(obj), ReRegistrationCheck(obj),
      LatestRegistrationCheck(obj), CurrentMeetingCheck(obj, fm), NotesCheck(obj),
      PastMeetingsCheck(obj), CreatedAtCheck(obj, fm), UpdatedAtCheck(obj, fm))
  }

  /** Every failing field check reports at least one issue. */
  predicate FailuresReported(c: Checks) {
    && (c.id.Fail? ==> c.id.issues != []) && (c.gender.Fail? ==> c.gender.issues != [])
    && (c.age.Fail? ==> c.age.issues != []) && (c.name.Fail? ==> c.name.issues != [])
    && (c.months.Fail? ==> c.months.issues != [])
    && (c.first_registration_month.Fail? ==> c.first_registration_month.issues != [])
    && (c.phone.Fail? ==> c.phone.issues != []) && (c.fee.Fail? ==> c.fee.issues != [])
    && (c.re_registration.Fail? ==> c.re_registration.issues != [])
    && (c.latest_registration.Fail? ==> c.latest_registration.issues != [])
    && (c.current_meeting_id.Fail? ==> c.current_meeting_id.issues != [])
    && (c.notes.Fail? ==> c.notes.issues != [])
    && (c.past_meetings.Fail? ==> c.past_meetings.issues != [])
    && (c.created_at.Fail? ==> c.created_at.issues != [])
    && (c.updated_at.Fail? ==> c.updated_at.issues != [])
  }

  predicate AllPass(c: Checks) {
    && c.id.Pass? && c.gender.Pass? && c.age.Pass? && c.name.Pass? && c.months.Pass?
    && c.first_registration_month.Pass? && c.phone.Pass? && c.fee.Pass? && c.re_registration.Pass?
    && c.latest_registration.Pass? && c.current_meeting_id.Pass? && c.notes.Pass?
    && c.past_meetings.Pass? && c.created_at.Pass? && c.updated_at.Pass?
  }

  function Assemble(c: Checks): Participant
    requires AllPass(c)
  {
    Participant(c.id.value, c.gender.value, c.age.value, c.name.value, c.months.value,
      c.first_registration_month.value, c.phone.value, c.fee.value, c.re_registration.value,
      c.latest_registration.value, c.current_meeting_id.value, c.notes.value,
      c.past_meetings.value, c.created_at.value, c.updated_at.value)
  }

  /** The issues of all fields, in the order the schema declares them. */
  function AllIssues(c: Checks): (issues: seq<Issue>)
    ensures AllPass(c) ==> issues == []
    ensures FailuresReported(c) && !AllPass(c) ==> issues != []
  {
    IssuesOf(c.id) + IssuesOf(c.gender) + IssuesOf(c.age) + IssuesOf(c.name) + IssuesOf(c.months)
    + IssuesOf(c.first_registration_month) + IssuesOf(c.phone) + IssuesOf(c.fee)
    + IssuesOf(c.re_registration) + IssuesOf(c.latest_registration)
    + IssuesOf(c.current_meeting_id) + IssuesOf(c.notes) + IssuesOf(c.past_meetings)
    + IssuesOf(c.created_at) + IssuesOf(c.updated_at)
  }

  /** `participantSchema.safeParse(input)`: the record, or every issue found. */
  function Parse(input: Json, fm: Formats): (r: Result<Participant, seq<Issue>>)
    ensures r.Err? ==> r.error != []
    ensures !input.JObj? ==> r == Err([NotAnObject])
  {
    match input
    case JObj(obj) =>
      var c := CheckFields(obj, fm);
      if AllPass(c) then Ok(Assemble(c)) else Err(AllIssues(c))
    case _ => Err([NotAnObject])
  }

  /** `createParticipantSchema.safeParse(input)`: the omitted keys are neither checked nor returned. */
  function ParseCreate(input: Json, fm: Formats): (r: Result<Participant, seq<Issue>>)
    ensures r.Ok? ==> r.value.id.None? && r.value.created_at.None? && r.value.updated_at.None?
    ensures r.Err? ==> r.error != []
  {
    match input
    case JObj(obj) =>
      var r := Parse(JObj(obj - ServerNames()), fm);
      assert r.Ok? ==> At(obj - ServerNames(), KId).None?;
      assert r.Ok? ==> At(obj - ServerNames(), KCreatedAt).None? && At(obj - ServerNames(), KUpdatedAt).None?;
      r
    case _ => Err([NotAnObject])
  }

  /** What the full schema demands of a typed record. */
  predicate WellFormed(p: Participant, fm: Formats) {
    && (p.id.Some? ==> fm.uuid(p.id.value))
    && p.age > 0
    && p.name != ""
    && p.months >= 0
    && IsYearMonth(p.first_registration_month)
    && IsPhone(p.phone)
    && p.fee >= 0
    && IsYearMonth(p.latest_registration)
    && (p.current_meeting_id.Present? ==> fm.uuid(p.current_meeting_id.value))
    && (p.created_at.Some? ==> fm.datetime(p.created_at.value))
    && (p.updated_at.Some? ==> fm.datetime(p.updated_at.value))
  }

  /** The JSON a record is stored as, key by key; `None` where the key is left out. */
  function ValueAt(p: Participant, k: Key): Option<Json> {
    match k
    case KId => OptionJson(p.id)
    case KGender => Some(JStr(GenderText(p.gender)))
    case KAge => Some(JNum(p.age as real))
    case KName => Some(JStr(p.name))
    case KMonths => Some(JNum(p.months as real))
    case KFirstRegistration => Some(JStr(p.first_registration_month))
    case KPhone => Some(JStr(p.phone))
    case KFee => Some(JNum(p.fee as real))
    case KReRegistration => Some(JBool(p.re_registration))
    case KLatestRegistration => Some(JStr(p.latest_registration))
    case KCurrentMeeting => NullableJson(p.current_meeting_id)
    case KNotes => NullableJson(p.notes)
    case KPastMeetings => Some(JArr(StringsJson(p.past_meetings)))
    case KCreatedAt => OptionJson(p.created_at)
    case KUpdatedAt => OptionJson(p.updated_at)
  }

  /** The object built from the record's values under `keys`, skipping the keys it leaves out. */
  function Build(p: Participant, keys: seq<Key>): map<string, Json> {
    if keys == [] then map[]
    else
      var m := Build(p, keys[1..]);
      if ValueAt(p, keys[0]).Some? then m[KeyName(keys[0]) := ValueAt(p, keys[0]).value] else m
  }

  lemma {:induction false} BuildAt(p: Participant, keys: seq<Key>, k: Key)
    ensures Field(Build(p, keys), KeyName(k)) == if k in keys then ValueAt(p, k) else None
  {
    if keys != [] {
      BuildAt(p, keys[1..], k);
      KeyNameInjective(keys[0], k);
      if keys[0] != k {
        assert k in keys <==> k in keys[1..];
      }
    }
  }

  const KeyOrder: seq<Key> := [
    KId, KGender, KAge, KName, KMonths, KFirstRegistration, KPhone, KFee, KReRegistration,
    KLatestRegistration, KCurrentMeeting, KNotes, KPastMeetings, KCreatedAt, KUpdatedAt]

  /** A record as the store returns it: a JSON object with a key per present field. */
  function ToJson(p: Participant): Json {
    JObj(Build(p, KeyOrder))
  }

  lemma ToJsonAt(p: Participant, k: Key)
    ensures ToJson(p).JObj? && At(ToJson(p).fields, k) == ValueAt(p, k)
  {
    BuildAt(p, KeyOrder, k);
  }

  // The field checks on a stored row, a few fields per lemma.

  lemma ChecksOfToJsonA(p: Participant, fm: Formats)
    ensures var obj := ToJson(p).fields;
      && (IdCheck(obj, fm).Pass? <==> (p.id.Some? ==> fm.uuid(p.id.value)))
      && (IdCheck(obj, fm).Pass? ==> IdCheck(obj, fm).value == p.id)
      && GenderCheck(obj) == Pass(p.gender)
      && (AgeCheck(obj).Pass? <==> p.age > 0) && (AgeCheck(obj).Pass? ==> AgeCheck(obj).value == p.age)
      && (NameCheck(obj).Pass? <==> p.name != "") && (NameCheck(obj).Pass? ==> NameCheck(obj).value == p.name)
      && (MonthsCheck(obj).Pass? <==> p.months >= 0) && (MonthsCheck(obj).Pass? ==> MonthsCheck(obj).value == p.months)
  {
    ToJsonAt(p, KId);
    ToJsonAt(p, KGender);
    ToJsonAt(p, KAge);
    ToJsonAt(p, KName);
    ToJsonAt(p, KMonths);
  }

  lemma ChecksOfToJsonB(p: Participant, fm: Formats)
    ensures var obj := ToJson(p).fields;
      && (FirstRegistrationCheck(obj).Pass? <==> IsYearMonth(p.first_registration_month))
      && (FirstRegistrationCheck(obj).Pass? ==> FirstRegistrationCheck(obj).value == p.first_registration_month)
      && (PhoneCheck(obj).Pass? <==> IsPhone(p.phone)) && (PhoneCheck(obj).Pass? ==> PhoneCheck(obj).value == p.phone)
  {
    ToJsonAt(p, KFirstRegistration);
    ToJsonAt(p, KPhone);
  }

  lemma ChecksOfToJsonE(p: Participant, fm: Formats)
    ensures var obj := ToJson(p).fields;
      && (FeeCheck(obj).Pass? <==> p.fee >= 0) && (FeeCheck(obj).Pass? ==> FeeCheck(obj).value == p.fee)
      && ReRegistrationCheck(obj) == Pass(p.re_registration)
      && (LatestRegistrationCheck(obj).Pass? <==> IsYearMonth(p.latest_registration))
      && (LatestRegistrationCheck(obj).Pass? ==> LatestRegistrationCheck(obj).value == p.latest_registration)
  {
    ToJsonAt(p, KFee);
    ToJsonAt(p, KReRegistration);
    ToJsonAt(p, KLatestRegistration);
  }

  lemma ChecksOfToJsonC(p: Participant, fm: Formats)
    ensures var obj := ToJson(p).fields;
      && (CurrentMeetingCheck(obj, fm).Pass? <==> (p.current_meeting_id.Present? ==> fm.uuid(p.current_meeting_id.value)))
      && (CurrentMeetingCheck(obj, fm).Pass? ==> CurrentMeetingCheck(obj, fm).value == p.current_meeting_id)
      && NotesCheck(obj) == Pass(p.notes)
  {
    var obj := ToJson(p).fields;
    ToJsonAt(p, KCurrentMeeting);
    ToJsonAt(p, KNotes);
    assert NotesCheck(obj).Pass? && NotesCheck(obj).value == p.notes;
  }

  lemma ChecksOfToJsonD(p: Participant, fm: Formats)
    ensures var obj := ToJson(p).fields;
      && PastMeetingsCheck(obj) == Pass(p.past_meetings)
      && (CreatedAtCheck(obj, fm).Pass? <==> (p.created_at.Some? ==> fm.datetime(p.created_at.value)))
      && (CreatedAtCheck(obj, fm).Pass? ==> CreatedAtCheck(obj, fm).value == p.created_at)
      && (UpdatedAtCheck(obj, fm).Pass? <==> (p.updated_at.Some? ==> fm.datetime(p.updated_at.value)))
      && (UpdatedAtCheck(obj, fm).Pass? ==> UpdatedAtCheck(obj, fm).value == p.updated_at)
  {
    var obj := ToJson(p).fields;
    ToJsonAt(p, KPastMeetings);
    ToJsonAt(p, KCreatedAt);
    ToJsonAt(p, KUpdatedAt);
    assert PastMeetingsCheck(obj).Pass? && PastMeetingsCheck(obj).value == p.past_meetings;
  }

  /** Checking a stored row passes exactly when the record is well formed, and gives the record back. */
  lemma ParseToJson(p: Participant, fm: Formats)
    ensures Parse(ToJson(p), fm).Ok? <==> WellFormed(p, fm)
    ensures Parse(ToJson(p), fm).Ok? ==> Parse(ToJson(p), fm).value == p
  {
    ChecksOfToJsonA(p, fm);
    ChecksOfToJsonB(p, fm);
    ChecksOfToJsonE(p, fm);
    ChecksOfToJsonC(p, fm);
    ChecksOfToJsonD(p, fm);
  }

  /** `participantSchema.parse` of a stored row: it gives the row back exactly when the row is well formed. */
  function Revalidate(p: Participant, fm: Formats): (r: Result<Participant, seq<Issue>>)
    ensures r.Ok? <==> WellFormed(p, fm)
    ensures r.Ok? ==> r.value == p
  {
    ParseToJson(p, fm);
    Parse(ToJson(p), fm)
  }

  // ---------------------------------------------------------------------------
  // What the full schema accepts

  /** The parse reads nothing but the declared keys. */
  lemma {:induction false} ParseReadsDeclaredKeys(obj1: map<string, Json>, obj2: map<string, Json>, fm: Formats)
    requires forall k :: At(obj1, k) == At(obj2, k)
    ensures Parse(JObj(obj1), fm) == Parse(JObj(obj2), fm)
  {
    assert CheckFields(obj1, fm) == CheckFields(obj2, fm) by {
      assert At(obj1, KId) == At(obj2, KId) && At(obj1, KGender) == At(obj2, KGender);
      assert At(obj1, KAge) == At(obj2, KAge) && At(obj1, KName) == At(obj2, KName);
      assert At(obj1, KMonths) == At(obj2, KMonths) && At(obj1, KFirstRegistration) == At(obj2, KFirstRegistration);
      assert At(obj1, KPhone) == At(obj2, KPhone) && At(obj1, KFee) == At(obj2, KFee);
      assert At(obj1, KReRegistration) == At(obj2, KReRegistration);
      assert At(obj1, KLatestRegistration) == At(obj2, KLatestRegistration);
      assert At(obj1, KCurrentMeeting) == At(obj2, KCurrentMeeting) && At(obj1, KNotes) == At(obj2, KNotes);
      assert At(obj1, KPastMeetings) == At(obj2, KPastMeetings);
      assert At(obj1, KCreatedAt) == At(obj2, KCreatedAt) && At(obj1, KUpdatedAt) == At(obj2, KUpdatedAt);
    }
  }

  /** A key the schema does not declare (such as `participation_month`) changes nothing: zod strips it. */
  lemma UnknownKeyIgnored(obj: map<string, Json>, key: string, v: Json, fm: Formats)
    requires key !in DeclaredNames()
    ensures Parse(JObj(obj[key := v]), fm) == Parse(JObj(obj), fm)
  {
    forall k ensures At(obj[key := v], k) == At(obj, k) {
      assert KeyName(k) != key;
    }
    ParseReadsDeclaredKeys(obj[key := v], obj, fm);
  }

  /** An issue of any field check makes the parse fail and is among the issues it reports. */
  lemma IssueReported(obj: map<string, Json>, fm: Formats, x: Issue)
    requires x in AllIssues(CheckFields(obj, fm))
    ensures Parse(JObj(obj), fm).Err? && x in Parse(JObj(obj), fm).error
  {
  }

  /** Age must be a positive integer: zero and negative ages are rejected, with a too-small issue on `age`. */
  lemma AgeMustBePositive(obj: map<string, Json>, x: real, fm: Formats)
    requires At(obj, KAge) == Some(JNum(x)) && x <= 0.0
    ensures Parse(JObj(obj), fm).Err?
    ensures Issue("age", TooSmall, None) in Parse(JObj(obj), fm).error
  {
    var c := CheckFields(obj, fm);
    assert Issue("age", TooSmall, None) in IssuesOf(c.age);
    assert Issue("age", TooSmall, None) in AllIssues(c);
    IssueReported(obj, fm, Issue("age", TooSmall, None));
  }

  /** A negative fee or negative months are rejected; zero is allowed. */
  lemma FeeAndMonthsNonNegative(obj: map<string, Json>, fm: Formats)
    ensures Parse(JObj(obj), fm).Ok? ==> Parse(JObj(obj), fm).value.fee >= 0 && Parse(JObj(obj), fm).value.months >= 0
    ensures At(obj, KFee) == Some(JNum(-1.0)) ==> Issue("fee", TooSmall, None) in Parse(JObj(obj), fm).error
  {
    var c := CheckFields(obj, fm);
    if At(obj, KFee) == Some(JNum(-1.0)) {
      assert Issue("fee", TooSmall, None) in IssuesOf(c.fee);
      assert Issue("fee", TooSmall, None) in AllIssues(c);
      IssueReported(obj, fm, Issue("fee", TooSmall, None));
    }
  }

  /** An empty name is rejected with the schema's own message. */
  lemma EmptyNameRejected(obj: map<string, Json>, fm: Formats)
    requires At(obj, KName) == Some(JStr(""))
    ensures Parse(JObj(obj), fm).Err?
    ensures Issue("name", TooSmall, Some("이름은 필수입니다")) in Parse(JObj(obj), fm).error
  {
    var c := CheckFields(obj, fm);
    assert Issue("name", TooSmall, Some(NameRequired)) in IssuesOf(c.name);
    assert Issue("name", TooSmall, Some(NameRequired)) in AllIssues(c);
    IssueReported(obj, fm, Issue("name", TooSmall, Some(NameRequired)));
  }

  /** Only `'male'` and `'female'` are genders. */
  lemma GenderMustBeListed(obj: map<string, Json>, s: string, fm: Formats)
    requires At(obj, KGender) == Some(JStr(s)) && s != "male" && s != "female"
    ensures Parse(JObj(obj), fm).Err?
    ensures Issue("gender", InvalidEnumValue, None) in Parse(JObj(obj), fm).error
  {
    var c := CheckFields(obj, fm);
    assert Issue("gender", InvalidEnumValue, None) in IssuesOf(c.gender);
    assert Issue("gender", InvalidEnumValue, None) in AllIssues(c);
    IssueReported(obj, fm, Issue("gender", InvalidEnumValue, None));
  }

  /** A phone the recogniser refuses is rejected with the phone message, `'invalid-phone'` among them. */
  lemma BadPhoneRejected(obj: map<string, Json>, s: string, fm: Formats)
    requires At(obj, KPhone) == Some(JStr(s)) && (!IsPhone(s) || s == "invalid-phone")
    ensures Parse(JObj(obj), fm).Err?
    ensures Issue("phone", InvalidString, Some("올바른 전화번호 형식이 아닙니다")) in Parse(JObj(obj), fm).error
  {
    assert !IsPhone(s) by { PhoneRejectedExamples(); }
    var c := CheckFields(obj, fm);
    assert c.phone == Fail([Issue("phone", InvalidString, Some(PhoneMessage))]);
    assert Issue("phone", InvalidString, Some(PhoneMessage)) in AllIssues(c);
    IssueReported(obj, fm, Issue("phone", InvalidString, Some(PhoneMessage)));
  }

  /** Every accepted record satisfies the schema's constraints. */
  lemma ParsedIsWellFormed(input: Json, fm: Formats)
    ensures Parse(input, fm).Ok? ==> WellFormed(Parse(input, fm).value, fm)
  {
  }

  /** Missing `months`, `re_registration` and `past_meetings` take their defaults 0, false and []. */
  lemma DefaultsApply(obj: map<string, Json>, fm: Formats)
    ensures Parse(JObj(obj), fm).Ok? && At(obj, KMonths).None? ==> Parse(JObj(obj), fm).value.months == 0
    ensures Parse(JObj(obj), fm).Ok? && At(obj, KReRegistration).None? ==> !Parse(JObj(obj), fm).value.re_registration
    ensures Parse(JObj(obj), fm).Ok? && At(obj, KPastMeetings).None? ==> Parse(JObj(obj), fm).value.past_meetings == []
  {
  }

  /** `null` is accepted for the meeting id and the notes, and kept as `null`. */
  lemma NullsAccepted(obj: map<string, Json>, fm: Formats)
    requires At(obj, KCurrentMeeting) == Some(JNull) && At(obj, KNotes) == Some(JNull)
    ensures CurrentMeetingCheck(obj, fm) == Pass(Null) && NotesCheck(obj) == Pass(Null)
    ensures Parse(JObj(obj), fm).Ok? ==> Parse(JObj(obj), fm).value.current_meeting_id == Null
    ensures Parse(JObj(obj), fm).Ok? ==> Parse(JObj(obj), fm).value.notes == Null
  {
  }

  // ---------------------------------------------------------------------------
  // Create and update schemas

  /** The create schema checks the rest of the object exactly as the full schema does. */
  lemma CreateIgnoresServerKeys(obj: map<string, Json>, key: string, v: Json, fm: Formats)
    requires key in ServerNames()
    ensures ParseCreate(JObj(obj[key := v]), fm) == ParseCreate(JObj(obj), fm)
    ensures (forall k :: KeyName(k) !in ServerNames() ==> At(obj, k) == At(obj - ServerNames(), k))
  {
    var s := ServerNames();
    forall k ensures At(obj[key := v] - s, k) == At(obj - s, k) {
      KeyNameInjective(k, KId);
      KeyNameInjective(k, KCreatedAt);
      KeyNameInjective(k, KUpdatedAt);
    }
    ParseReadsDeclaredKeys(obj[key := v] - s, obj - s, fm);
  }

  /** On an object without `id` and timestamps, the create schema and the full schema agree. */
  lemma CreateAgreesWithFull(obj: map<string, Json>, fm: Formats)
    requires forall key :: key in ServerNames() ==> key !in obj
    ensures ParseCreate(JObj(obj), fm) == Parse(JObj(obj), fm)
  {
    assert obj - ServerNames() == obj;
  }

  /** The fields an update may carry; `None` (or `Absent`) means the key was not sent. */
  datatype ParticipantPatch = ParticipantPatch(
    gender: Option<Gender>,
    age: Option<int>,
    name: Option<string>,
    months: Option<int>,
    first_registration_month: Option<string>,
    phone: Option<string>,
    fee: Option<int>,
    re_registration: Option<bool>,
    latest_registration: Option<string>,
    current_meeting_id: Nullish<string>,
    notes: Nullish<string>,
    past_meetings: Option<seq<string>>)

  const EmptyPatch := ParticipantPatch(None, None, None, None, None, None, None, None, None, Absent, Absent, None)

  /** `updateParticipantSchema.safeParse(input)`: each sent field is checked as the full schema checks it;
      a field not sent stays unset, and no default is filled in. */
  function ParseUpdate(input: Json, fm: Formats): (r: Result<ParticipantPatch, seq<Issue>>)
    ensures r.Err? ==> r.error != []
  {
    match input
    case JObj(obj) =>
      var c := CheckFields(obj, fm);
      var gender := Optional(At(obj, KGender), c.gender);
      var age := Optional(At(obj, KAge), c.age);
      var name := Optional(At(obj, KName), c.name);
      var months := Optional(At(obj, KMonths), c.months);
      var first := Optional(At(obj, KFirstRegistration), c.first_registration_month);
      var phone := Optional(At(obj, KPhone), c.phone);
      var fee := Optional(At(obj, KFee), c.fee);
      var rereg := Optional(At(obj, KReRegistration), c.re_registration);
      var latest := Optional(At(obj, KLatestRegistration), c.latest_registration);
      var past := Optional(At(obj, KPastMeetings), c.past_meetings);
      if && gender.Pass? && age.Pass? && name.Pass? && months.Pass? && first.Pass? && phone.Pass?
         && fee.Pass? && rereg.Pass? && latest.Pass? && c.current_meeting_id.Pass? && c.notes.Pass? && past.Pass?
      then
        Ok(ParticipantPatch(gender.value, age.value, name.value, months.value, first.value, phone.value,
          fee.value, rereg.value, latest.value, c.current_meeting_id.value, c.notes.value, past.value))
      else
        Err(IssuesOf(gender) + IssuesOf(age) + IssuesOf(name) + IssuesOf(months) + IssuesOf(first)
          + IssuesOf(phone) + IssuesOf(fee) + IssuesOf(rereg) + IssuesOf(latest)
          + IssuesOf(c.current_meeting_id) + IssuesOf(c.notes) + IssuesOf(past))
    case _ => Err([NotAnObject])
  }

  /** An empty update is valid and sets nothing. */
  lemma EmptyUpdate(fm: Formats)
    ensures ParseUpdate(JObj(map[]), fm) == Ok(EmptyPatch)
  {
  }

  /** Unlike the create schema, the update schema fills in no defaults. */
  lemma UpdateAppliesNoDefaults(obj: map<string, Json>, fm: Formats)
    ensures ParseUpdate(JObj(obj), fm).Ok? && At(obj, KMonths).None? ==> ParseUpdate(JObj(obj), fm).value.months.None?
    ensures ParseUpdate(JObj(obj), fm).Ok? && At(obj, KReRegistration).None? ==> ParseUpdate(JObj(obj), fm).value.re_registration.None?
    ensures ParseUpdate(JObj(obj), fm).Ok? && At(obj, KPastMeetings).None? ==> ParseUpdate(JObj(obj), fm).value.past_meetings.None?
  {
  }

  /** A sent field is checked as strictly as on create: an empty name is still rejected with its message. */
  lemma UpdateRejectsEmptyName(obj: map<string, Json>, fm: Formats)
    requires At(obj, KName) == Some(JStr(""))
    ensures ParseUpdate(JObj(obj), fm).Err?
    ensures Issue("name", TooSmall, Some("이름은 필수입니다")) in ParseUpdate(JObj(obj), fm).error
  {
  }

  /** Whatever the create schema accepts, the update schema accepts too, with every sent field set
      to the created record's value. */
  lemma CreateThenUpdate(obj: map<string, Json>, fm: Formats)
    requires forall key :: key in ServerNames() ==> key !in obj
    requires ParseCreate(JObj(obj), fm).Ok?
    ensures ParseUpdate(JObj(obj), fm).Ok?
    ensures var p := ParseCreate(JObj(obj), fm).value; var u := ParseUpdate(JObj(obj), fm).value;
      && u.gender == Some(p.gender) && u.age == Some(p.age) && u.name == Some(p.name)
      && u.phone == Some(p.phone) && u.fee == Some(p.fee)
      && u.first_registration_month == Some(p.first_registration_month)
      && u.latest_registration == Some(p.latest_registration)
      && u.current_meeting_id == p.current_meeting_id && u.notes == p.notes
      && (At(obj, KMonths).Some? ==> u.months == Some(p.months))
      && (At(obj, KReRegistration).Some? ==> u.re_registration == Some(p.re_registration))
      && (At(obj, KPastMeetings).Some? ==> u.past_meetings == Some(p.past_meetings))
  {
    CreateAgreesWithFull(obj, fm);
  }
}
