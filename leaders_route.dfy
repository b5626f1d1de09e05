/**
 * The leader endpoints (app/api/leaders/route.ts): listing leaders with the
 * name of their assigned meeting, and creating a leader, which validates the
 * body, normalises the Google address, makes sure a sign-in account exists for
 * it and stores the leader. The auth service and the table are inputs.
 */
module LeadersRoute {
  import opened Wrappers
  import opened Text
  import opened SchemaFields
  import LeaderSchema

  /** The joined meeting of a leader row. */
  datatype JoinedMeeting = JoinedMeeting(name: Nullish<string>)

  /** A leader row as the store returns it, with the joined meeting. */
  datatype LeaderRow = LeaderRow(
    id: string,
    gender: string,
    name: string,
    phone: string,
    google_email: string,
    assigned_meeting_id: Option<string>,
    created_at: Option<string>,
    updated_at: Option<string>,
    meetings: Nullish<JoinedMeeting>)

  /** A leader as the endpoints answer it. */
  datatype LeaderView = LeaderView(
    id: string,
    gender: string,
    name: string,
    phone: string,
    google_email: string,
    assigned_meeting_id: Option<string>,
    meeting_name: Option<string>,
    created_at: Option<string>,
    updated_at: Option<string>)

  /** `mapLeader`: the scalar columns copied, and the joined meeting's name or null. */
  function MapLeader(row: LeaderRow): (v: LeaderView)
    ensures v.id == row.id && v.gender == row.gender && v.name == row.name && v.phone == row.phone
    ensures v.google_email == row.google_email && v.assigned_meeting_id == row.assigned_meeting_id
    ensures v.created_at == row.created_at && v.updated_at == row.updated_at
    ensures v.meeting_name.Some? <==> row.meetings.Present? && row.meetings.value.name.Present?
    ensures v.meeting_name.Some? ==> v.meeting_name.value == row.meetings.value.name.value
  {
    var meetingName :=
      if row.meetings.Present? && row.meetings.value.name.Present? then Some(row.meetings.value.name.value) else None;
    LeaderView(row.id, row.gender, row.name, row.phone, row.google_email, row.assigned_meeting_id,
               meetingName, row.created_at, row.updated_at)
  }

  /** The error the auth service reports for a failed account creation. */
  datatype AuthError = AuthError(status: Option<int>, message: Option<string>)

  /** The auth service already knows the address: status 422, or a message mentioning `registered`
      in any letter case. */
  predicate IsDuplicateUser(e: AuthError)
    ensures IsDuplicateUser(e) <==>
      e.status == Some(422) || (e.message.Some? && exists k :: OccursAt(Lower(e.message.value), "registered", k))
  {
    e.status == Some(422) || (e.message.Some? && Contains(Lower(e.message.value), "registered"))
  }

  const AuthUserFailure := "Supabase 사용자 등록에 실패했습니다."
  const CreateFailure := "리더 생성에 실패했습니다."
  const ListFailure := "리더 목록 조회에 실패했습니다."

  /** `ensureAuthUser`: success when the account was created or already existed, otherwise an error. */
  function EnsureAuthUser(outcome: Option<AuthError>): (r: Result<(), string>)
    ensures r.Ok? <==> outcome.None? || IsDuplicateUser(outcome.value)
    ensures r.Err? ==> r.error == AuthUserFailure
  {
    if outcome.None? || IsDuplicateUser(outcome.value) then Ok(()) else Err(AuthUserFailure)
  }

  /** A duplicate is recognised by its status alone, and by its message regardless of letter case. */
  lemma DuplicateExamples()
    ensures IsDuplicateUser(AuthError(Some(422), None))
    ensures IsDuplicateUser(AuthError(None, Some("User already Registered")))
    ensures !IsDuplicateUser(AuthError(Some(500), Some("timeout")))
    ensures !IsDuplicateUser(AuthError(None, None))
  {
    var m := Lower("User already Registered");
    assert m[13..23] == "registered";
    assert OccursAt(m, "registered", 13);
  }

  /** The error body of a failed request: the route's own message, or the validation issues. */
  datatype ErrorBody = Message(text: string) | ValidationIssues(issues: seq<Issue>)

  datatype Reply =
    | Created(leader: LeaderView)
    | Listed(leaders: seq<LeaderView>)
    | Failed(status: int, body: ErrorBody)

  /** The outcome of the insert: a store error, no row back, or the stored row. */
  datatype InsertOutcome = InsertFailed | NoRow | Inserted(row: LeaderRow)

  /** What `POST` hands to the auth service and the table. */
  datatype CreateTrace = CreateTrace(accountEmail: Option<string>, inserted: Option<LeaderSchema.Leader>)

  /** `POST`. `body` is the parsed JSON or the parse error's message, `createUser` the auth
      service's answer for an address and `insert` the table's answer for a record. */
  function CreateLeader(body: Result<Json, string>, fm: Formats, createUser: string -> Option<AuthError>,
                        insert: LeaderSchema.Leader -> InsertOutcome): (r: (Reply, CreateTrace))
    ensures body.Err? ==> r.0 == Failed(400, Message(body.error)) && r.1 == CreateTrace(None, None)
    ensures r.1.accountEmail.Some? ==> r.1.accountEmail.value == NormalizeEmail(r.1.accountEmail.value)
    ensures r.1.inserted.Some? ==> r.1.accountEmail == Some(r.1.inserted.value.google_email)
    ensures r.1.inserted.Some? ==> r.1.inserted.value.id.None? && r.1.inserted.value.created_at.None?
    ensures r.0.Created? ==> r.1.inserted.Some? && insert(r.1.inserted.value).Inserted?
    ensures r.0.Created? ==> r.0.leader == MapLeader(insert(r.1.inserted.value).row)
    ensures r.0.Failed? ==> r.0.status in {400, 500}
    ensures r.0.Listed? ==> false
  {
    match body
    case Err(message) => (Failed(400, Message(message)), CreateTrace(None, None))
    case Ok(json) =>
      match LeaderSchema.ParseCreate(json, fm)
      case Err(issues) => (Failed(400, ValidationIssues(issues)), CreateTrace(None, None))
      case Ok(validated) =>
        var normalizedEmail := NormalizeEmail(validated.google_email);
        var accountEmail := NormalizeEmail(normalizedEmail);
        NormalizeEmailIdempotent(validated.google_email);
        match EnsureAuthUser(createUser(accountEmail))
        case Err(message) => (Failed(400, Message(message)), CreateTrace(Some(accountEmail), None))
        case Ok(_) =>
          var record := validated.(google_email := normalizedEmail);
          var trace := CreateTrace(Some(accountEmail), Some(record));
          match insert(record)
          case Inserted(row) => (Created(MapLeader(row)), trace)
          case _ => (Failed(500, Message(CreateFailure)), trace)
  }

  /** A valid body is stored with its normalised address, after the account for that address is
      ensured; an account error stops before the insert, and an insert error is a 500. */
  lemma CreateSteps(json: Json, fm: Formats, createUser: string -> Option<AuthError>,
                    insert: LeaderSchema.Leader -> InsertOutcome)
    requires LeaderSchema.ParseCreate(json, fm).Ok?
    ensures var v := LeaderSchema.ParseCreate(json, fm).value;
      var r := CreateLeader(Ok(json), fm, createUser, insert);
      && r.1.accountEmail == Some(NormalizeEmail(v.google_email))
      && (EnsureAuthUser(createUser(NormalizeEmail(v.google_email))).Err? ==>
            r == (Failed(400, Message(AuthUserFailure)), CreateTrace(Some(NormalizeEmail(v.google_email)), None)))
      && (EnsureAuthUser(createUser(NormalizeEmail(v.google_email))).Ok? ==>
            r.1.inserted == Some(v.(google_email := NormalizeEmail(v.google_email))))
      && (r.1.inserted.Some? && !insert(r.1.inserted.value).Inserted? ==> r.0 == Failed(500, Message(CreateFailure)))
  {
    NormalizeEmailIdempotent(LeaderSchema.ParseCreate(json, fm).value.google_email);
  }

  /** An invalid body is a 400 carrying the validation issues, and nothing reaches the auth service or the table. */
  lemma InvalidBodyRejected(json: Json, fm: Formats, createUser: string -> Option<AuthError>,
                            insert: LeaderSchema.Leader -> InsertOutcome)
    requires LeaderSchema.ParseCreate(json, fm).Err?
    ensures CreateLeader(Ok(json), fm, createUser, insert) ==
      (Failed(400, ValidationIssues(LeaderSchema.ParseCreate(json, fm).error)), CreateTrace(None, None))
  {
  }

  /** `GET`: the rows in the order the store returns them, each mapped; a store error is a 500. */
  function ListLeaders(rows: Option<seq<LeaderRow>>, fault: bool): (r: Reply)
    ensures fault <==> r.Failed?
    ensures r.Failed? ==> r == Failed(500, Message(ListFailure))
    ensures r.Listed? && rows.None? ==> r.leaders == []
    ensures r.Listed? && rows.Some? ==> |r.leaders| == |rows.value|
    ensures r.Listed? && rows.Some? ==> forall i :: 0 <= i < |rows.value| ==> r.leaders[i] == MapLeader(rows.value[i])
  {
    if fault then Failed(500, Message(ListFailure))
    else
      var data := if rows.Some? then rows.value else [];
      Listed(seq(|data|, i requires 0 <= i < |data| => MapLeader(data[i])))
  }
}
