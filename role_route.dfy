/**
 * The role lookup endpoint (app/api/auth/role/route.ts): an e-mail address is
 * normalised and looked up first among administrators, then among leaders.
 * The two table lookups are inputs of the model.
 */
module RoleRoute {
  import opened Wrappers
  import opened Text
  import opened SchemaFields
  import opened AuthStore

  /** The outcome of a `maybeSingle` lookup. */
  datatype Lookup<+T> = LookupFailed | NotFound | Found(row: T)

  /** The columns read from a matching leader. */
  datatype LeaderMatch = LeaderMatch(id: string, assigned_meeting_id: Nullish<string>)

  /** The JSON reply and its status: 200 with the role, or an error status with a message. */
  datatype RoleReply =
    | RoleFound(role: UserRole, profileId: string, assignedMeetingId: Nullish<string>)
    | RoleDenied(status: int, message: string)

  const EmailRequired := "이메일이 필요합니다."
  const LookupFailure := "역할 확인 중 오류가 발생했습니다."
  const Unregistered := "등록되지 않은 Google 계정입니다. 관리자에게 문의하세요."

  /** What `const { email } = await request.json()` yields. */
  datatype BodyEmail = Unreadable | NoEmail | Email(address: string)

  /** A body that is not JSON, or is `null`, makes the handler throw; any other value without a
      non-empty string `email` is a missing e-mail. */
  function ReadEmail(body: Option<Json>): (e: BodyEmail)
    ensures e.Email? ==> e.address != ""
    ensures e == Unreadable <==> body.None? || body == Some(JNull)
  {
    match body
    case None => Unreadable
    case Some(JNull) => Unreadable
    case Some(JObj(fields)) =>
      if "email" in fields && fields["email"].JStr? && fields["email"].s != "" then Email(fields["email"].s) else NoEmail
    case Some(_) => NoEmail
  }

  /** `POST`: the status and body for a request, given the two lookups by normalised address. */
  function ResolveRole(body: Option<Json>, admins: string -> Lookup<string>, leaders: string -> Lookup<LeaderMatch>)
    : (r: RoleReply)
    ensures r.RoleDenied? ==> r.status in {400, 403, 500}
    ensures ReadEmail(body) == NoEmail <==> r == RoleDenied(400, EmailRequired)
    ensures ReadEmail(body) == Unreadable ==> r == RoleDenied(500, LookupFailure)
    ensures r.RoleFound? ==> ReadEmail(body).Email?
  {
    match ReadEmail(body)
    case Unreadable => RoleDenied(500, LookupFailure)
    case NoEmail => RoleDenied(400, EmailRequired)
    case Email(address) => LookupRole(NormalizeEmail(address), admins, leaders)
  }

  /** The two lookups by normalised address: administrators first, then leaders. */
  function LookupRole(normalized: string, admins: string -> Lookup<string>, leaders: string -> Lookup<LeaderMatch>)
    : (r: RoleReply)
    ensures r.RoleDenied? ==> r.status in {403, 500}
    ensures admins(normalized).Found? ==> r.RoleFound? && r.role == Admin
  {
    match admins(normalized)
    case LookupFailed => RoleDenied(500, LookupFailure)
    case Found(id) => RoleFound(Admin, id, Absent)
    case NotFound =>
      match leaders(normalized)
      case LookupFailed => RoleDenied(500, LookupFailure)
      case Found(m) => RoleFound(Leader, m.id, m.assigned_meeting_id)
      case NotFound => RoleDenied(403, Unregistered)
  }

  /** A request body carrying just an e-mail address. */
  function EmailBody(address: string): Option<Json> {
    Some(JObj(map["email" := JStr(address)]))
  }

  lemma ReadEmailBody(address: string)
    requires address != ""
    ensures ReadEmail(EmailBody(address)) == Email(address)
  {
  }

  /** An administrator match answers `admin` whatever the leader table holds: it is never consulted. */
  lemma AdminTakesPrecedence(address: string, admins: string -> Lookup<string>,
                             leaders1: string -> Lookup<LeaderMatch>, leaders2: string -> Lookup<LeaderMatch>)
    requires address != "" && admins(NormalizeEmail(address)).Found?
    ensures ResolveRole(EmailBody(address), admins, leaders1) == ResolveRole(EmailBody(address), admins, leaders2)
    ensures ResolveRole(EmailBody(address), admins, leaders1) == RoleFound(Admin, admins(NormalizeEmail(address)).row, Absent)
  {
    ReadEmailBody(address);
    var n := NormalizeEmail(address);
    assert ResolveRole(EmailBody(address), admins, leaders1) == LookupRole(n, admins, leaders1);
    assert ResolveRole(EmailBody(address), admins, leaders2) == LookupRole(n, admins, leaders2);
  }

  /** A leader match, with no administrator match, answers `leader` with the profile and meeting ids. */
  lemma LeaderMatchAnswers(address: string, admins: string -> Lookup<string>, leaders: string -> Lookup<LeaderMatch>)
    requires address != "" && admins(NormalizeEmail(address)) == NotFound
    requires leaders(NormalizeEmail(address)).Found?
    ensures var m := leaders(NormalizeEmail(address)).row;
      ResolveRole(EmailBody(address), admins, leaders) == RoleFound(Leader, m.id, m.assigned_meeting_id)
  {
    ReadEmailBody(address);
  }

  /** No match in either table is a 403; a failed lookup is a 500. */
  lemma DenialStatuses(address: string, admins: string -> Lookup<string>, leaders: string -> Lookup<LeaderMatch>)
    requires address != ""
    ensures var n := NormalizeEmail(address);
      && (admins(n) == NotFound && leaders(n) == NotFound ==> ResolveRole(EmailBody(address), admins, leaders) == RoleDenied(403, Unregistered))
      && (admins(n) == LookupFailed ==> ResolveRole(EmailBody(address), admins, leaders) == RoleDenied(500, LookupFailure))
      && (admins(n) == NotFound && leaders(n) == LookupFailed ==> ResolveRole(EmailBody(address), admins, leaders) == RoleDenied(500, LookupFailure))
  {
    ReadEmailBody(address);
  }

  /** Two addresses with the same normal form resolve alike. */
  lemma SameNormalFormSameReply(a: string, b: string, admins: string -> Lookup<string>, leaders: string -> Lookup<LeaderMatch>)
    requires a != "" && b != "" && NormalizeEmail(a) == NormalizeEmail(b)
    ensures ResolveRole(EmailBody(a), admins, leaders) == ResolveRole(EmailBody(b), admins, leaders)
  {
    ReadEmailBody(a);
    ReadEmailBody(b);
  }

  /** Addresses that differ only in ASCII letter case resolve alike, and so does an address and its
      normal form, so surrounding spaces make no difference either. */
  lemma NormalizedLookup(address: string, admins: string -> Lookup<string>, leaders: string -> Lookup<LeaderMatch>)
    requires address != ""
    ensures ResolveRole(EmailBody(Lower(address)), admins, leaders) == ResolveRole(EmailBody(address), admins, leaders)
    ensures NormalizeEmail(address) != "" ==>
      ResolveRole(EmailBody(NormalizeEmail(address)), admins, leaders) == ResolveRole(EmailBody(address), admins, leaders)
  {
    NormalizeIgnoresCase(address);
    SameNormalFormSameReply(Lower(address), address, admins, leaders);
    if NormalizeEmail(address) != "" {
      NormalizeEmailIdempotent(address);
      SameNormalFormSameReply(NormalizeEmail(address), address, admins, leaders);
    }
  }
}
