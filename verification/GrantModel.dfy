/** The Profile Grant store: the grant table, the project tombstones, withdrawn default access, the
    auto-approval setting and the request log, as one database and its operations
    (src/access/authorization.ts, src/access/grant-requests.ts). Ids are opaque; a fresh id is one
    the database has not seen. An operation that throws leaves the database as it was. */
module GrantModel {
  import opened Wrappers
  import opened OriginScopes
  import opened GrantLog

  const ELEVATION_DURATION := 60 * MINUTE

  datatype Project = Project(generation: nat, deleted: bool)

  datatype Db = Db(grants: map<GrantId, Grant>, projects: map<BindingId, Project>,
                   withdrawn: set<Binding>, autoApproval: bool, log: seq<Row>)

  datatype NewGrant = NewGrant(binding: Binding, scope: Scope, fileTransfer: bool,
                               certificates: set<Origin>, persistent: bool, confirmed: bool)

  datatype Failure = NotConfirmed | OutsideScope | ProjectDeleted | IdTaken | NotFound

  // ---- grants ----

  function GrantFor(g: NewGrant, now: int): Grant {
    var expiry := if g.persistent then None else Some(now + ELEVATION_DURATION);
    Grant(g.binding, g.scope, g.fileTransfer, g.certificates,
          if g.scope.WholeWeb? then expiry else None,
          if g.fileTransfer then expiry else None,
          if g.certificates != {} then expiry else None,
          None)
  }

  function Tombstoned(db: Db, project: BindingId): bool {
    project in db.projects && db.projects[project].deleted
  }

  function InsertGrant(db: Db, id: GrantId, g: NewGrant, now: int): Result<Db, Failure> {
    if g.persistent && !g.confirmed then Err(NotConfirmed)
    else if exists o :: o in g.certificates && !Permits(g.scope, o) then Err(OutsideScope)
    else if Tombstoned(db, g.binding.project) then Err(Failure.ProjectDeleted)
    else if id in db.grants then Err(IdTaken)
    else
      Ok(db.(grants := db.grants[id := GrantFor(g, now)],
             projects := if g.binding.project in db.projects then db.projects
                         else db.projects[g.binding.project := Project(0, false)],
             withdrawn := if g.scope.WholeWeb? then db.withdrawn - {g.binding} else db.withdrawn))
  }

  /** UPDATE … WHERE grant_id = ? AND revoked_at IS NULL. */
  function RevokeGrant(grants: map<GrantId, Grant>, id: GrantId, now: int): map<GrantId, Grant> {
    if id in grants && grants[id].revokedAt.None? then
      grants[id := grants[id].(revokedAt := Some(now))]
    else grants
  }

  // ---- the owner's settings ----

  function LinkedRow(rows: seq<Row>, id: GrantId): Option<Row> {
    if rows == [] then None
    else if rows[0].grant == Some(id) && rows[0].kind == Approved then Some(rows[0])
    else LinkedRow(rows[1..], id)
  }

  function RevokeStored(db: Db, id: GrantId, now: int): Db {
    if id !in db.grants || db.grants[id].revokedAt.Some? then db
    else
      var g := db.grants[id];
      var linked := LinkedRow(LatestRows(db.log), id);
      db.(grants := RevokeGrant(db.grants, id, now),
          withdrawn := if g.scope.WholeWeb? then db.withdrawn + {g.binding} else db.withdrawn,
          log := if linked.Some? then db.log + [linked.value.As(Revoked, now)] else db.log)
  }

  // ---- requests ----

  function NewRow(id: RequestId, ask: Ask, now: int): Row {
    Row(id, Requested, ask, now + REQUEST_EXPIRY, None, None, now)
  }

  function AskOf(r: Request): Ask
    requires r.origin.Some?
  {
    Ask(r.binding, r.origin.value, r.fileTransfer, r.invalidCertificate)
  }

  function PersistentGrant(ask: Ask, confirmed: bool): NewGrant {
    NewGrant(ask.binding, Exact(ask.origin), ask.fileTransfer,
             if ask.invalidCertificate then {ask.origin} else {},
             ask.fileTransfer || ask.invalidCertificate, confirmed)
  }

  /** A requested row approved as a persistent exact-origin grant. */
  function Persist(db: Db, row: Row, id: GrantId, confirmed: bool, now: int): Result<Db, Failure> {
    var inserted := InsertGrant(db, id, PersistentGrant(row.ask, confirmed), now);
    if inserted.Err? then inserted
    else
      Ok(inserted.value.(log := inserted.value.log + [row.(kind := Approved, grant := Some(id), at := now)]))
  }

  datatype Decision = Deny | PersistIt(confirmed: bool) | Temporarily(mode: Mode)

  /** The owner's decision on a request that is still open. */
  function DecideRow(db: Db, row: Row, decision: Decision, grant: GrantId, now: int): Result<Db, Failure> {
    match decision
    case Deny => Ok(db.(log := db.log + [row.As(Denied, now)]))
    case PersistIt(confirmed) => Persist(db, row, grant, confirmed, now)
    case Temporarily(mode) =>
      var until := now + Lifetime(mode);
      Ok(db.(log := db.log + [row.(kind := Approved, temporary := Some(Temporary(mode, until)), at := now)]))
  }

  function Decide(db: Db, id: RequestId, decision: Decision, grant: GrantId, now: int): Result<Db, Failure> {
    var expired := db.(log := ExpireAll(db.log, now));
    if id !in Current(expired.log) then Err(NotFound)
    else if Current(expired.log)[id].kind != Requested then Ok(expired)
    else DecideRow(expired, Current(expired.log)[id], decision, grant, now)
  }

  function RevokeRow(db: Db, row: Row, now: int): Db {
    db.(grants := if row.grant.Some? then RevokeGrant(db.grants, row.grant.value, now) else db.grants,
        log := db.log + [row.As(Revoked, now)])
  }

  predicate Revocable(row: Row, now: int) {
    row.kind in {Requested, Approved}
    || (row.kind == Consumed && row.temporary.Some? && row.temporary.value.until > now)
  }

  function RevokeRequest(db: Db, id: RequestId, now: int): Result<Db, Failure> {
    var expired := db.(log := ExpireAll(db.log, now));
    if id !in Current(expired.log) then Err(NotFound)
    else
      var row := Current(expired.log)[id];
      Ok(if Revocable(row, now) then RevokeRow(expired, row, now) else expired)
  }

  /** Look-ups expire the rows they look at first. */
  function ExpireSome(db: Db, ids: set<RequestId>, now: int): Db {
    db.(log := ExpireRows(db.log, Selected(LatestRows(db.log), ids), now))
  }

  function Selected(rows: seq<Row>, ids: set<RequestId>): seq<Row> {
    if rows == [] then []
    else
      var last := rows[|rows| - 1];
      Selected(rows[..|rows| - 1], ids) + (if last.request in ids then [last] else [])
  }

  // ---- authorization ----

  datatype Outcome =
    | ByGrant(grant: Grant)
    | ByRequest(request: RequestId, temporary: Temporary)
    | Refused(asked: Option<RequestId>)

  predicate Usable(row: Row, ask: Ask, now: int) {
    row.kind == Approved && row.temporary.Some? && row.temporary.value.until > now && row.ask == ask
  }

  function FirstUsable(rows: seq<Row>, ask: Ask, now: int): Option<Row> {
    if rows == [] then None
    else if Usable(rows[0], ask, now) then Some(rows[0]) else FirstUsable(rows[1..], ask, now)
  }

  /** An agent's request against the log: a usable temporary approval, spent if it is for a retry;
      otherwise a new pending request. */
  function AuthorizeByRequest(db: Db, r: Request, id: RequestId, now: int): (Db, Outcome) {
    if r.origin.None? then (db, Refused(None))
    else
      var log := ExpireAll(db.log, now);
      var usable := FirstUsable(LatestRows(log), AskOf(r), now);
      if usable.Some? then
        var row := usable.value;
        (db.(log := if row.temporary.Some? && row.temporary.value.mode == Retry
                    then log + [row.As(Consumed, now)] else log),
         if row.temporary.Some? then ByRequest(row.request, row.temporary.value) else Refused(None))
      else (db.(log := log + [NewRow(id, AskOf(r), now)]), Refused(Some(id)))
  }

  predicate ActiveFor(g: Grant, binding: Binding) {
    g.revokedAt.None? && g.binding == binding
  }

  function Listed(db: Db, listing: seq<GrantId>): seq<Grant>
    requires forall i | 0 <= i < |listing| :: listing[i] in db.grants
  {
    seq(|listing|, i requires 0 <= i < |listing| => db.grants[listing[i]])
  }

  /** The active grants of a binding in stored order. */
  ghost predicate Lists(db: Db, binding: Binding, listing: seq<GrantId>) {
    && (forall i | 0 <= i < |listing| ::
          listing[i] in db.grants && ActiveFor(db.grants[listing[i]], binding))
    && (forall id | id in db.grants && ActiveFor(db.grants[id], binding) :: id in listing)
    && forall i, j | 0 <= i < j < |listing| :: listing[i] != listing[j]
  }

  const DEFAULT_ACCESS := (b: Binding) => NewGrant(b, WholeWeb, false, {}, true, true)

  /** Default access goes to a binding nothing covers the origin of, unless the owner withdrew it. */
  predicate GetsDefaultAccess(db: Db, grants: seq<Grant>, r: Request) {
    && r.origin.Some?
    && Matching(grants, r.origin.value) == []
    && (forall i | 0 <= i < |grants| :: !grants[i].scope.WholeWeb?)
    && r.binding !in db.withdrawn
    && !Tombstoned(db, r.binding.project)
  }

  predicate GetsAutoApproval(db: Db, grants: seq<Grant>, r: Request, now: int) {
    && db.autoApproval
    && r.binding !in db.withdrawn
    && (forall i | 0 <= i < |grants| ::
          grants[i].scope.WholeWeb? ==> StillActive(grants[i].wholeWebExpires, now))
    && !Tombstoned(db, r.binding.project)
    && r.origin.Some? && !r.fileTransfer && !r.invalidCertificate
  }

  /** The ids an authorization may draw. */
  datatype Drawn = Drawn(default: GrantId, auto: GrantId, autoRequest: RequestId, request: RequestId)

  function Or(r: Result<Db, Failure>, otherwise: Db): Db {
    if r.Ok? then r.value else otherwise
  }

  function AutoApprove(db: Db, r: Request, ids: Drawn, now: int): Db
    requires r.origin.Some?
  {
    var row := NewRow(ids.autoRequest, AskOf(r), now);
    Or(Persist(db.(log := db.log + [row]), row, ids.auto, false, now), db)
  }

  /** An auto-approved origin grant, or else the request log. */
  function AuthorizeFurther(db: Db, grants: seq<Grant>, r: Request, ids: Drawn, now: int): (Db, Outcome) {
    if GetsAutoApproval(db, grants, r, now) then
      var auto := GrantFor(PersistentGrant(AskOf(r), false), now);
      var byAuto := AuthorizeAgainst(grants + [auto], r, now);
      var approved := AutoApprove(db, r, ids, now);
      if byAuto.Ok? then (approved, ByGrant(byAuto.value))
      else AuthorizeByRequest(approved, r, ids.request, now)
    else AuthorizeByRequest(db, r, ids.request, now)
  }

  function WithDefaultAccess(db: Db, grants: seq<Grant>, r: Request, ids: Drawn, now: int): Db {
    if GetsDefaultAccess(db, grants, r) then
      Or(InsertGrant(db, ids.default, DEFAULT_ACCESS(r.binding), now), db)
    else db
  }

  function Authorize(db: Db, r: Request, listing: seq<GrantId>, ids: Drawn, now: int): (Db, Outcome)
    requires forall i | 0 <= i < |listing| :: listing[i] in db.grants
  {
    var grants := Listed(db, listing);
    var stored := AuthorizeAgainst(grants, r, now);
    if stored.Ok? then (db, ByGrant(stored.value))
    else
      var db1 := WithDefaultAccess(db, grants, r, ids, now);
      var byDefault := AuthorizeAgainst(grants + [GrantFor(DEFAULT_ACCESS(r.binding), now)], r, now);
      if GetsDefaultAccess(db, grants, r) && byDefault.Ok? then (db1, ByGrant(byDefault.value))
      else AuthorizeFurther(db1, grants, r, ids, now)
  }

  // ---- projects and profiles ----

  datatype Target = ByProject(project: BindingId)
                  | ByProfile(host: BindingId, installation: BindingId, profile: BindingId)
  {
    predicate Covers(b: Binding) {
      match this
      case ByProject(project) => b.project == project
      case ByProfile(host, installation, profile) =>
        b.host == host && b.installation == installation && b.profile == profile
    }
  }

  function RevokeGrants(grants: map<GrantId, Grant>, t: Target, now: int): map<GrantId, Grant> {
    map id | id in grants ::
      if t.Covers(grants[id].binding) && grants[id].revokedAt.None?
      then grants[id].(revokedAt := Some(now)) else grants[id]
  }

  function RevokeRows(db: Db, rows: seq<Row>, t: Target, now: int): Db {
    if rows == [] then db
    else
      var before := RevokeRows(db, rows[..|rows| - 1], t, now);
      var row := rows[|rows| - 1];
      if t.Covers(row.ask.binding) && Revocable(row, now) then RevokeRow(before, row, now) else before
  }

  /** Every request of a project or profile that is still open is revoked, with its grant. */
  function RevokeMatching(db: Db, t: Target, now: int): Db {
    var expired := db.(log := ExpireAll(db.log, now));
    RevokeRows(expired, LatestRows(expired.log), t, now)
  }

  function RevokeTarget(db: Db, t: Target, now: int): Db {
    RevokeMatching(db.(grants := RevokeGrants(db.grants, t, now)), t, now)
  }

  /** A project without a row, or with a tombstone already, is left alone. */
  function MarkDeleted(db: Db, project: BindingId, now: int): Db {
    if project !in db.projects || db.projects[project].deleted then db
    else
      db.(projects := db.projects[project := Project(db.projects[project].generation + 1, true)],
          grants := RevokeGrants(db.grants, ByProject(project), now))
  }

  function DeleteProject(db: Db, project: BindingId, now: int): Db {
    RevokeMatching(MarkDeleted(db, project, now), ByProject(project), now)
  }

  function MarkCreated(db: Db, project: BindingId): Db {
    if project !in db.projects then db.(projects := db.projects[project := Project(0, false)])
    else if !db.projects[project].deleted then db
    else
      db.(projects := db.projects[project := Project(db.projects[project].generation + 1, false)])
  }

  // ---- operations of the store ----

  datatype Op =
    | Create(id: GrantId, grant: NewGrant, now: int)
    | Revoke(id: GrantId, now: int)
    | AuthorizeOp(r: Request, listing: seq<GrantId>, ids: Drawn, now: int)
    | Look(requests: set<RequestId>, now: int)  // listing, inspecting, or expiring one grant
    | DecideOp(request: RequestId, decision: Decision, id: GrantId, now: int)
    | RevokeRequestOp(request: RequestId, now: int)
    | RevokeTargetOp(target: Target, now: int)
    | DeleteProjectOp(project: BindingId, now: int)
    | CreateProjectOp(project: BindingId)
    | SetAutoApproval(enabled: bool)

  ghost predicate Enabled(db: Db, op: Op) {
    op.AuthorizeOp? ==>
      && Lists(db, op.r.binding, op.listing)
      && op.ids.default !in db.grants && op.ids.auto !in db.grants && op.ids.default != op.ids.auto
      && op.ids.request !in Current(db.log) && op.ids.autoRequest !in Current(db.log)
      && op.ids.request != op.ids.autoRequest
  }

  ghost function Next(db: Db, op: Op): Db
    requires Enabled(db, op)
  {
    match op
    case Create(id, grant, now) => Or(InsertGrant(db, id, grant, now), db)
    case Revoke(id, now) => RevokeStored(db, id, now)
    case AuthorizeOp(r, listing, ids, now) => Authorize(db, r, listing, ids, now).0
    case Look(requests, now) => ExpireSome(db, requests, now)
    case DecideOp(request, decision, id, now) => Or(Decide(db, request, decision, id, now), db)
    case RevokeRequestOp(request, now) => Or(RevokeRequest(db, request, now), db)
    case RevokeTargetOp(target, now) => RevokeTarget(db, target, now)
    case DeleteProjectOp(project, now) => DeleteProject(db, project, now)
    case CreateProjectOp(project) => MarkCreated(db, project)
    case SetAutoApproval(enabled) => db.(autoApproval := enabled)
  }
}
