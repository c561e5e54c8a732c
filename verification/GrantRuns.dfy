/** What the grant store promises over whole runs from an empty database. */
module GrantRuns {
  import opened Wrappers
  import opened OriginScopes
  import opened GrantLog
  import opened GrantModel
  import opened GrantAgreement

  const EMPTY := Db(map[], map[], {}, true, [])

  /** Operations that can happen one after another from db. */
  ghost predicate Path(db: Db, ops: seq<Op>)
    decreases |ops|, 0
  {
    ops != [] ==> Path(db, ops[..|ops| - 1]) && Enabled(After(db, ops[..|ops| - 1]), ops[|ops| - 1])
  }

  ghost function After(db: Db, ops: seq<Op>): Db
    requires Path(db, ops)
    decreases |ops|, 1
  {
    if ops == [] then db else Next(After(db, ops[..|ops| - 1]), ops[|ops| - 1])
  }

  ghost predicate Reachable(db: Db) {
    exists ops :: Path(EMPTY, ops) && After(EMPTY, ops) == db
  }

  lemma {:induction false} PathKeeps(db: Db, ops: seq<Op>)
    requires Agrees(db) && Path(db, ops)
    ensures Agrees(After(db, ops))
  {
    if ops != [] {
      PathKeeps(db, ops[..|ops| - 1]);
      StepKeeps(After(db, ops[..|ops| - 1]), ops[|ops| - 1]);
    }
  }

  lemma ReachableAgrees(db: Db)
    requires Reachable(db)
    ensures Agrees(db)
  {
    var ops :| Path(EMPTY, ops) && After(EMPTY, ops) == db;
    PathKeeps(EMPTY, ops);
  }

  /** After every operation, a request linked to a grant is approved exactly when that grant is
      unrevoked, and is the only request linked to it. */
  lemma RequestsAndGrantsAgree(db: Db, id: RequestId, g: GrantId)
    requires Reachable(db) && id in Current(db.log) && Current(db.log)[id].grant == Some(g)
    ensures g in db.grants
    ensures Current(db.log)[id].kind == Approved <==> db.grants[g].revokedAt.None?
    ensures forall other | other in Current(db.log) && Current(db.log)[other].grant == Some(g) :: other == id
  {
    ReachableAgrees(db);
  }

  /** A project is deleted exactly when its generation is odd, and then all its grants are revoked. */
  lemma DeletedProjectsHaveNoGrants(db: Db, project: BindingId)
    requires Reachable(db) && project in db.projects
    ensures db.projects[project].deleted <==> db.projects[project].generation % 2 == 1
    ensures db.projects[project].deleted ==>
              forall id | id in db.grants && db.grants[id].binding.project == project ::
                db.grants[id].revokedAt.Some?
  {
    ReachableAgrees(db);
  }

  /** Every history is a word of the automaton. */
  lemma HistoriesFollowTheAutomaton(db: Db, id: RequestId)
    requires Reachable(db)
    ensures Word(Kinds(History(db.log, id)))
  {
    ReachableAgrees(db);
    HistoriesAreWords(db.log, id);
  }

  // ---- the log only grows ----

  lemma {:induction false} ExpireRowsGrows(log: seq<Row>, rows: seq<Row>, now: int)
    ensures log <= ExpireRows(log, rows, now)
  {
    if rows != [] { ExpireRowsGrows(log, rows[..|rows| - 1], now); }
  }

  lemma {:induction false} RevokeRowsGrows(db: Db, rows: seq<Row>, t: Target, now: int)
    ensures db.log <= RevokeRows(db, rows, t, now).log
  {
    if rows != [] { RevokeRowsGrows(db, rows[..|rows| - 1], t, now); }
  }

  lemma RevokeMatchingGrows(db: Db, t: Target, now: int)
    ensures db.log <= RevokeMatching(db, t, now).log
  {
    ExpireRowsGrows(db.log, LatestRows(db.log), now);
    var expired := db.(log := ExpireAll(db.log, now));
    RevokeRowsGrows(expired, LatestRows(expired.log), t, now);
  }

  lemma ByRequestGrows(db: Db, r: Request, id: RequestId, now: int)
    ensures db.log <= AuthorizeByRequest(db, r, id, now).0.log
    ensures AuthorizeByRequest(db, r, id, now).0.withdrawn == db.withdrawn
  {
    ExpireRowsGrows(db.log, LatestRows(db.log), now);
  }

  lemma AutoApproveGrows(db: Db, r: Request, ids: Drawn, now: int)
    requires r.origin.Some?
    ensures db.log <= AutoApprove(db, r, ids, now).log
    ensures AutoApprove(db, r, ids, now).withdrawn == db.withdrawn
  {}

  lemma FurtherGrows(db: Db, grants: seq<Grant>, r: Request, ids: Drawn, now: int)
    ensures db.log <= AuthorizeFurther(db, grants, r, ids, now).0.log
    ensures AuthorizeFurther(db, grants, r, ids, now).0.withdrawn == db.withdrawn
  {
    ByRequestGrows(db, r, ids.request, now);
    if r.origin.Some? {
      AutoApproveGrows(db, r, ids, now);
      ByRequestGrows(AutoApprove(db, r, ids, now), r, ids.request, now);
    }
  }

  lemma AuthorizeGrows(db: Db, r: Request, listing: seq<GrantId>, ids: Drawn, now: int)
    requires forall i | 0 <= i < |listing| :: listing[i] in db.grants
    ensures db.log <= Authorize(db, r, listing, ids, now).0.log
    ensures db.withdrawn <= Authorize(db, r, listing, ids, now).0.withdrawn
  {
    var grants := Listed(db, listing);
    var db1 := WithDefaultAccess(db, grants, r, ids, now);
    assert db1.log == db.log && db.withdrawn <= db1.withdrawn;
    FurtherGrows(db1, grants, r, ids, now);
  }

  lemma DecideGrows(db: Db, id: RequestId, decision: Decision, grant: GrantId, now: int)
    ensures db.log <= Or(Decide(db, id, decision, grant, now), db).log
  {
    ExpireRowsGrows(db.log, LatestRows(db.log), now);
    var expired := db.(log := ExpireAll(db.log, now));
    if id in Current(expired.log) {
      var row := Current(expired.log)[id];
      assert expired.log <= Or(DecideRow(expired, row, decision, grant, now), expired).log;
    }
  }

  lemma RevokeRequestGrows(db: Db, id: RequestId, now: int)
    ensures db.log <= Or(RevokeRequest(db, id, now), db).log
  {
    ExpireRowsGrows(db.log, LatestRows(db.log), now);
    var expired := db.(log := ExpireAll(db.log, now));
    if id in Current(expired.log) {
      var row := Current(expired.log)[id];
      assert expired.log <= RevokeRow(expired, row, now).log;
    }
  }

  lemma RevokeStoredGrows(db: Db, id: GrantId, now: int)
    ensures db.log <= RevokeStored(db, id, now).log
  {}

  lemma DeleteGrows(db: Db, project: BindingId, now: int)
    ensures db.log <= DeleteProject(db, project, now).log
  {
    RevokeMatchingGrows(MarkDeleted(db, project, now), ByProject(project), now);
  }

  lemma RevokeTargetGrows(db: Db, t: Target, now: int)
    ensures db.log <= RevokeTarget(db, t, now).log
  {
    RevokeMatchingGrows(db.(grants := RevokeGrants(db.grants, t, now)), t, now);
  }

  lemma RequestsGrow(db: Db, op: Op)
    requires Enabled(db, op)
    requires op.Look? || op.DecideOp? || op.RevokeRequestOp?
    ensures db.log <= Next(db, op).log
  {
    match op
    case Look(requests, now) => ExpireRowsGrows(db.log, Selected(LatestRows(db.log), requests), now);
    case DecideOp(request, decision, id, now) => DecideGrows(db, request, decision, id, now);
    case RevokeRequestOp(request, now) => RevokeRequestGrows(db, request, now);
  }

  lemma LogGrows(db: Db, op: Op)
    requires Enabled(db, op)
    ensures db.log <= Next(db, op).log
  {
    match op
    case Create(_, _, _) =>
    case Revoke(id, now) => RevokeStoredGrows(db, id, now);
    case AuthorizeOp(r, listing, ids, now) => AuthorizeGrows(db, r, listing, ids, now);
    case Look(_, _) | DecideOp(_, _, _, _) | RevokeRequestOp(_, _) => RequestsGrow(db, op);
    case RevokeTargetOp(t, now) => RevokeTargetGrows(db, t, now);
    case DeleteProjectOp(project, now) => DeleteGrows(db, project, now);
    case CreateProjectOp(_) =>
    case SetAutoApproval(_) =>
  }

  /** No approval comes after a final event or after consumption. */
  predicate Spent(kind: Kind) {
    kind in {Denied, Consumed, Expired, Revoked}
  }

  lemma {:induction false} SpentInLongerLog(log: seq<Row>, longer: seq<Row>, id: RequestId)
    requires Legal(longer) && log <= longer && id in Current(log) && Spent(Current(log)[id].kind)
    ensures id in Current(longer) && Spent(Current(longer)[id].kind)
  {
    if |log| == |longer| {
      assert log == longer;
    } else {
      assert log <= longer[..|longer| - 1];
      SpentInLongerLog(log, longer[..|longer| - 1], id);
    }
  }

  lemma {:induction false} SpentStaysSpent(db: Db, ops: seq<Op>, id: RequestId)
    requires Agrees(db) && Path(db, ops) && id in Current(db.log) && Spent(Current(db.log)[id].kind)
    ensures id in Current(After(db, ops).log) && Spent(Current(After(db, ops).log)[id].kind)
  {
    if ops != [] {
      var front := ops[..|ops| - 1];
      SpentStaysSpent(db, front, id);
      PathKeeps(db, ops);
      LogGrows(After(db, front), ops[|ops| - 1]);
      SpentInLongerLog(After(db, front).log, After(db, ops).log, id);
    }
  }

  // ---- temporary approvals ----

  ghost function OutcomeOf(db: Db, op: Op): Outcome
    requires Enabled(db, op) && op.AuthorizeOp?
  {
    Authorize(db, op.r, op.listing, op.ids, op.now).1
  }

  lemma ByRequestIsApproved(db: Db, r: Request, id: RequestId, now: int, request: RequestId, temporary: Temporary)
    requires Legal(db.log)
    requires AuthorizeByRequest(db, r, id, now).1 == ByRequest(request, temporary)
    ensures request in Current(db.log)
    ensures var row := Current(db.log)[request];
            && r.origin.Some? && row.kind == Approved && row.ask == AskOf(r)
            && row.temporary == Some(temporary) && now < temporary.until
    ensures var after := AuthorizeByRequest(db, r, id, now).0.log;
            request in Current(after)
            && Current(after)[request].kind == if temporary.mode == Retry then Consumed else Approved
  {
    var log := ExpireAll(db.log, now);
    ExpireAllEffect(db.log, now);
    LatestRowsAreCurrent(log);
    AllCoherent(db.log);
    FirstUsableIs(LatestRows(log), AskOf(r), now);
    var row := FirstUsable(LatestRows(log), AskOf(r), now).value;
    assert Current(log)[row.request] == row && row == Current(db.log)[row.request];
    CurrentAfter(log, row.As(Consumed, now));
  }

  lemma {:induction false} ApprovedUntil(log: seq<Row>, id: RequestId)
    requires Legal(log) && id in Current(log) && Current(log)[id].kind == Approved
    ensures var row := Current(log)[id];
            row.temporary.Some? ==> row.temporary.value.until == row.at + Lifetime(row.temporary.value.mode)
  {
    if log[|log| - 1].request != id { ApprovedUntil(log[..|log| - 1], id); }
  }

  lemma FurtherByRequest(db: Db, grants: seq<Grant>, r: Request, ids: Drawn, now: int)
    ensures var further := AuthorizeFurther(db, grants, r, ids, now);
            further.1.ByRequest? ==> further == AuthorizeByRequest(db, r, ids.request, now)
  {
    if GetsAutoApproval(db, grants, r, now) { AutoApprovedIsAllowed(grants, r, now); }
  }

  /** A plain request for an origin is always covered by an exact grant of it. */
  lemma AutoApprovedIsAllowed(grants: seq<Grant>, r: Request, now: int)
    requires r.origin.Some? && !r.fileTransfer && !r.invalidCertificate
    ensures var auto := GrantFor(PersistentGrant(AskOf(r), false), now);
            AuthorizeAgainst(grants + [auto], r, now).Ok?
  {
    var auto := GrantFor(PersistentGrant(AskOf(r), false), now);
    assert (grants + [auto])[|grants|] == auto && Covers(auto, r, now);
    AuthorizesTheBroadest(grants + [auto], r, now);
  }

  /** A temporary approval authorizes only what was asked, only while its request's latest event is
      the approval itself, and only before the approval time plus five or sixty minutes; one for a
      retry is consumed by it. */
  lemma TemporaryApprovalsAreLimited(db: Db, op: Op, id: RequestId, temporary: Temporary)
    requires Reachable(db) && Enabled(db, op) && op.AuthorizeOp?
    requires OutcomeOf(db, op) == ByRequest(id, temporary)
    ensures id in Current(db.log)
    ensures var row := Current(db.log)[id];
            && op.r.origin.Some? && row.ask == AskOf(op.r) && row.kind == Approved
            && row.temporary == Some(temporary)
            && op.now < temporary.until == row.at + Lifetime(temporary.mode)
    ensures var after := Current(Next(db, op).log);
            id in after && after[id].kind == if temporary.mode == Retry then Consumed else Approved
  {
    ReachableAgrees(db);
    var grants := Listed(db, op.listing);
    var db1 := WithDefaultAccess(db, grants, op.r, op.ids, op.now);
    assert db1.log == db.log;
    FurtherByRequest(db1, grants, op.r, op.ids, op.now);
    ByRequestIsApproved(db1, op.r, op.ids.request, op.now, id, temporary);
    ApprovedUntil(db.log, id);
  }

  /** Once its expiry or revocation is in the log, or it is spent, a request never authorizes again,
      whatever the clock says. */
  lemma ClosedRequestsNeverAuthorize(db: Db, ops: seq<Op>, op: Op, id: RequestId)
    requires Reachable(db) && id in Current(db.log) && Spent(Current(db.log)[id].kind)
    requires Path(db, ops) && Enabled(After(db, ops), op) && op.AuthorizeOp?
    ensures !(OutcomeOf(After(db, ops), op).ByRequest? && OutcomeOf(After(db, ops), op).request == id)
  {
    ReachableAgrees(db);
    SpentStaysSpent(db, ops, id);
    ReachableOnward(db, ops);
    var outcome := OutcomeOf(After(db, ops), op);
    if outcome.ByRequest? && outcome.request == id {
      TemporaryApprovalsAreLimited(After(db, ops), op, id, outcome.temporary);
    }
  }

  lemma ReachableOnward(db: Db, ops: seq<Op>)
    requires Reachable(db) && Path(db, ops)
    ensures Reachable(After(db, ops))
  {
    var start :| Path(EMPTY, start) && After(EMPTY, start) == db;
    PathsJoin(EMPTY, start, ops);
  }

  lemma {:induction false} PathsJoin(db: Db, first: seq<Op>, second: seq<Op>)
    requires Path(db, first) && Path(After(db, first), second)
    ensures Path(db, first + second) && After(db, first + second) == After(After(db, first), second)
  {
    if second == [] {
      assert first + second == first;
    } else {
      PathsJoin(db, first, second[..|second| - 1]);
      assert (first + second)[..|first + second| - 1] == first + second[..|second| - 1];
    }
  }

  ghost predicate Spends(db: Db, op: Op, id: RequestId)
    requires Enabled(db, op)
  {
    && op.AuthorizeOp? && OutcomeOf(db, op).ByRequest?
    && OutcomeOf(db, op).request == id && OutcomeOf(db, op).temporary.mode == Retry
  }

  /** How many authorizations on a path were allowed by one request's retry approval. */
  ghost function Spendings(db: Db, ops: seq<Op>, id: RequestId): nat
    requires Path(db, ops)
  {
    if ops == [] then 0
    else
      var before, op := After(db, ops[..|ops| - 1]), ops[|ops| - 1];
      Spendings(db, ops[..|ops| - 1], id)
      + if Spends(before, op, id) then 1 else 0
  }

  /** A retry approval is spent by at most one allowed authorization in any run. */
  lemma {:induction false} RetriesAreSpentOnce(ops: seq<Op>, id: RequestId)
    requires Path(EMPTY, ops)
    ensures Spendings(EMPTY, ops, id) <= 1
    ensures Spendings(EMPTY, ops, id) == 1 ==>
              id in Current(After(EMPTY, ops).log) && Spent(Current(After(EMPTY, ops).log)[id].kind)
  {
    if ops != [] {
      RetriesAreSpentOnce(ops[..|ops| - 1], id);
      assert Reachable(After(EMPTY, ops[..|ops| - 1]));
      SpendingStep(After(EMPTY, ops[..|ops| - 1]), ops[|ops| - 1], id);
    }
  }

  /** A step that spends a retry approval finds it unspent and leaves it spent; no other step
      brings one back. */
  lemma SpendingStep(db: Db, op: Op, id: RequestId)
    requires Reachable(db) && Enabled(db, op)
    ensures Spends(db, op, id) ==>
              id in Current(db.log) && Current(db.log)[id].kind == Approved
              && id in Current(Next(db, op).log) && Current(Next(db, op).log)[id].kind == Consumed
    ensures id in Current(db.log) && Spent(Current(db.log)[id].kind) ==>
              id in Current(Next(db, op).log) && Spent(Current(Next(db, op).log)[id].kind)
  {
    if Spends(db, op, id) { TemporaryApprovalsAreLimited(db, op, id, OutcomeOf(db, op).temporary); }
    if id in Current(db.log) && Spent(Current(db.log)[id].kind) {
      ReachableAgrees(db);
      StepKeeps(db, op);
      LogGrows(db, op);
      SpentInLongerLog(db.log, Next(db, op).log, id);
    }
  }

  // ---- deleted projects and withdrawn access ----

  /** Revoking what matches leaves no open request of the target. */
  lemma NothingStaysOpen(db: Db, t: Target, now: int)
    requires Legal(db.log)
    ensures forall id | id in Current(RevokeMatching(db, t, now).log) ::
              t.Covers(Current(RevokeMatching(db, t, now).log)[id].ask.binding) ==>
                !Revocable(Current(RevokeMatching(db, t, now).log)[id], now)
  {
    var expired := db.(log := ExpireAll(db.log, now));
    ExpireAllEffect(db.log, now);
    AllRowsAreLatest(expired.log);
    RevokeRowsEffect(expired, LatestRows(expired.log), t, now);
  }

  /** Deleting a stored project leaves nothing of it open: every grant revoked, every request closed. */
  lemma DeletionClosesEverything(db: Db, project: BindingId, now: int)
    requires Reachable(db) && project in db.projects
    ensures var after := DeleteProject(db, project, now);
            && project in after.projects && after.projects[project].deleted
            && (forall id | id in after.grants && after.grants[id].binding.project == project ::
                  after.grants[id].revokedAt.Some?)
            && forall id | id in Current(after.log) && Current(after.log)[id].ask.binding.project == project ::
                 !Revocable(Current(after.log)[id], now)
  {
    ReachableAgrees(db);
    DeleteProjectKeeps(db, project, now);
    var marked := MarkDeleted(db, project, now);
    RevokeMatchingKeepsProjects(marked, ByProject(project), now);
    NothingStaysOpen(marked, ByProject(project), now);
  }

  lemma {:induction false} RevokeRowsKeepProjects(db: Db, rows: seq<Row>, t: Target, now: int)
    ensures RevokeRows(db, rows, t, now).projects == db.projects
    ensures RevokeRows(db, rows, t, now).grants.Keys == db.grants.Keys
    ensures RevokeRows(db, rows, t, now).withdrawn == db.withdrawn
  {
    if rows != [] { RevokeRowsKeepProjects(db, rows[..|rows| - 1], t, now); }
  }

  lemma RevokeMatchingKeepsProjects(db: Db, t: Target, now: int)
    ensures RevokeMatching(db, t, now).projects == db.projects
    ensures RevokeMatching(db, t, now).withdrawn == db.withdrawn
  {
    var expired := db.(log := ExpireAll(db.log, now));
    RevokeRowsKeepProjects(expired, LatestRows(expired.log), t, now);
  }

  lemma ListedAreAlive(db: Db, binding: Binding, listing: seq<GrantId>, i: nat)
    requires Reachable(db) && Lists(db, binding, listing) && i < |listing|
    ensures !Tombstoned(db, binding.project)
  {
    ReachableAgrees(db);
    assert listing[i] in db.grants;
  }

  /** A deleted project is never authorized by a grant and is given none. */
  lemma DeletedProjectsGetNoGrant(db: Db, op: Op)
    requires Reachable(db) && Enabled(db, op) && op.AuthorizeOp? && Tombstoned(db, op.r.binding.project)
    ensures !OutcomeOf(db, op).ByGrant? && Next(db, op).grants == db.grants
  {
    if op.listing != [] { ListedAreAlive(db, op.r.binding, op.listing, 0); }
    AuthorizesTheBroadest([], op.r, op.now);
    assert Listed(db, op.listing) == [];
  }

  lemma WithdrawnAccessIsNotGiven(db: Db, op: Op)
    requires Enabled(db, op) && op.AuthorizeOp? && op.r.binding in db.withdrawn
    ensures Next(db, op).grants == db.grants && Next(db, op).withdrawn == db.withdrawn
  {}

  lemma RevocationsKeepWithdrawn(db: Db, id: RequestId, t: Target, project: BindingId, now: int)
    ensures Or(RevokeRequest(db, id, now), db).withdrawn == db.withdrawn
    ensures RevokeTarget(db, t, now).withdrawn == db.withdrawn
    ensures DeleteProject(db, project, now).withdrawn == db.withdrawn
  {
    RevokeMatchingKeepsProjects(db.(grants := RevokeGrants(db.grants, t, now)), t, now);
    RevokeMatchingKeepsProjects(MarkDeleted(db, project, now), ByProject(project), now);
  }

  lemma RevokeStoredKeepsWithdrawn(db: Db, id: GrantId, now: int)
    ensures db.withdrawn <= RevokeStored(db, id, now).withdrawn
  {}

  /** Withdrawn access comes back only when a whole-web grant is created for that binding. */
  lemma WithdrawalLasts(db: Db, op: Op, binding: Binding)
    requires Enabled(db, op) && binding in db.withdrawn
    requires !(op.Create? && op.grant.binding == binding && op.grant.scope.WholeWeb?)
    ensures binding in Next(db, op).withdrawn
  {
    match op
    case Create(id, grant, now) => InsertKeepsWithdrawn(db, id, grant, now, binding);
    case Revoke(id, now) => RevokeStoredKeepsWithdrawn(db, id, now);
    case AuthorizeOp(r, listing, ids, now) => AuthorizeGrows(db, r, listing, ids, now);
    case Look(_, _) =>
    case DecideOp(request, decision, id, now) => DecisionsKeepWithdrawn(db, request, decision, id, now);
    case RevokeRequestOp(request, now) => RevocationsKeepWithdrawn(db, request, ByProject(0), 0, now);
    case RevokeTargetOp(t, now) => RevocationsKeepWithdrawn(db, 0, t, 0, now);
    case DeleteProjectOp(project, now) => RevocationsKeepWithdrawn(db, 0, ByProject(0), project, now);
    case CreateProjectOp(_) =>
    case SetAutoApproval(_) =>
  }

  lemma InsertKeepsWithdrawn(db: Db, id: GrantId, g: NewGrant, now: int, binding: Binding)
    requires binding in db.withdrawn && !(g.binding == binding && g.scope.WholeWeb?)
    ensures binding in Or(InsertGrant(db, id, g, now), db).withdrawn
  {}

  /** An approved request's grant is for an exact origin. */
  lemma DecisionsKeepWithdrawn(db: Db, request: RequestId, decision: Decision, id: GrantId, now: int)
    ensures Or(Decide(db, request, decision, id, now), db).withdrawn == db.withdrawn
  {}

  predicate RestoresDefault(op: Op, binding: Binding) {
    op.Create? && op.grant.binding == binding && op.grant.scope.WholeWeb?
  }

  lemma {:induction false} WithdrawnAlongPath(db: Db, ops: seq<Op>, binding: Binding)
    requires Path(db, ops) && binding in db.withdrawn
    requires forall i | 0 <= i < |ops| :: !RestoresDefault(ops[i], binding)
    ensures binding in After(db, ops).withdrawn
  {
    if ops != [] {
      var front := ops[..|ops| - 1];
      assert forall i | 0 <= i < |front| :: front[i] == ops[i];
      WithdrawnAlongPath(db, front, binding);
      WithdrawalLasts(After(db, front), ops[|ops| - 1], binding);
    }
  }

  /** Once a whole-web grant is revoked, and until somebody creates another for that binding,
      authorizing never creates a grant for it: it can only use one that exists, or a request. */
  lemma RevokedDefaultIsNotGivenBack(db: Db, id: GrantId, now: int, ops: seq<Op>, op: Op)
    requires id in db.grants && db.grants[id].revokedAt.None? && db.grants[id].scope.WholeWeb?
    requires Path(RevokeStored(db, id, now), ops)
    requires forall i | 0 <= i < |ops| :: !RestoresDefault(ops[i], db.grants[id].binding)
    requires op.AuthorizeOp? && op.r.binding == db.grants[id].binding
    requires Enabled(After(RevokeStored(db, id, now), ops), op)
    ensures var u := After(RevokeStored(db, id, now), ops);
            op.r.binding in u.withdrawn && Next(u, op).grants == u.grants
  {
    WithdrawnAlongPath(RevokeStored(db, id, now), ops, op.r.binding);
    WithdrawnAccessIsNotGiven(After(RevokeStored(db, id, now), ops), op);
  }
}
