/** The grant store as the plugin keeps it: tables changed in place, an event log that is only
    appended to, and transactions that put everything back when they throw. */
module GrantStore {
  import opened Wrappers
  import opened OriginScopes
  import opened GrantLog
  import opened GrantModel
  import opened GrantAgreement

  datatype RevokeOutcome = WasRevoked | AlreadyRevoked | NoSuchGrant

  datatype Response = NowDenied | NowPersisted | NowApproved(mode: Mode) | WasExpired | AlreadyDecided

  class Store {
    var grants: map<GrantId, Grant>
    var projects: map<BindingId, Project>
    var withdrawn: set<Binding>
    var autoApproval: bool
    var events: seq<Row>

    function Model(): Db
      reads this
    {
      Db(grants, projects, withdrawn, autoApproval, events)
    }

    ghost predicate Valid()
      reads this
    {
      Agrees(Model())
    }

    constructor ()
      ensures Valid() && Model() == Db(map[], map[], {}, true, [])
    {
      grants, projects, withdrawn, autoApproval, events := map[], map[], {}, true, [];
    }

    method Rollback(saved: Db)
      modifies this
      ensures Model() == saved
    {
      grants, projects, withdrawn := saved.grants, saved.projects, saved.withdrawn;
      autoApproval, events := saved.autoApproval, saved.log;
    }

    method AppendEvent(row: Row)
      modifies this`events
      ensures events == old(events) + [row]
    {
      events := events + [row];
    }

    method ExpireRowsAt(now: int, rows: seq<Row>)
      modifies this`events
      ensures events == ExpireRows(old(events), rows, now)
    {
      for i := 0 to |rows|
        invariant events == ExpireRows(old(events), rows[..i], now)
      {
        assert rows[..i + 1][..i] == rows[..i];
        if Lapsed(rows[i], now) { AppendEvent(rows[i].As(Expired, now)); }
      }
      assert rows[..|rows|] == rows;
    }

    method ExpireLatest(now: int)
      modifies this`events
      ensures events == ExpireAll(old(events), now)
    {
      ExpireRowsAt(now, LatestRows(events));
    }

    method InsertGrant(id: GrantId, g: NewGrant, now: int) returns (r: Result<Grant, Failure>)
      requires Valid()
      modifies this
      ensures Valid()
      ensures var spec := GrantModel.InsertGrant(old(Model()), id, g, now);
              && r.Ok? == spec.Ok? && Model() == Or(spec, old(Model()))
              && (if r.Ok? then r.value == grants[id] else r.error == spec.error)
    {
      InsertKeeps(Model(), id, g, now);
      if g.persistent && !g.confirmed { return Err(NotConfirmed); }
      if exists o :: o in g.certificates && !Permits(g.scope, o) { return Err(OutsideScope); }
      if Tombstoned(Model(), g.binding.project) { return Err(Failure.ProjectDeleted); }
      if id in grants { return Err(IdTaken); }
      if g.binding.project !in projects {
        projects := projects[g.binding.project := Project(0, false)];
      }
      var grant := GrantFor(g, now);
      grants := grants[id := grant];
      if g.scope.WholeWeb? { withdrawn := withdrawn - {g.binding}; }
      return Ok(grant);
    }

    method UpdateRevocation(id: GrantId, now: int)
      modifies this`grants
      ensures grants == RevokeGrant(old(grants), id, now)
    {
      if id in grants && grants[id].revokedAt.None? {
        grants := grants[id := grants[id].(revokedAt := Some(now))];
      }
    }

    /** The owner revokes a grant in the settings. */
    method Revoke(id: GrantId, now: int) returns (outcome: RevokeOutcome)
      requires Valid()
      modifies this
      ensures Valid() && Model() == RevokeStored(old(Model()), id, now)
      ensures outcome.NoSuchGrant? <==> id !in old(grants)
      ensures outcome.WasRevoked? <==> id in old(grants) && old(grants)[id].revokedAt.None?
    {
      RevokeStoredKeeps(Model(), id, now);
      if id !in grants { return NoSuchGrant; }
      if grants[id].revokedAt.Some? { return AlreadyRevoked; }
      var g := grants[id];
      UpdateRevocation(id, now);
      if g.scope.WholeWeb? { withdrawn := withdrawn + {g.binding}; }
      var linked := LinkedRow(LatestRows(events), id);
      if linked.Some? { AppendEvent(linked.value.As(Revoked, now)); }
      return WasRevoked;
    }

    /** A requested row becomes a persistent grant, linked to it. */
    method PersistApproval(row: Row, id: GrantId, confirmed: bool, now: int) returns (r: Result<Grant, Failure>)
      requires Valid() && row.kind == Requested && Coherent(row)
      requires row.request in Current(events) && Current(events)[row.request] == row
      modifies this
      ensures Valid()
      ensures var spec := Persist(old(Model()), row, id, confirmed, now);
              && r.Ok? == spec.Ok? && Model() == Or(spec, old(Model()))
              && (if r.Ok? then id in grants && r.value == grants[id] else r.error == spec.error)
    {
      PersistKeeps(Model(), row, id, confirmed, now);
      r := InsertGrant(id, PersistentGrant(row.ask, confirmed), now);
      if r.Ok? { AppendEvent(row.(kind := Approved, grant := Some(id), at := now)); }
    }

    method DecideOpen(row: Row, decision: Decision, grant: GrantId, now: int)
      returns (response: Result<Response, Failure>)
      requires Valid() && Coherent(row) && row.kind == Requested
      requires row.request in Current(events) && Current(events)[row.request] == row
      modifies this
      ensures Valid()
      ensures var spec := DecideRow(old(Model()), row, decision, grant, now);
              && response.Ok? == spec.Ok? && Model() == Or(spec, old(Model()))
              && (spec.Err? ==> response == Err(spec.error))
    {
      DecideRowKeeps(Model(), row, decision, grant, now);
      match decision
      case Deny =>
        AppendEvent(row.As(Denied, now));
        return Ok(NowDenied);
      case PersistIt(confirmed) =>
        var persisted := PersistApproval(row, grant, confirmed, now);
        return if persisted.Ok? then Ok(NowPersisted) else Err(persisted.error);
      case Temporarily(mode) =>
        AppendEvent(row.(kind := Approved, temporary := Some(Temporary(mode, now + Lifetime(mode))), at := now));
        return Ok(NowApproved(mode));
    }

    method DecideRequest(id: RequestId, decision: Decision, grant: GrantId, now: int)
      returns (response: Result<Response, Failure>)
      requires Valid()
      modifies this
      ensures Valid()
      ensures var spec := Decide(old(Model()), id, decision, grant, now);
              && response.Ok? == spec.Ok? && Model() == Or(spec, old(Model()))
    {
      var saved := Model();
      ExpireAllKeeps(events, grants, {}, now);
      ExpireLatest(now);
      AllCoherent(events);
      var current := Current(events);
      if id !in current {
        Rollback(saved);
        return Err(NotFound);
      }
      var row := current[id];
      if row.kind != Requested {
        return Ok(if row.kind == Expired then WasExpired else AlreadyDecided);
      }
      response := DecideOpen(row, decision, grant, now);
      if response.Err? { Rollback(saved); }
    }

    method RevokeRow(row: Row, now: int)
      modifies this`grants, this`events
      ensures Model() == GrantModel.RevokeRow(old(Model()), row, now)
    {
      if row.grant.Some? { UpdateRevocation(row.grant.value, now); }
      AppendEvent(row.As(Revoked, now));
    }

    method RevokeRequest(id: RequestId, now: int) returns (r: Result<Row, Failure>)
      requires Valid()
      modifies this
      ensures Valid()
      ensures var spec := GrantModel.RevokeRequest(old(Model()), id, now);
              && r.Ok? == spec.Ok? && Model() == Or(spec, old(Model()))
      ensures r.Ok? ==> id in Current(events) && !Revocable(Current(events)[id], now)
    {
      RevokeRequestKeeps(Model(), id, now);
      var saved := Model();
      ExpireLatest(now);
      var current := Current(events);
      if id !in current {
        Rollback(saved);
        return Err(NotFound);
      }
      var row := current[id];
      ExpireAllEffect(saved.log, now);
      AllCoherent(events);
      if Revocable(row, now) {
        CurrentAfter(events, row.As(Revoked, now));
        RevokeRow(row, now);
      }
      return Ok(row);
    }

    method RevokeMatching(t: Target, now: int)
      modifies this
      ensures Model() == GrantModel.RevokeMatching(old(Model()), t, now)
    {
      ExpireLatest(now);
      ghost var expired := Model();
      var rows := LatestRows(events);
      for i := 0 to |rows|
        invariant Model() == RevokeRows(expired, rows[..i], t, now)
      {
        assert rows[..i + 1][..i] == rows[..i];
        if t.Covers(rows[i].ask.binding) && Revocable(rows[i], now) { RevokeRow(rows[i], now); }
      }
      assert rows[..|rows|] == rows;
    }

    method RevokeTarget(t: Target, now: int)
      requires Valid()
      modifies this
      ensures Valid() && Model() == GrantModel.RevokeTarget(old(Model()), t, now)
    {
      RevokeTargetKeeps(Model(), t, now);
      grants := RevokeGrants(grants, t, now);
      RevokeMatching(t, now);
    }

    method MarkProjectDeleted(project: BindingId, now: int)
      modifies this`projects, this`grants
      ensures Model() == MarkDeleted(old(Model()), project, now)
    {
      if project !in projects || projects[project].deleted { return; }
      projects := projects[project := Project(projects[project].generation + 1, true)];
      grants := RevokeGrants(grants, ByProject(project), now);
    }

    method ProjectDeleted(project: BindingId, now: int)
      requires Valid()
      modifies this
      ensures Valid() && Model() == DeleteProject(old(Model()), project, now)
    {
      DeleteProjectKeeps(Model(), project, now);
      MarkProjectDeleted(project, now);
      RevokeMatching(ByProject(project), now);
    }

    method ProjectCreated(project: BindingId) returns (generation: nat)
      requires Valid()
      modifies this`projects
      ensures Valid() && Model() == MarkCreated(old(Model()), project)
      ensures project in projects && generation == projects[project].generation && generation % 2 == 0
    {
      CreateProjectKeeps(Model(), project);
      if project !in projects {
        projects := projects[project := Project(0, false)];
      } else if projects[project].deleted {
        projects := projects[project := Project(projects[project].generation + 1, false)];
      }
      return projects[project].generation;
    }

    method AuthorizeByRequest(r: Request, id: RequestId, now: int) returns (outcome: Outcome)
      requires Valid() && id !in Current(events)
      modifies this`events
      ensures Valid()
      ensures (Model(), outcome) == GrantModel.AuthorizeByRequest(old(Model()), r, id, now)
    {
      AuthorizeByRequestKeeps(Model(), r, id, now);
      if r.origin.None? { return Refused(None); }
      ExpireLatest(now);
      FirstUsableIs(LatestRows(events), AskOf(r), now);
      var usable := FirstUsable(LatestRows(events), AskOf(r), now);
      if usable.None? {
        AppendEvent(NewRow(id, AskOf(r), now));
        return Refused(Some(id));
      }
      var row := usable.value;
      if row.temporary.value.mode == Retry { AppendEvent(row.As(Consumed, now)); }
      return ByRequest(row.request, row.temporary.value);
    }

    method AutoApprove(r: Request, ids: Drawn, now: int)
      requires Valid() && r.origin.Some? && ids.autoRequest !in Current(events)
      modifies this
      ensures Valid() && Model() == GrantModel.AutoApprove(old(Model()), r, ids, now)
    {
      var saved := Model();
      AutoApproveKeeps(saved, r, ids, now);
      var row := NewRow(ids.autoRequest, AskOf(r), now);
      AppendUnlinked(events, grants, {}, row);
      CurrentAfter(events, row);
      AppendEvent(row);
      var approved := PersistApproval(row, ids.auto, false, now);
      if approved.Err? { Rollback(saved); }
    }

    method AuthorizeFurther(listed: seq<Grant>, r: Request, ids: Drawn, now: int) returns (outcome: Outcome)
      requires Valid() && ids.request !in Current(events) && ids.autoRequest !in Current(events)
      requires ids.request != ids.autoRequest
      modifies this
      ensures Valid()
      ensures (Model(), outcome) == GrantModel.AuthorizeFurther(old(Model()), listed, r, ids, now)
    {
      if GetsAutoApproval(Model(), listed, r, now) {
        AutoApproveKeeps(Model(), r, ids, now);
        AutoApprove(r, ids, now);
        var auto := GrantFor(PersistentGrant(AskOf(r), false), now);
        var decision := AuthorizeAgainst(listed + [auto], r, now);
        if decision.Ok? { return ByGrant(decision.value); }
      }
      outcome := AuthorizeByRequest(r, ids.request, now);
    }

    /** An agent's operation: a stored grant, default access, an auto-approved origin, a temporary
        approval, or a new request for the owner. */
    method Authorize(r: Request, listing: seq<GrantId>, ids: Drawn, now: int) returns (outcome: Outcome)
      requires Valid() && Enabled(Model(), AuthorizeOp(r, listing, ids, now))
      modifies this
      ensures Valid()
      ensures (Model(), outcome) == GrantModel.Authorize(old(Model()), r, listing, ids, now)
    {
      var listed := Listed(Model(), listing);
      var stored := AuthorizeAgainst(listed, r, now);
      if stored.Ok? { return ByGrant(stored.value); }
      if GetsDefaultAccess(Model(), listed, r) {
        var given := DEFAULT_ACCESS(r.binding);
        var inserted := InsertGrant(ids.default, given, now);
        var decision := AuthorizeAgainst(listed + [GrantFor(given, now)], r, now);
        if decision.Ok? { return ByGrant(decision.value); }
      }
      outcome := AuthorizeFurther(listed, r, ids, now);
    }
  }
}
