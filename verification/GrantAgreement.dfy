/** The invariant that ties requests, grants and project tombstones together, and its preservation
    by every operation of the store. */
module GrantAgreement {
  import opened Wrappers
  import opened OriginScopes
  import opened GrantLog
  import opened GrantModel

  /** A request linked to a grant is approved exactly when the grant is unrevoked. For the requests
      in `late`, whose grants a running operation has revoked first, only one half is known. */
  ghost predicate Linked(cur: map<RequestId, Row>, grants: map<GrantId, Grant>, late: set<RequestId>) {
    && (forall id | id in cur && cur[id].grant.Some? ::
          && cur[id].grant.value in grants
          && grants[cur[id].grant.value].binding == cur[id].ask.binding
          && (grants[cur[id].grant.value].revokedAt.None? ==> cur[id].kind == Approved)
          && (cur[id].kind == Approved && id !in late ==> grants[cur[id].grant.value].revokedAt.None?))
    && forall a, b | a in cur && b in cur && a != b && cur[a].grant.Some? :: cur[a].grant != cur[b].grant
  }

  ghost predicate ProjectsAgree(grants: map<GrantId, Grant>, projects: map<BindingId, Project>) {
    && (forall id | id in grants :: grants[id].binding.project in projects)
    && (forall id | id in grants && grants[id].revokedAt.None? ::
          !projects[grants[id].binding.project].deleted)
    && forall p | p in projects :: projects[p].deleted <==> projects[p].generation % 2 == 1
  }

  ghost predicate Agrees(db: Db) {
    Legal(db.log) && Linked(Current(db.log), db.grants, {}) && ProjectsAgree(db.grants, db.projects)
  }

  /** The same grants, some of them revoked since. */
  ghost predicate OnlyRevoked(before: map<GrantId, Grant>, after: map<GrantId, Grant>) {
    && after.Keys == before.Keys
    && forall id | id in before ::
         after[id] == before[id]
         || (before[id].revokedAt.None? && after[id].revokedAt.Some?
             && after[id] == before[id].(revokedAt := after[id].revokedAt))
  }

  lemma RevokingKeepsProjects(before: map<GrantId, Grant>, after: map<GrantId, Grant>,
                              projects: map<BindingId, Project>)
    requires ProjectsAgree(before, projects) && OnlyRevoked(before, after)
    ensures ProjectsAgree(after, projects)
  {}

  // ---- expiry ----

  /** A linked request never expires. */
  lemma ExpiryKeepsLinks(before: map<RequestId, Row>, after: map<RequestId, Row>,
                         grants: map<GrantId, Grant>, late: set<RequestId>, now: int)
    requires Linked(before, grants, late) && after.Keys == before.Keys
    requires forall id | id in before :: Coherent(before[id])
    requires forall id | id in before :: after[id] == before[id] || after[id] == Lapse(before[id], now)
    ensures Linked(after, grants, late)
  {
    forall id | id in before && before[id].grant.Some? ensures !Lapsed(before[id], now) {}
    assert forall id | id in before :: after[id].grant == before[id].grant && after[id].ask == before[id].ask;
  }

  lemma AllCoherent(log: seq<Row>)
    requires Legal(log)
    ensures forall id | id in Current(log) :: Coherent(Current(log)[id]) && Current(log)[id].request == id
  {
    forall id | id in Current(log) ensures Coherent(Current(log)[id]) && Current(log)[id].request == id {
      CurrentIsCoherent(log, id);
    }
  }

  lemma ExpireAllKeeps(log: seq<Row>, grants: map<GrantId, Grant>, late: set<RequestId>, now: int)
    requires Legal(log) && Linked(Current(log), grants, late)
    ensures Legal(ExpireAll(log, now)) && Linked(Current(ExpireAll(log, now)), grants, late)
  {
    ExpireAllEffect(log, now);
    AllCoherent(log);
    ExpiryKeepsLinks(Current(log), Current(ExpireAll(log, now)), grants, late, now);
  }

  lemma {:induction false} SelectedAre(rows: seq<Row>, ids: set<RequestId>)
    ensures forall x :: x in Selected(rows, ids) <==> x in rows && x.request in ids
    ensures DistinctRequests(rows) ==> DistinctRequests(Selected(rows, ids))
  {
    if rows != [] {
      var front, last := rows[..|rows| - 1], rows[|rows| - 1];
      var rest := Selected(front, ids);
      SelectedAre(front, ids);
      assert rows == front + [last];
      if DistinctRequests(rows) {
        forall i | 0 <= i < |rest| ensures rest[i].request != last.request { assert rest[i] in front; }
      }
    }
  }

  lemma LookKeeps(db: Db, ids: set<RequestId>, now: int)
    requires Agrees(db)
    ensures Agrees(ExpireSome(db, ids, now))
  {
    var rows := Selected(LatestRows(db.log), ids);
    LatestRowsAreCurrent(db.log);
    SelectedAre(LatestRows(db.log), ids);
    assert forall i | 0 <= i < |rows| :: rows[i] in rows;
    ExpiryEffect(db.log, rows, now);
    AllCoherent(db.log);
    ExpiryKeepsLinks(Current(db.log), Current(ExpireRows(db.log, rows, now)), db.grants, {}, now);
  }

  // ---- one event ----

  /** A row without a link, appended where there was none. */
  lemma AppendUnlinked(log: seq<Row>, grants: map<GrantId, Grant>, late: set<RequestId>, row: Row)
    requires Legal(log) && Extends(log, row) && Linked(Current(log), grants, late)
    requires row.grant == None && (row.request in Current(log) ==> Current(log)[row.request].grant == None)
    ensures Legal(log + [row]) && Linked(Current(log + [row]), grants, late)
  {
    LegalAfter(log, row);
    CurrentAfter(log, row);
  }

  /** Revoking a row and its grant settles it. */
  lemma RevokeRowKeeps(db: Db, row: Row, late: set<RequestId>, now: int)
    requires Legal(db.log) && Linked(Current(db.log), db.grants, late)
    requires row.request in Current(db.log) && Current(db.log)[row.request] == row && Revocable(row, now)
    ensures var after := RevokeRow(db, row, now);
            && Legal(after.log) && Linked(Current(after.log), after.grants, late - {row.request})
            && OnlyRevoked(db.grants, after.grants)
            && Current(after.log) == Current(db.log)[row.request := row.As(Revoked, now)]
            && after.projects == db.projects
  {
    LegalAfter(db.log, row.As(Revoked, now));
    CurrentAfter(db.log, row.As(Revoked, now));
  }

  /** What the revocation loop does to the current events. */
  ghost predicate RevokedIn(before: map<RequestId, Row>, after: map<RequestId, Row>, ids: set<RequestId>,
                            t: Target, now: int)
  {
    && after.Keys == before.Keys
    && forall id | id in before ::
         after[id] == if id in ids && t.Covers(before[id].ask.binding) && Revocable(before[id], now)
                      then before[id].As(Revoked, now) else before[id]
  }

  lemma FrontIsCurrent(log: seq<Row>, rows: seq<Row>)
    requires AreCurrent(log, rows) && rows != []
    ensures AreCurrent(log, rows[..|rows| - 1])
    ensures rows[|rows| - 1].request !in Requests(rows[..|rows| - 1])
  {
    var front := rows[..|rows| - 1];
    assert forall i | 0 <= i < |front| :: front[i] == rows[i];
  }

  lemma {:induction false} RevokeRowsEffect(db: Db, rows: seq<Row>, t: Target, now: int)
    requires AreCurrent(db.log, rows)
    ensures RevokedIn(Current(db.log), Current(RevokeRows(db, rows, t, now).log), Requests(rows), t, now)
  {
    if rows != [] {
      var n := |rows| - 1;
      FrontIsCurrent(db.log, rows);
      RevokeRowsEffect(db, rows[..n], t, now);
      RequestsOfAppend(rows, n);
      var before := RevokeRows(db, rows[..n], t, now);
      CurrentAfter(before.log, rows[n].As(Revoked, now));
      RevokedOneMore(Current(db.log), Current(before.log), Current(RevokeRows(db, rows, t, now).log),
                     Requests(rows[..n]), rows[n], t, now);
    }
  }

  lemma {:induction false} RevokeRowsKeep(db: Db, rows: seq<Row>, t: Target, late: set<RequestId>, now: int)
    requires Legal(db.log) && Linked(Current(db.log), db.grants, late) && AreCurrent(db.log, rows)
    requires forall id | id in late && id in Current(db.log) :: t.Covers(Current(db.log)[id].ask.binding)
    ensures var after := RevokeRows(db, rows, t, now);
            && Legal(after.log) && Linked(Current(after.log), after.grants, late - Requests(rows))
            && OnlyRevoked(db.grants, after.grants) && after.projects == db.projects
  {
    if rows == [] {
      assert late - Requests(rows) == late;
    } else {
      var n := |rows| - 1;
      var front, row := rows[..n], rows[n];
      FrontIsCurrent(db.log, rows);
      RevokeRowsKeep(db, front, t, late, now);
      RevokeRowsEffect(db, front, t, now);
      RequestsOfAppend(rows, n);
      var before := RevokeRows(db, front, t, now);
      assert Current(before.log)[row.request] == row && row.request in Current(db.log);
      RevokeRowsStep(db, before, row, t, late, Requests(front), now);
    }
  }

  lemma RevokeRowsStep(db: Db, before: Db, row: Row, t: Target, late: set<RequestId>, done: set<RequestId>, now: int)
    requires Legal(before.log) && Linked(Current(before.log), before.grants, late - done)
    requires OnlyRevoked(db.grants, before.grants) && before.projects == db.projects
    requires row.request in Current(before.log) && Current(before.log)[row.request] == row
    requires row.request in late ==> t.Covers(row.ask.binding)
    ensures var after := if t.Covers(row.ask.binding) && Revocable(row, now) then RevokeRow(before, row, now) else before;
            && Legal(after.log) && Linked(Current(after.log), after.grants, late - (done + {row.request}))
            && OnlyRevoked(db.grants, after.grants) && after.projects == db.projects
  {
    RevokeOneMore(before, row, t, late - done, now);
    assert late - (done + {row.request}) == (late - done) - {row.request};
    var after := if t.Covers(row.ask.binding) && Revocable(row, now) then RevokeRow(before, row, now) else before;
    RevokedTwice(db.grants, before.grants, after.grants);
  }

  lemma RevokedTwice(a: map<GrantId, Grant>, b: map<GrantId, Grant>, c: map<GrantId, Grant>)
    requires OnlyRevoked(a, b) && OnlyRevoked(b, c)
    ensures OnlyRevoked(a, c)
  {}

  lemma RevokedOneMore(start: map<RequestId, Row>, before: map<RequestId, Row>, after: map<RequestId, Row>,
                       ids: set<RequestId>, row: Row, t: Target, now: int)
    requires RevokedIn(start, before, ids, t, now) && row.request !in ids
    requires row.request in start && start[row.request] == row
    requires after == if t.Covers(row.ask.binding) && Revocable(row, now)
                      then before[row.request := row.As(Revoked, now)] else before
    ensures RevokedIn(start, after, ids + {row.request}, t, now)
  {}

  lemma RequestsOfAppend(rows: seq<Row>, n: nat)
    requires |rows| == n + 1
    ensures Requests(rows) == Requests(rows[..n]) + {rows[n].request}
  {
    forall id | id in Requests(rows[..n]) + {rows[n].request} ensures id in Requests(rows) {
      if id in Requests(rows[..n]) {
        var i :| 0 <= i < n && rows[..n][i].request == id;
        assert rows[i].request == id;
      } else {
        assert rows[n].request == id;
      }
    }
  }

  lemma RevokeOneMore(db: Db, row: Row, t: Target, late: set<RequestId>, now: int)
    requires Legal(db.log) && Linked(Current(db.log), db.grants, late)
    requires row.request in Current(db.log) && Current(db.log)[row.request] == row
    requires row.request in late ==> t.Covers(row.ask.binding)
    ensures var after := if t.Covers(row.ask.binding) && Revocable(row, now) then RevokeRow(db, row, now) else db;
            && Legal(after.log) && Linked(Current(after.log), after.grants, late - {row.request})
            && OnlyRevoked(db.grants, after.grants) && after.projects == db.projects
            && Current(after.log) == (if t.Covers(row.ask.binding) && Revocable(row, now)
                                      then Current(db.log)[row.request := row.As(Revoked, now)]
                                      else Current(db.log))
  {
    if t.Covers(row.ask.binding) && Revocable(row, now) { RevokeRowKeeps(db, row, late, now); }
  }

  lemma AllRowsAreLatest(log: seq<Row>)
    requires Legal(log)
    ensures AreCurrent(log, LatestRows(log)) && Requests(LatestRows(log)) == Current(log).Keys
  {
    var rows := LatestRows(log);
    LatestRowsAreCurrent(log);
    AllCoherent(log);
    assert forall i | 0 <= i < |rows| :: rows[i] in rows;
    forall id | id in Current(log) ensures id in Requests(rows) {
      assert Current(log)[id] in rows;
    }
  }

  /** Revoking what is open settles every request of the target. */
  lemma RevokeMatchingKeeps(db: Db, t: Target, late: set<RequestId>, now: int)
    requires Legal(db.log) && Linked(Current(db.log), db.grants, late)
    requires ProjectsAgree(db.grants, db.projects) && late <= Current(db.log).Keys
    requires forall id | id in late :: t.Covers(Current(db.log)[id].ask.binding)
    ensures Agrees(RevokeMatching(db, t, now))
  {
    var expired := db.(log := ExpireAll(db.log, now));
    ExpireAllKeeps(db.log, db.grants, late, now);
    ExpireAllEffect(db.log, now);
    AllRowsAreLatest(expired.log);
    RevokeRowsKeep(expired, LatestRows(expired.log), t, late, now);
    var after := RevokeMatching(db, t, now);
    RevokingKeepsProjects(db.grants, after.grants, db.projects);
    assert late - Requests(LatestRows(expired.log)) == {};
  }

  ghost function CoveredBy(cur: map<RequestId, Row>, t: Target): set<RequestId> {
    set id | id in cur && t.Covers(cur[id].ask.binding)
  }

  /** Revoking a target's grants leaves only its own requests behind. */
  lemma GrantsFirst(cur: map<RequestId, Row>, grants: map<GrantId, Grant>, t: Target, now: int)
    requires Linked(cur, grants, {})
    ensures Linked(cur, RevokeGrants(grants, t, now), CoveredBy(cur, t))
    ensures OnlyRevoked(grants, RevokeGrants(grants, t, now))
  {}

  lemma RevokeTargetKeeps(db: Db, t: Target, now: int)
    requires Agrees(db)
    ensures Agrees(RevokeTarget(db, t, now))
  {
    GrantsFirst(Current(db.log), db.grants, t, now);
    var first := db.(grants := RevokeGrants(db.grants, t, now));
    RevokingKeepsProjects(db.grants, first.grants, db.projects);
    RevokeMatchingKeeps(first, t, CoveredBy(Current(db.log), t), now);
  }

  lemma DeleteProjectKeeps(db: Db, project: BindingId, now: int)
    requires Agrees(db)
    ensures Agrees(DeleteProject(db, project, now))
  {
    var t := ByProject(project);
    var marked := MarkDeleted(db, project, now);
    GrantsFirst(Current(db.log), db.grants, t, now);
    if marked == db {
      RevokeMatchingKeeps(db, t, {}, now);
    } else {
      RevokeMatchingKeeps(marked, t, CoveredBy(Current(db.log), t), now);
    }
  }

  // ---- grants ----

  lemma InsertKeeps(db: Db, id: GrantId, g: NewGrant, now: int)
    requires Agrees(db)
    ensures Agrees(Or(InsertGrant(db, id, g, now), db))
    ensures var r := InsertGrant(db, id, g, now);
            r.Ok? ==> id !in db.grants && r.value.grants == db.grants[id := GrantFor(g, now)]
                      && r.value.log == db.log
  {
    var r := InsertGrant(db, id, g, now);
    if r.Ok? {
      forall q | q in Current(db.log) && Current(db.log)[q].grant.Some?
        ensures Current(db.log)[q].grant.value != id {}
    }
  }

  lemma PersistKeeps(db: Db, row: Row, id: GrantId, confirmed: bool, now: int)
    requires Agrees(db)
    requires row.request in Current(db.log) && Current(db.log)[row.request] == row && row.kind == Requested
    requires Coherent(row)
    ensures Agrees(Or(Persist(db, row, id, confirmed, now), db))
  {
    var inserted := InsertGrant(db, id, PersistentGrant(row.ask, confirmed), now);
    InsertKeeps(db, id, PersistentGrant(row.ask, confirmed), now);
    if inserted.Ok? {
      var approved := row.(kind := Approved, grant := Some(id), at := now);
      LegalAfter(db.log, approved);
      CurrentAfter(db.log, approved);
    }
  }

  lemma {:induction false} LinkedRowIs(rows: seq<Row>, id: GrantId)
    ensures var found := LinkedRow(rows, id);
            if found.Some? then found.value in rows && found.value.grant == Some(id) && found.value.kind == Approved
            else forall x | x in rows :: x.grant == Some(id) ==> x.kind != Approved
  {
    if rows != [] { LinkedRowIs(rows[1..], id); }
  }

  /** The request linked to the grant is revoked with it. */
  lemma RevokeLinkedKeeps(db: Db, id: GrantId, now: int)
    requires Agrees(db) && id in db.grants && db.grants[id].revokedAt.None?
    requires LinkedRow(LatestRows(db.log), id).Some?
    ensures Agrees(RevokeStored(db, id, now))
  {
    var rows := LatestRows(db.log);
    LatestRowsAreCurrent(db.log);
    AllCoherent(db.log);
    LinkedRowIs(rows, id);
    var linked := LinkedRow(rows, id).value;
    RevokeRowKeeps(db, linked, {}, now);
    assert RevokeRow(db, linked, now).grants == RevokeStored(db, id, now).grants;
  }

  lemma RevokeUnlinkedKeeps(db: Db, id: GrantId, now: int)
    requires Agrees(db) && id in db.grants && db.grants[id].revokedAt.None?
    requires LinkedRow(LatestRows(db.log), id).None?
    ensures Agrees(RevokeStored(db, id, now))
  {
    var rows, cur := LatestRows(db.log), Current(db.log);
    LatestRowsAreCurrent(db.log);
    AllCoherent(db.log);
    LinkedRowIs(rows, id);
    forall q | q in cur ensures cur[q].grant != Some(id) { assert cur[q] in rows; }
    UnlinkedGrantGoes(cur, db.grants, id, now);
    RevokingKeepsProjects(db.grants, RevokeGrant(db.grants, id, now), db.projects);
  }

  lemma UnlinkedGrantGoes(cur: map<RequestId, Row>, grants: map<GrantId, Grant>, id: GrantId, now: int)
    requires Linked(cur, grants, {}) && id in grants && grants[id].revokedAt.None?
    requires forall q | q in cur :: cur[q].grant != Some(id)
    ensures Linked(cur, RevokeGrant(grants, id, now), {}) && OnlyRevoked(grants, RevokeGrant(grants, id, now))
  {}

  lemma RevokeStoredKeeps(db: Db, id: GrantId, now: int)
    requires Agrees(db)
    ensures Agrees(RevokeStored(db, id, now))
  {
    if id in db.grants && db.grants[id].revokedAt.None? {
      if LinkedRow(LatestRows(db.log), id).Some? {
        RevokeLinkedKeeps(db, id, now);
      } else {
        RevokeUnlinkedKeeps(db, id, now);
      }
    }
  }

  // ---- requests ----

  lemma DecideRowKeeps(db: Db, row: Row, decision: Decision, grant: GrantId, now: int)
    requires Agrees(db) && Coherent(row) && row.kind == Requested
    requires row.request in Current(db.log) && Current(db.log)[row.request] == row
    ensures Agrees(Or(DecideRow(db, row, decision, grant, now), db))
  {
    match decision
    case Deny => AppendUnlinked(db.log, db.grants, {}, row.As(Denied, now));
    case PersistIt(confirmed) => PersistKeeps(db, row, grant, confirmed, now);
    case Temporarily(mode) =>
      AppendUnlinked(db.log, db.grants, {},
                     row.(kind := Approved, temporary := Some(Temporary(mode, now + Lifetime(mode))), at := now));
  }

  lemma DecideKeeps(db: Db, id: RequestId, decision: Decision, grant: GrantId, now: int)
    requires Agrees(db)
    ensures Agrees(Or(Decide(db, id, decision, grant, now), db))
  {
    var expired := db.(log := ExpireAll(db.log, now));
    ExpireAllKeeps(db.log, db.grants, {}, now);
    AllCoherent(expired.log);
    if id in Current(expired.log) && Current(expired.log)[id].kind == Requested {
      DecideRowKeeps(expired, Current(expired.log)[id], decision, grant, now);
    }
  }

  lemma RevokeRequestKeeps(db: Db, id: RequestId, now: int)
    requires Agrees(db)
    ensures Agrees(Or(RevokeRequest(db, id, now), db))
  {
    var expired := db.(log := ExpireAll(db.log, now));
    ExpireAllKeeps(db.log, db.grants, {}, now);
    AllCoherent(expired.log);
    if id in Current(expired.log) && Revocable(Current(expired.log)[id], now) {
      RevokeRowKeeps(expired, Current(expired.log)[id], {}, now);
      RevokingKeepsProjects(db.grants, RevokeRow(expired, Current(expired.log)[id], now).grants, db.projects);
    }
  }

  // ---- authorization ----

  lemma {:induction false} FirstUsableIs(rows: seq<Row>, ask: Ask, now: int)
    ensures var found := FirstUsable(rows, ask, now);
            if found.Some? then found.value in rows && Usable(found.value, ask, now)
            else forall x | x in rows :: !Usable(x, ask, now)
  {
    if rows != [] { FirstUsableIs(rows[1..], ask, now); }
  }

  lemma AuthorizeByRequestKeeps(db: Db, r: Request, id: RequestId, now: int)
    requires Agrees(db) && id !in Current(db.log)
    ensures Agrees(AuthorizeByRequest(db, r, id, now).0)
  {
    if r.origin.Some? {
      var log := ExpireAll(db.log, now);
      ExpireAllKeeps(db.log, db.grants, {}, now);
      ExpireAllEffect(db.log, now);
      LatestRowsAreCurrent(log);
      AllCoherent(log);
      FirstUsableIs(LatestRows(log), AskOf(r), now);
      var usable := FirstUsable(LatestRows(log), AskOf(r), now);
      if usable.None? {
        AppendUnlinked(log, db.grants, {}, NewRow(id, AskOf(r), now));
      } else if usable.value.temporary.value.mode == Retry {
        AppendUnlinked(log, db.grants, {}, usable.value.As(Consumed, now));
      }
    }
  }

  lemma AutoApproveKeeps(db: Db, r: Request, ids: Drawn, now: int)
    requires Agrees(db) && r.origin.Some? && ids.autoRequest !in Current(db.log)
    ensures Agrees(AutoApprove(db, r, ids, now))
    ensures Current(AutoApprove(db, r, ids, now).log).Keys <= Current(db.log).Keys + {ids.autoRequest}
  {
    var row := NewRow(ids.autoRequest, AskOf(r), now);
    var asked := db.(log := db.log + [row]);
    AppendUnlinked(db.log, db.grants, {}, row);
    CurrentAfter(db.log, row);
    PersistKeeps(asked, row, ids.auto, false, now);
    CurrentAfter(asked.log, row.(kind := Approved, grant := Some(ids.auto), at := now));
  }

  lemma AuthorizeKeeps(db: Db, r: Request, listing: seq<GrantId>, ids: Drawn, now: int)
    requires Agrees(db) && Enabled(db, AuthorizeOp(r, listing, ids, now))
    ensures Agrees(Authorize(db, r, listing, ids, now).0)
  {
    var grants := Listed(db, listing);
    InsertKeeps(db, ids.default, DEFAULT_ACCESS(r.binding), now);
    AuthorizeFurtherKeeps(WithDefaultAccess(db, grants, r, ids, now), grants, r, ids, now);
  }

  lemma AuthorizeFurtherKeeps(db: Db, grants: seq<Grant>, r: Request, ids: Drawn, now: int)
    requires Agrees(db) && ids.request !in Current(db.log) && ids.autoRequest !in Current(db.log)
    requires ids.request != ids.autoRequest
    ensures Agrees(AuthorizeFurther(db, grants, r, ids, now).0)
  {
    AuthorizeByRequestKeeps(db, r, ids.request, now);
    if r.origin.Some? {
      AutoApproveKeeps(db, r, ids, now);
      AuthorizeByRequestKeeps(AutoApprove(db, r, ids, now), r, ids.request, now);
    }
  }

  lemma CreateProjectKeeps(db: Db, project: BindingId)
    requires Agrees(db)
    ensures Agrees(MarkCreated(db, project))
  {}

  /** Every operation of the store keeps the agreement. */
  lemma StepKeeps(db: Db, op: Op)
    requires Agrees(db) && Enabled(db, op)
    ensures Agrees(Next(db, op))
  {
    match op
    case Create(id, grant, now) => InsertKeeps(db, id, grant, now);
    case Revoke(id, now) => RevokeStoredKeeps(db, id, now);
    case AuthorizeOp(r, listing, ids, now) => AuthorizeKeeps(db, r, listing, ids, now);
    case Look(requests, now) => LookKeeps(db, requests, now);
    case DecideOp(request, decision, id, now) => DecideKeeps(db, request, decision, id, now);
    case RevokeRequestOp(request, now) => RevokeRequestKeeps(db, request, now);
    case RevokeTargetOp(target, now) => RevokeTargetKeeps(db, target, now);
    case DeleteProjectOp(project, now) => DeleteProjectKeeps(db, project, now);
    case CreateProjectOp(project) => CreateProjectKeeps(db, project);
    case SetAutoApproval(enabled) =>
  }
}
