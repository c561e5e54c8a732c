/** Every step of the delivery protocol keeps the two sides in agreement. */
module ActivityDelivery {
  import opened ActivityRecords
  import opened ActivityCounts
  import opened ActivityOutbox
  import opened ActivitySync

  // ---- host calls ----

  lemma RemovingKeeps(w: World, ids: set<EventId>, fault: Fault, onward: Phase)
    requires Agrees(w) && ids * w.sent.Keys <= w.recorded
    ensures var u := HostRemoves(w, ids, fault, onward);
            TablesAgree(u) && OutboxAgrees(u) && HistoryAgrees(u)
            && (u.phase == Idle || (u.phase == onward && ItemIds(u.outbox) == ItemIds(w.outbox) - ids))
  {
    RemainingIds(w.outbox, ids);
    RemainingKeeps(w.outbox, ids);
    var u := HostRemoves(w, ids, fault, onward);
    forall i | 0 <= i < |u.outbox|
      ensures u.outbox[i].event.id in w.sent && u.outbox[i].event == w.sent[u.outbox[i].event.id]
    {
      assert u.outbox[i] in w.outbox;
    }
  }

  lemma OutboxIsSent(w: World)
    requires OutboxAgrees(w)
    ensures ItemIds(w.outbox) <= w.sent.Keys
  {}

  lemma CallsKeep(w: World, a: Action)
    requires Agrees(w) && Enabled(w, a) && (a.Reconcile? || a.Acknowledge? || a.Confirm?)
    ensures Agrees(Next(w, a))
  {
    var u := Next(w, a);
    OutboxIsSent(w);
    match a
    case Reconcile(fault) =>
      var acked := w.phase.acked;
      RemovingKeeps(w, acked, fault, if acked == {} then Claiming({}) else Acknowledging(acked));
      if !u.phase.Idle? { assert Overdue(u) == {}; }
    case Acknowledge(fault) =>
      RemovingKeeps(w, w.phase.acked, fault, Forgetting(w.phase.acked));
      if !u.phase.Idle? { assert Overdue(u) <= Overdue(w); }
    case Confirm(fault) =>
      RemovingKeeps(w, w.phase.accepted, fault, Reconciling(w.phase.acked + w.phase.accepted));
      if !u.phase.Idle? { assert Overdue(u) <= Overdue(w); }
  }

  // ---- enqueueing and claiming ----

  lemma EnqueueKeeps(w: World, e: Event, now: int)
    requires Agrees(w) && Enabled(w, Enqueue(e, now))
    ensures Agrees(Next(w, Enqueue(e, now)))
  {
    OutboxIsSent(w);
    var u := Next(w, Enqueue(e, now));
    if e.id in ItemIds(w.outbox) {
      assert u == w;
    } else if |w.outbox| < LIMIT {
      assert u.outbox == w.outbox + [Item(e, 0, now)] && u.sent == w.sent[e.id := e];
      IdsOfAppend(w.outbox, Item(e, 0, now));
      assert e.id !in Ids(w.tables.rows) + w.tables.tombstones.Keys;
      assert Overdue(u) == Overdue(w);
      assert forall i | 0 <= i < |w.outbox| :: w.outbox[i].event.id in ItemIds(w.outbox);
      EnqueueKeepsPhase(w, u, e);
    }
  }

  lemma EnqueueKeepsPhase(w: World, u: World, e: Event)
    requires TablesAgree(w) && OutboxAgrees(w) && HistoryAgrees(w) && PhaseAgrees(w)
    requires e.id !in w.sent && e.id !in w.foreign
    requires u == w.(sent := w.sent[e.id := e], outbox := u.outbox)
    requires ItemIds(u.outbox) == ItemIds(w.outbox) + {e.id} && Overdue(u) == Overdue(w)
    ensures PhaseAgrees(u)
  {
    if !w.phase.Idle? {
      assert e.id !in w.phase.acked;
      assert w.phase.acked * u.sent.Keys == w.phase.acked * w.sent.Keys;
    }
  }

  lemma ClaimKeeps(w: World, now: int, fault: Fault)
    requires Agrees(w) && Enabled(w, Claim(now, fault))
    ensures Agrees(Next(w, Claim(now, fault)))
  {
    var u := Next(w, Claim(now, fault));
    var picked := Picked(w.outbox, now, BATCH);
    ClaimTakesTheEarliest(w.outbox, now, BATCH);
    ClaimKeepsEvents(w.outbox, ItemIds(picked), now);
    var batch := Claimed(w.outbox, now, BATCH);
    forall i | 0 <= i < |batch|
      ensures batch[i].event.id in ItemIds(w.outbox)
      ensures batch[i].event.id in w.sent && batch[i].event == w.sent[batch[i].event.id]
    {
      assert picked[i] in w.outbox && batch[i].event == picked[i].event;
      var k :| 0 <= k < |w.outbox| && w.outbox[k] == picked[i];
    }
    if fault != LostRequest {
      assert OutboxAgrees(u);
      assert Overdue(u) == Overdue(w);
    }
  }

  // ---- the record store ----

  /** Rows only arrive from the operation's own events, and leave the tables for the history. */
  lemma ElsewhereOnRows(t: Tables, op: Op)
    requires Sound(t)
    ensures Sound(Plain(t, op))
    ensures forall r | r in Plain(t, op).rows :: r in t.rows || r.event.id in OpIds(op)
    ensures !op.Clear? && !op.AcknowledgeCleared? ==> Plain(t, op).tombstones == t.tombstones
  {
    match op
    case Append(e, now) =>
      if AppendEvent(t, e).Ok? {
        AppendKeepsSound(t, e);
        FewerSound(AppendEvent(t, e).value, Plain(t, op));
      }
    case Ingest(es, now) =>
      if AppendThenPrune(t, es, now).Ok? {
        AppendAllKeepsSound(t, es);
        AppendedRows(t, es);
        FewerSound(AppendAll(t, es).value, Plain(t, op));
        assert forall i | 0 <= i < |es| :: es[i].id in OpIds(op);
      }
    case Prune(now) => FewerSound(t, Plain(t, op));
    case Export(e, now) =>
      if AppendThenPrune(t, [e], now).Ok? {
        AppendAllKeepsSound(t, [e]);
        AppendedRows(t, [e]);
        FewerSound(AppendAll(t, [e]).value, Plain(t, op));
      }
    case Clear(stream) =>
    case AcknowledgeCleared(host, ids) =>
    case Restart =>
  }

  lemma {:induction false} AppendedRows(t: Tables, es: seq<Event>)
    requires AppendAll(t, es).Ok?
    ensures forall r | r in AppendAll(t, es).value.rows ::
              r in t.rows || exists i :: 0 <= i < |es| && es[i] == r.event
  {
    if es != [] {
      AppendedRows(t, es[..|es| - 1]);
      forall r | r in AppendAll(t, es).value.rows && r !in t.rows
        ensures exists i :: 0 <= i < |es| && es[i] == r.event
      {
        if r in AppendAll(t, es[..|es| - 1]).value.rows {
          var i :| 0 <= i < |es| - 1 && es[..|es| - 1][i] == r.event;
          assert es[i] == r.event;
        } else {
          assert es[|es| - 1] == r.event;
        }
      }
    }
  }

  lemma ElsewhereKeepsTables(w: World, op: Op)
    requires TablesAgree(w) && Enabled(w, Elsewhere(op))
    ensures TablesAgree(Next(w, Elsewhere(op)))
    ensures var u := Next(w, Elsewhere(op));
            Ids(u.tables.rows) * w.sent.Keys <= Ids(w.tables.rows)
            && u.tables.tombstones.Keys <= w.tables.tombstones.Keys + Ids(w.tables.rows)
  {
    ElsewhereOnRows(w.tables, op);
    var u := Next(w, Elsewhere(op));
    forall r | r in u.tables.rows && r !in w.tables.rows ensures r.event.id in OpIds(op) {}
    if op.Clear? {
      assert u.tables == Cleared(w.tables, op.stream);
      forall id | id in u.tables.tombstones && id !in w.tables.tombstones
        ensures id in Ids(w.tables.rows) && (id in w.sent ==> u.tables.tombstones[id].host == w.host)
      {
        var r :| r in w.tables.rows && r.event.stream == op.stream && r.event.id == id;
      }
    }
  }

  lemma ElsewhereKeepsTombstones(w: World, op: Op)
    requires TablesAgree(w) && Enabled(w, Elsewhere(op))
    ensures w.tables.tombstones.Keys * w.sent.Keys <= Plain(w.tables, op).tombstones.Keys
    ensures op.Clear? ==> Ids(w.tables.rows) <= Ids(Plain(w.tables, op).rows) + Plain(w.tables, op).tombstones.Keys
  {
    ElsewhereOnRows(w.tables, op);
    if op.Clear? {
      forall r | r in w.tables.rows
        ensures r.event.id in Ids(Plain(w.tables, op).rows) + Plain(w.tables, op).tombstones.Keys
      {
        if r.event.stream == op.stream { assert r.event.id in Ids(Of(w.tables.rows, op.stream)); }
      }
    }
  }

  lemma ClearedRowsAreGone(t: Tables, stream: Stream)
    requires Sound(t)
    ensures Ids(Of(t.rows, stream)) !! Ids(Cleared(t, stream).rows)
  {}

  lemma ElsewhereKeeps(w: World, op: Op)
    requires Agrees(w) && Enabled(w, Elsewhere(op))
    ensures Agrees(Next(w, Elsewhere(op)))
  {
    var u := Next(w, Elsewhere(op));
    ElsewhereKeepsTables(w, op);
    ElsewhereKeepsTombstones(w, op);
    OutboxIsSent(w);
    var before, after := Ids(w.tables.rows), Ids(u.tables.rows);
    assert after * w.sent.Keys <= before;
    ElsewhereKeepsHistory(w, op);
    assert Overdue(u) <= Overdue(w);
    assert PhaseAgrees(u);
  }

  lemma ElsewhereKeepsHistory(w: World, op: Op)
    requires Agrees(w) && Enabled(w, Elsewhere(op))
    ensures HistoryAgrees(Next(w, Elsewhere(op)))
  {
    var u := Next(w, Elsewhere(op));
    ElsewhereKeepsTables(w, op);
    ElsewhereKeepsTombstones(w, op);
    OutboxIsSent(w);
    MovedAccountsFor(w, u.tables, Ids(w.tables.rows) - Ids(u.tables.rows), op.Clear?);
  }

  /** Rows that vanish are accounted for. */
  lemma MovedAccountsFor(w: World, t: Tables, vanished: set<EventId>, byOwner: bool)
    requires w.recorded <= w.sent.Keys && w.recorded - Ids(t.rows) <= w.cleared + w.pruned + vanished
    ensures var u := Moved(w, t, vanished, byOwner);
            u.recorded - Ids(u.tables.rows) <= u.cleared + u.pruned
  {
    var u := Moved(w, t, vanished, byOwner);
    forall id | id in u.recorded - Ids(u.tables.rows) ensures id in u.cleared + u.pruned {
      assert id in w.recorded - Ids(t.rows);
    }
  }

  lemma ForgetKeeps(w: World)
    requires Agrees(w) && Enabled(w, Forget)
    ensures Agrees(Next(w, Forget))
  {
    var u := Next(w, Forget);
    OutboxIsSent(w);
    assert Overdue(u) <= Overdue(w);
  }

  // ---- ingesting ----

  lemma EventsIds(batch: seq<Item>)
    ensures IdSet(EventsOf(batch)) == ItemIds(batch)
  {
    forall id | id in ItemIds(batch) ensures id in IdSet(EventsOf(batch)) {
      var i :| 0 <= i < |batch| && batch[i].event.id == id;
      assert EventsOf(batch)[i] in EventsOf(batch);
    }
  }

  /** Fresh events with different ids are all inserted. */
  lemma {:induction false} FreshBatchIsAccepted(t: Tables, batch: seq<Item>)
    requires Sound(t) && DistinctIds(batch) && ItemIds(batch) !! Ids(t.rows)
    ensures AppendAll(t, EventsOf(batch)).Ok?
  {
    if batch != [] {
      var front, last := batch[..|batch| - 1], batch[|batch| - 1];
      assert batch == front + [last];
      IdsOfAppend(front, last);
      assert EventsOf(batch)[..|batch| - 1] == EventsOf(front);
      assert DistinctIds(front) by { assert forall i | 0 <= i < |front| :: front[i] == batch[i]; }
      FreshBatchIsAccepted(t, front);
      AppendAllKeepsSound(t, EventsOf(front));
      EventsIds(front);
      assert last.event.id !in ItemIds(front) by {
        assert forall i | 0 <= i < |front| :: front[i] == batch[i];
      }
    }
  }

  /** A batch never meets a row that is already there, so its transaction is never refused. */
  lemma IngestIsNeverRefused(w: World)
    requires Agrees(w) && w.phase.Ingesting?
    ensures ItemIds(w.phase.batch) !! Ids(w.tables.rows) + w.tables.tombstones.Keys + w.cleared
    ensures ItemIds(w.phase.batch) <= ItemIds(w.outbox)
    ensures AppendAll(w.tables, EventsOf(w.phase.batch)).Ok?
  {
    assert ItemIds(w.phase.batch) <= ItemIds(w.outbox);
    assert Overdue(w) == {};
    forall id | id in ItemIds(w.phase.batch)
      ensures id !in Ids(w.tables.rows) + w.tables.tombstones.Keys + w.cleared
    {
      assert id !in Overdue(w);
    }
    FreshBatchIsAccepted(w.tables, w.phase.batch);
  }

  /** What an ingest leaves in the tables. */
  lemma IngestedTables(w: World, now: int)
    requires Agrees(w) && w.phase.Ingesting?
    ensures AppendThenPrune(w.tables, EventsOf(w.phase.batch), now).Ok?
    ensures var t := AppendThenPrune(w.tables, EventsOf(w.phase.batch), now).value;
            Sound(t) && t.tombstones == w.tables.tombstones
            && Ids(t.rows) <= Ids(w.tables.rows) + ItemIds(w.phase.batch)
            && forall r | r in t.rows && r.event.id in w.sent :: r.event == w.sent[r.event.id]
  {
    IngestIsNeverRefused(w);
    var es := EventsOf(w.phase.batch);
    AppendAllKeepsSound(w.tables, es);
    AppendedRows(w.tables, es);
    EventsIds(w.phase.batch);
    var full := AppendAll(w.tables, es).value;
    var t := AppendThenPrune(w.tables, es, now).value;
    FewerSound(full, t);
    assert Ids(t.rows) <= Ids(full.rows);
  }

  lemma IngestKeeps(w: World, now: int, reachable: bool)
    requires Agrees(w) && Enabled(w, Action.Ingest(now, reachable))
    ensures Agrees(Next(w, Action.Ingest(now, reachable)))
  {
    if reachable {
      IngestIsNeverRefused(w);
      IngestedTables(w, now);
      IngestHistory(w, now);
      IngestPhase(w, now);
    } else {
      assert Next(w, Action.Ingest(now, reachable)) == w.(phase := Idle);
    }
  }

  lemma BatchIds(batch: seq<Item>)
    ensures |ItemIds(batch)| <= |batch|
    ensures |batch| > 0 ==> ItemIds(batch) != {}
  {
    if batch != [] {
      var front, last := batch[..|batch| - 1], batch[|batch| - 1];
      BatchIds(front);
      assert batch == front + [last];
      IdsOfAppend(front, last);
    }
  }

  lemma IngestHistory(w: World, now: int)
    requires Agrees(w) && Enabled(w, Action.Ingest(now, true))
    ensures HistoryAgrees(Next(w, Action.Ingest(now, true)))
  {
    var u := Next(w, Action.Ingest(now, true));
    var ids := ItemIds(w.phase.batch);
    IngestIsNeverRefused(w);
    IngestedTables(w, now);
    OutboxIsSent(w);
    var again := (ids - Ids(w.tables.rows)) * w.recorded;
    var noted := w.(recorded := w.recorded + ids, twice := w.twice + again);
    MovedAccountsFor(noted, u.tables, (Ids(w.tables.rows) + ids) - Ids(u.tables.rows), false);
    forall id | id in again ensures id in w.pruned {
      assert id in w.recorded - Ids(w.tables.rows) && id !in w.cleared;
    }
  }

  lemma IngestShape(w: World, now: int)
    requires w.phase.Ingesting? && AppendThenPrune(w.tables, EventsOf(w.phase.batch), now).Ok?
    ensures var u, ids := Ingested(w, now, true), ItemIds(w.phase.batch);
            && u.phase == Confirming(w.phase.acked, ids) && u.recorded == w.recorded + ids
            && u.outbox == w.outbox && u.sent == w.sent && u.foreign == w.foreign
            && u.twice == w.twice + (ids - Ids(w.tables.rows)) * w.recorded
            && u.tables == AppendThenPrune(w.tables, EventsOf(w.phase.batch), now).value
  {}

  lemma BatchFacts(w: World)
    requires w.phase.Ingesting? && PhaseAgrees(w)
    ensures var ids := ItemIds(w.phase.batch);
            ids != {} && |ids| <= BATCH && ids <= ItemIds(w.outbox) && Overdue(w) == {}
            && AckedAreRecorded(w, w.phase.acked)
  {
    BatchIds(w.phase.batch);
  }

  lemma IngestPhase(w: World, now: int)
    requires Agrees(w) && w.phase.Ingesting?
    ensures PhaseAgrees(Ingested(w, now, true))
  {
    IngestedTables(w, now);
    IngestShape(w, now);
    BatchFacts(w);
    ConfirmingAgrees(w, Ingested(w, now, true), ItemIds(w.phase.batch));
  }

  lemma ConfirmingAgrees(w: World, u: World, ids: set<EventId>)
    requires w.phase.Ingesting? && u.phase == Confirming(w.phase.acked, ids) && ids != {} && |ids| <= BATCH
    requires u.outbox == w.outbox && u.sent == w.sent && u.foreign == w.foreign
    requires u.recorded == w.recorded + ids && AckedAreRecorded(w, w.phase.acked)
    requires ids <= ItemIds(w.outbox) && Overdue(w) == {}
    requires Ids(u.tables.rows) <= Ids(w.tables.rows) + ids && u.tables.tombstones == w.tables.tombstones
    ensures PhaseAgrees(u)
  {
    forall id | id in Overdue(u) ensures id in ids {
      assert id !in Overdue(w);
    }
  }

  /** Agreement is kept by every step of either side. */
  lemma StepKeeps(w: World, a: Action)
    requires Agrees(w) && Enabled(w, a)
    ensures Agrees(Next(w, a))
  {
    match a
    case Enqueue(e, now) => EnqueueKeeps(w, e, now);
    case Elsewhere(op) => ElsewhereKeeps(w, op);
    case Start => KnownCovers(w);
    case Reconcile(_) => CallsKeep(w, a);
    case Acknowledge(_) => CallsKeep(w, a);
    case Forget => ForgetKeeps(w);
    case Claim(now, fault) => ClaimKeeps(w, now, fault);
    case Ingest(now, reachable) => IngestKeeps(w, now, reachable);
    case Confirm(_) => CallsKeep(w, a);
    case Abandon =>
  }

  lemma KnownCovers(w: World)
    requires TablesAgree(w) && OutboxAgrees(w) && HistoryAgrees(w)
    ensures Overdue(w) <= KnownTo(w.tables, w.host) && AckedAreRecorded(w, KnownTo(w.tables, w.host))
  {
    OutboxIsSent(w);
    var known := KnownTo(w.tables, w.host);
    assert known <= Ids(w.tables.rows) + w.tables.tombstones.Keys;
    forall id | id in Overdue(w) ensures id in known {
      if id in Ids(w.tables.rows) {
        var r :| r in w.tables.rows && r.event.id == id;
        assert r.event.stream.host == w.host;
      }
    }
  }
}
