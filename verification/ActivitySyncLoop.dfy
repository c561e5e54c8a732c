/** The synchronization loop over the real outbox and record store. Each of its calls is a step of
    the delivery protocol, so what the protocol promises holds of it. */
module ActivitySyncLoop {
  import opened Wrappers
  import opened ActivityRecords
  import opened ActivityCounts
  import opened ActivityOutbox
  import opened ActivitySync
  import opened ActivityDelivery
  import opened ActivityRuns
  import opened ActivityRecordStore

  /** What happens to the host calls of one round. */
  datatype Calls = Calls(reconcile: Fault, acknowledge: Fault, claim: Fault, listProfiles: bool,
                         confirm: Fault, now: int)

  ghost predicate Mirrors(outbox: Outbox, store: RecordStore, host: HostId, w: World)
    reads outbox, store
  {
    && outbox.Valid() && store.Valid() && w.host == host
    && outbox.events == w.outbox && store.Database() == w.tables
  }

  /** A step that the objects have just taken. */
  lemma Took(start: World, before: seq<Action>, a: Action)
    requires Reachable(start) && Path(start, before) && Enabled(After(start, before), a)
    ensures Path(start, before + [a]) && After(start, before + [a]) == Next(After(start, before), a)
  {
    OneMoreStep(start, before, a);
  }

  lemma StaysAgreed(start: World, before: seq<Action>)
    requires Reachable(start) && Path(start, before)
    ensures Agrees(After(start, before))
  {
    ReachableAgrees(start);
    PathKeeps(start, before);
  }

  lemma IngestGoesAhead(start: World, before: seq<Action>, now: int)
    requires Reachable(start) && Path(start, before) && After(start, before).phase.Ingesting?
    ensures var w := After(start, before);
            var u, es := Ingested(w, now, true), EventsOf(w.phase.batch);
            && AppendAll(w.tables, es).Ok?
            && u.phase == Confirming(w.phase.acked, ItemIds(w.phase.batch))
            && u.outbox == w.outbox && u.host == w.host
            && u.tables == AppendThenPrune(w.tables, es, now).value
  {
    StaysAgreed(start, before);
    IngestIsOk(After(start, before), now);
    IngestShape(After(start, before), now);
  }

  lemma ConfirmShrinks(start: World, before: seq<Action>)
    requires Reachable(start) && Path(start, before) && After(start, before).phase.Confirming?
    ensures var w := After(start, before); |Remaining(w.outbox, w.phase.accepted)| < |w.outbox|
  {
    StaysAgreed(start, before);
    var w := After(start, before);
    RemainingShrinks(w.outbox, w.phase.accepted);
    var id :| id in w.phase.accepted;
    assert id in ItemIds(w.outbox);
  }

  method Reconcile(outbox: Outbox, store: RecordStore, host: HostId, acked: set<EventId>, fault: Fault,
                   ghost start: World, ghost before: seq<Action>)
      returns (ok: bool, ghost after: seq<Action>)
    requires Reachable(start) && Path(start, before)
    requires Mirrors(outbox, store, host, After(start, before))
    requires After(start, before).phase == Reconciling(acked)
    modifies outbox
    ensures after == before + [Action.Reconcile(fault)] && Path(start, after)
    ensures Mirrors(outbox, store, host, After(start, after))
    ensures After(start, after).phase
            == if !ok then Idle else if acked == {} then Claiming({}) else Acknowledging(acked)
    ensures |outbox.events| <= |old(outbox.events)|
  {
    after := before + [Action.Reconcile(fault)];
    Took(start, before, Action.Reconcile(fault));
    if fault == LostRequest { return false, after; }
    RemainingShrinks(outbox.events, acked);
    var recovered := outbox.Reconcile(acked, BATCH);
    return recovered.Ok? && fault == Delivered, after;
  }

  method Acknowledge(outbox: Outbox, store: RecordStore, host: HostId, acked: set<EventId>, fault: Fault,
                     ghost start: World, ghost before: seq<Action>)
      returns (ok: bool, ghost after: seq<Action>)
    requires Reachable(start) && Path(start, before)
    requires Mirrors(outbox, store, host, After(start, before))
    requires After(start, before).phase == Acknowledging(acked)
    modifies outbox
    ensures after == before + [Action.Acknowledge(fault)] && Path(start, after)
    ensures Mirrors(outbox, store, host, After(start, after))
    ensures After(start, after).phase == if ok then Forgetting(acked) else Idle
    ensures |outbox.events| <= |old(outbox.events)|
  {
    after := before + [Action.Acknowledge(fault)];
    Took(start, before, Action.Acknowledge(fault));
    if fault == LostRequest { return false, after; }
    RemainingShrinks(outbox.events, acked);
    var error := outbox.Acknowledge(acked);
    return error.None? && fault == Delivered, after;
  }

  method Forget(outbox: Outbox, store: RecordStore, host: HostId, acked: set<EventId>,
                ghost start: World, ghost before: seq<Action>)
      returns (ghost after: seq<Action>)
    requires Reachable(start) && Path(start, before)
    requires Mirrors(outbox, store, host, After(start, before))
    requires After(start, before).phase == Forgetting(acked)
    modifies store
    ensures after == before + [Action.Forget] && Path(start, after)
    ensures Mirrors(outbox, store, host, After(start, after))
    ensures After(start, after).phase == Claiming(acked)
  {
    after := before + [Action.Forget];
    Took(start, before, Action.Forget);
    store.AcknowledgeClearedEvents(host, acked);
  }

  /** None when the reply never came; an empty batch means nothing was due. */
  method Fetch(outbox: Outbox, store: RecordStore, host: HostId, now: int, fault: Fault,
               ghost start: World, ghost before: seq<Action>)
      returns (batch: Option<seq<Item>>, ghost after: seq<Action>)
    requires Reachable(start) && Path(start, before)
    requires Mirrors(outbox, store, host, After(start, before))
    requires After(start, before).phase.Claiming?
    modifies outbox
    ensures after == before + [Action.Claim(now, fault)] && Path(start, after)
    ensures Mirrors(outbox, store, host, After(start, after))
    ensures After(start, after).phase
            == if batch.None? || batch.value == [] then Idle
               else Ingesting(After(start, before).phase.acked, batch.value)
    ensures batch.None? <==> fault != Delivered
    ensures |outbox.events| == |old(outbox.events)|
    ensures batch == Some([]) ==> forall i | 0 <= i < |outbox.events| :: outbox.events[i].nextAttempt > now
  {
    after := before + [Action.Claim(now, fault)];
    Took(start, before, Action.Claim(now, fault));
    if fault == LostRequest { return None, after; }
    NothingPicked(outbox.events, now);
    var items := outbox.Claim(now, BATCH);
    return if fault == Delivered then Some(items) else None, after;
  }

  method Ingest(outbox: Outbox, store: RecordStore, host: HostId, batch: seq<Item>, now: int, reachable: bool,
                ghost start: World, ghost before: seq<Action>)
      returns (ok: bool, ghost after: seq<Action>)
    requires Reachable(start) && Path(start, before)
    requires Mirrors(outbox, store, host, After(start, before))
    requires After(start, before).phase.Ingesting? && After(start, before).phase.batch == batch
    modifies store
    ensures ok == reachable
    ensures after == before + [Action.Ingest(now, reachable)] && Path(start, after)
    ensures Mirrors(outbox, store, host, After(start, after))
    ensures After(start, after).phase
            == if ok then Confirming(After(start, before).phase.acked, ItemIds(batch)) else Idle
  {
    after := before + [Action.Ingest(now, reachable)];
    Took(start, before, Action.Ingest(now, reachable));
    if !reachable { return false, after; }
    IngestGoesAhead(start, before, now);
    var ids := store.Ingest(EventsOf(batch), now);
    return true, after;
  }

  method Confirm(outbox: Outbox, store: RecordStore, host: HostId, accepted: set<EventId>, fault: Fault,
                 ghost start: World, ghost before: seq<Action>)
      returns (ok: bool, ghost after: seq<Action>)
    requires Reachable(start) && Path(start, before)
    requires Mirrors(outbox, store, host, After(start, before))
    requires After(start, before).phase.Confirming? && After(start, before).phase.accepted == accepted
    modifies outbox
    ensures after == before + [Action.Confirm(fault)] && Path(start, after)
    ensures Mirrors(outbox, store, host, After(start, after))
    ensures After(start, after).phase
            == if ok then Reconciling(After(start, before).phase.acked + accepted) else Idle
    ensures ok ==> |outbox.events| < |old(outbox.events)|
  {
    after := before + [Action.Confirm(fault)];
    Took(start, before, Action.Confirm(fault));
    if fault == LostRequest { return false, after; }
    ConfirmShrinks(start, before);
    var error := outbox.Acknowledge(accepted);
    return error.None? && fault == Delivered, after;
  }

  /** The host drops what the plugin has; false when a call was lost. */
  method Settle(outbox: Outbox, store: RecordStore, host: HostId, acked: set<EventId>, calls: Calls,
                ghost start: World, ghost before: seq<Action>)
      returns (ok: bool, ghost after: seq<Action>)
    requires Reachable(start) && Path(start, before)
    requires Mirrors(outbox, store, host, After(start, before))
    requires After(start, before).phase == Reconciling(acked)
    modifies outbox, store
    ensures Path(start, after) && Mirrors(outbox, store, host, After(start, after))
    ensures After(start, after).phase == if ok then Claiming(acked) else Idle
    ensures |outbox.events| <= |old(outbox.events)|
  {
    ok, after := Reconcile(outbox, store, host, acked, calls.reconcile, start, before);
    if !ok || acked == {} { return; }
    ok, after := Acknowledge(outbox, store, host, acked, calls.acknowledge, start, after);
    if !ok { return; }
    after := Forget(outbox, store, host, acked, start, after);
  }

  /** One round: None when a call was lost, the empty set when nothing was due. */
  method SyncBatch(outbox: Outbox, store: RecordStore, host: HostId, acked: set<EventId>, calls: Calls,
                   ghost start: World, ghost before: seq<Action>)
      returns (accepted: Option<set<EventId>>, ghost after: seq<Action>)
    requires Reachable(start) && Path(start, before)
    requires Mirrors(outbox, store, host, After(start, before))
    requires After(start, before).phase == Reconciling(acked)
    modifies outbox, store
    ensures Path(start, after) && Mirrors(outbox, store, host, After(start, after))
    ensures After(start, after).phase
            == if accepted.None? || accepted.value == {} then Idle
               else Reconciling(acked + accepted.value)
    ensures accepted.Some? && accepted.value != {} ==> |outbox.events| < |old(outbox.events)|
    ensures accepted.Some? && accepted.value == {} ==>
              forall i | 0 <= i < |outbox.events| :: outbox.events[i].nextAttempt > calls.now
  {
    var ok;
    ok, after := Settle(outbox, store, host, acked, calls, start, before);
    if !ok { return None, after; }
    var batch;
    batch, after := Fetch(outbox, store, host, calls.now, calls.claim, start, after);
    if batch.None? { return None, after; }
    if batch.value == [] { return Some({}), after; }
    ok, after := Ingest(outbox, store, host, batch.value, calls.now, calls.listProfiles, start, after);
    if !ok { return None, after; }
    BatchIds(batch.value);
    ok, after := Confirm(outbox, store, host, ItemIds(batch.value), calls.confirm, start, after);
    if !ok { return None, after; }
    return Some(ItemIds(batch.value)), after;
  }

  /** Rounds until nothing is due or a call is lost. It ends whatever happens, and whatever it did
      is a path of the protocol. */
  method SyncConnected(outbox: Outbox, store: RecordStore, host: HostId, calls: nat -> Calls,
                       ghost start: World)
      returns (complete: bool, ghost actions: seq<Action>)
    requires Reachable(start) && start.phase == Idle && Mirrors(outbox, store, host, start)
    modifies outbox, store
    ensures Path(start, actions) && Mirrors(outbox, store, host, After(start, actions))
    ensures After(start, actions).phase == Idle
    ensures complete ==> exists n: nat ::
              forall i | 0 <= i < |outbox.events| :: outbox.events[i].nextAttempt > calls(n).now
  {
    var known := store.EventIds(host);
    actions := [Start];
    Took(start, [], Start);
    var acked, round := known, 0;
    while true
      invariant Path(start, actions) && Mirrors(outbox, store, host, After(start, actions))
      invariant After(start, actions).phase == Reconciling(acked)
      decreases |outbox.events|
    {
      var accepted;
      accepted, actions := SyncBatch(outbox, store, host, acked, calls(round), start, actions);
      if accepted.None? { return false, actions; }
      if accepted.value == {} { return true, actions; }
      acked, round := acked + accepted.value, round + 1;
    }
  }
}
