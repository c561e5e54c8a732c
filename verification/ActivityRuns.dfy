/** What the delivery protocol promises over whole runs, whatever is lost and whatever happens in
    between. */
module ActivityRuns {
  import opened Wrappers
  import opened ActivityRecords
  import opened ActivityCounts
  import opened ActivityOutbox
  import opened ActivitySync
  import opened ActivityDelivery

  /** Actions that can happen one after another from w. */
  ghost predicate Path(w: World, actions: seq<Action>)
    decreases |actions|, 0
  {
    actions != [] ==>
      && Path(w, actions[..|actions| - 1])
      && Enabled(After(w, actions[..|actions| - 1]), actions[|actions| - 1])
  }

  ghost function After(w: World, actions: seq<Action>): World
    requires Path(w, actions)
    decreases |actions|, 1
  {
    if actions == [] then w
    else Next(After(w, actions[..|actions| - 1]), actions[|actions| - 1])
  }

  lemma OneMoreStep(w: World, actions: seq<Action>, a: Action)
    requires Path(w, actions) && Enabled(After(w, actions), a)
    ensures Path(w, actions + [a]) && After(w, actions + [a]) == Next(After(w, actions), a)
  {
    assert (actions + [a])[..|actions|] == actions;
  }

  ghost predicate Reachable(w: World) {
    exists start, actions ::
      Initial(start) && Sound(start.tables) && Path(start, actions) && After(start, actions) == w
  }

  lemma {:induction false} PathKeeps(w: World, actions: seq<Action>)
    requires Agrees(w) && Path(w, actions)
    ensures Agrees(After(w, actions))
  {
    if actions != [] {
      PathKeeps(w, actions[..|actions| - 1]);
      StepKeeps(After(w, actions[..|actions| - 1]), actions[|actions| - 1]);
    }
  }

  lemma ReachableAgrees(w: World)
    requires Reachable(w)
    ensures Agrees(w)
  {
    var start, actions :|
      Initial(start) && Sound(start.tables) && Path(start, actions) && After(start, actions) == w;
    PathKeeps(start, actions);
  }

  /** Every event ever enqueued is still in the outbox, or was recorded; and a recorded one is in
      the tables exactly as it was enqueued, unless the owner cleared it or pruning deleted it. */
  lemma NothingIsLost(w: World, id: EventId)
    requires Reachable(w) && id in w.sent
    ensures id in ItemIds(w.outbox) || id in w.recorded
    ensures id in w.recorded ==>
              id in w.cleared || id in w.pruned || w.sent[id] in Events(w.tables.rows)
  {
    ReachableAgrees(w);
    if id in w.recorded && id !in w.cleared && id !in w.pruned {
      assert id !in w.recorded - Ids(w.tables.rows);
      var r :| r in w.tables.rows && r.event.id == id;
      assert r.event == w.sent[id];
    }
  }

  lemma EnqueueOnlyAdds(w: World, e: Event, now: int)
    requires Enabled(w, Action.Enqueue(e, now))
    ensures ItemIds(w.outbox) <= ItemIds(Next(w, Action.Enqueue(e, now)).outbox)
  {
    if e.id !in ItemIds(w.outbox) { IdsOfAppend(w.outbox, Item(e, 0, now)); }
  }

  lemma RemovesOnly(w: World, ids: set<EventId>, fault: Fault, onward: Phase)
    ensures ItemIds(w.outbox) - ItemIds(HostRemoves(w, ids, fault, onward).outbox) <= ids * ItemIds(w.outbox)
  {
    RemainingIds(w.outbox, ids);
  }

  /** No step takes an event out of the outbox before the transaction that recorded it. */
  lemma NothingLeavesBeforeItIsRecorded(w: World, a: Action)
    requires Reachable(w) && Enabled(w, a)
    ensures ItemIds(w.outbox) - ItemIds(Next(w, a).outbox) <= w.recorded
  {
    ReachableAgrees(w);
    OutboxIsSent(w);
    match a
    case Enqueue(e, now) => EnqueueOnlyAdds(w, e, now);
    case Reconcile(fault) =>
      var acked := w.phase.acked;
      RemovesOnly(w, acked, fault, if acked == {} then Claiming({}) else Acknowledging(acked));
    case Acknowledge(fault) => RemovesOnly(w, w.phase.acked, fault, Forgetting(w.phase.acked));
    case Confirm(fault) =>
      RemovesOnly(w, w.phase.accepted, fault, Reconciling(w.phase.acked + w.phase.accepted));
    case Claim(now, _) => ClaimKeepsEvents(w.outbox, ItemIds(Picked(w.outbox, now, BATCH)), now);
    case _ =>
  }

  lemma {:induction false} ClearedOnlyGrows(w: World, actions: seq<Action>)
    requires Path(w, actions)
    ensures w.cleared <= After(w, actions).cleared
  {
    if actions != [] {
      ClearedOnlyGrows(w, actions[..|actions| - 1]);
      ClearedGrows(After(w, actions[..|actions| - 1]), actions[|actions| - 1]);
    }
  }

  lemma ClearedGrows(w: World, a: Action)
    requires Enabled(w, a)
    ensures w.cleared <= Next(w, a).cleared
  {}

  /** An event the owner cleared is never in the tables again. */
  lemma ClearedNeverReappears(w: World, actions: seq<Action>)
    requires Reachable(w) && Path(w, actions)
    ensures w.cleared !! Ids(After(w, actions).tables.rows)
  {
    ReachableAgrees(w);
    PathKeeps(w, actions);
    ClearedOnlyGrows(w, actions);
  }

  /** Clearing a stream is what puts this host's rows of it among the cleared ones. */
  lemma ClearingClears(w: World, stream: Stream)
    requires Reachable(w)
    ensures Next(w, Elsewhere(Op.Clear(stream))).cleared
            == w.cleared + (Ids(Of(w.tables.rows, stream)) * w.sent.Keys)
  {
    ReachableAgrees(w);
    ClearedRowsAreGone(w.tables, stream);
    var t := Cleared(w.tables, stream);
    assert Ids(w.tables.rows) - Ids(t.rows) == Ids(Of(w.tables.rows, stream)) by {
      forall r | r in w.tables.rows && r !in Of(w.tables.rows, stream) ensures r.event.id in Ids(t.rows) {
        assert r in t.rows;
      }
    }
  }

  // ---- at most once ----

  lemma BatchMeetsOnlyPruned(w: World)
    requires Agrees(w) && w.phase.Ingesting?
    ensures ItemIds(w.phase.batch) * w.recorded == ItemIds(w.phase.batch) * w.pruned
    ensures ItemIds(w.phase.batch) !! Ids(w.tables.rows)
  {
    IngestIsNeverRefused(w);
    var batch := ItemIds(w.phase.batch);
    forall id | id in batch ensures id in w.recorded <==> id in w.pruned {
      assert id !in Ids(w.tables.rows) && id !in w.cleared;
      assert id in w.recorded ==> id in w.recorded - Ids(w.tables.rows);
    }
  }

  lemma IngestIsOk(w: World, now: int)
    requires Agrees(w) && w.phase.Ingesting?
    ensures AppendThenPrune(w.tables, EventsOf(w.phase.batch), now).Ok?
  {
    IngestIsNeverRefused(w);
  }

  lemma IngestRecords(w: World, now: int)
    requires Reachable(w) && w.phase.Ingesting?
    ensures var u, batch := Ingested(w, now, true), ItemIds(w.phase.batch);
            && u.recorded == w.recorded + batch
            && u.twice == w.twice + (batch - Ids(w.tables.rows)) * w.recorded
  {
    ReachableIngest(w, now);
    IngestShape(w, now);
  }

  lemma ReachableBatch(w: World)
    requires Reachable(w) && w.phase.Ingesting?
    ensures ItemIds(w.phase.batch) * w.recorded == ItemIds(w.phase.batch) * w.pruned
    ensures ItemIds(w.phase.batch) !! Ids(w.tables.rows)
    ensures ItemIds(w.phase.batch) <= ItemIds(w.outbox)
  {
    ReachableAgrees(w);
    BatchMeetsOnlyPruned(w);
    IngestIsNeverRefused(w);
  }

  /** A batch is always recorded whole, and the ids in it that had been recorded before are exactly
      those whose rows pruning had deleted. */
  lemma RecordedAgainExactlyWhenPruned(w: World, now: int)
    requires Reachable(w) && w.phase.Ingesting?
    ensures var u, batch := Next(w, Action.Ingest(now, true)), ItemIds(w.phase.batch);
            && u.recorded == w.recorded + batch
            && u.twice == w.twice + batch * w.pruned
            && batch * w.recorded == batch * w.pruned
  {
    IngestRecords(w, now);
    ReachableBatch(w);
    var batch := ItemIds(w.phase.batch);
    assert batch - Ids(w.tables.rows) == batch;
  }

  /** The events that some committed batch of the path carried after pruning had deleted their rows. */
  ghost function PrunedThenCarried(w: World, actions: seq<Action>): set<EventId>
    requires Path(w, actions)
  {
    if actions == [] then {}
    else
      var front, last := After(w, actions[..|actions| - 1]), actions[|actions| - 1];
      PrunedThenCarried(w, actions[..|actions| - 1])
      + if last.Ingest? && last.reachable then ItemIds(front.phase.batch) * front.pruned else {}
  }

  lemma OnlyIngestRepeats(w: World, a: Action)
    requires Agrees(w) && Enabled(w, a) && (a.Ingest? ==> !a.reachable)
    ensures Next(w, a).twice == w.twice
  {}

  /** In every run the events recorded twice are exactly those: none is while every row outlives the
      delivery of its event, and each one that does not is when a batch carries it again. */
  lemma {:induction false} RecordedOnce(w: World, actions: seq<Action>)
    requires Initial(w) && Sound(w.tables) && Path(w, actions)
    ensures After(w, actions).twice == PrunedThenCarried(w, actions)
  {
    if actions != [] {
      var front, last := actions[..|actions| - 1], actions[|actions| - 1];
      RecordedOnce(w, front);
      assert Reachable(After(w, front));
      if last.Ingest? && last.reachable {
        RecordedAgainExactlyWhenPruned(After(w, front), last.now);
      } else {
        ReachableAgrees(After(w, front));
        OnlyIngestRepeats(After(w, front), last);
      }
    }
  }

  /** While no row is pruned before its event leaves the outbox, no event is recorded twice. */
  lemma {:induction false} NothingPrunedIsCarried(w: World, actions: seq<Action>)
    requires Initial(w) && Sound(w.tables) && Path(w, actions) && PrunedAfterDelivery(w, actions)
    ensures PrunedThenCarried(w, actions) == {}
  {
    if actions != [] {
      var front := actions[..|actions| - 1];
      NothingPrunedIsCarried(w, front);
      assert Reachable(After(w, front)) && PrunedAfterDelivery(w, front);
      if actions[|actions| - 1].Ingest? { ReachableBatch(After(w, front)); }
    }
  }

  /** No row is pruned while its event is still waiting in the outbox. */
  ghost predicate PrunedAfterDelivery(w: World, actions: seq<Action>)
    requires Path(w, actions)
  {
    && After(w, actions).pruned !! ItemIds(After(w, actions).outbox)
    && (actions != [] ==> PrunedAfterDelivery(w, actions[..|actions| - 1]))
  }

  /** A pruned event that is claimed again comes back when it is recent enough and its stream has
      room: the owner can have cleared the stream in between. */
  lemma PrunedEventCanReturn(w: World, now: int, i: nat)
    requires Reachable(w) && w.phase.Ingesting? && i < |w.phase.batch|
    requires w.phase.batch[i].event.occurredAt >= now - RETENTION
    requires |w.tables.rows| + |w.phase.batch| <= LIMIT
    ensures w.phase.batch[i].event in Events(Next(w, Action.Ingest(now, true)).tables.rows)
  {
    ReachableIngest(w, now);
    IngestShape(w, now);
    RecentEventStays(w.tables, EventsOf(w.phase.batch), now, i);
  }

  lemma ReachableIngest(w: World, now: int)
    requires Reachable(w) && w.phase.Ingesting?
    ensures Sound(w.tables) && AppendThenPrune(w.tables, EventsOf(w.phase.batch), now).Ok?
  {
    ReachableAgrees(w);
    IngestIsOk(w, now);
  }

  lemma RecentEventStays(t: Tables, es: seq<Event>, now: int, i: nat)
    requires Sound(t) && AppendThenPrune(t, es, now).Ok? && i < |es|
    requires es[i].occurredAt >= now - RETENTION && |t.rows| + |es| <= LIMIT
    ensures es[i] in Events(AppendThenPrune(t, es, now).value.rows)
  {
    AppendAllKeepsSound(t, es);
    AppendAllCounts(t, es);
    var full := AppendAll(t, es).value.rows;
    assert es[i] in es && es[i] in Events(full);
    var r :| r in full && r.event == es[i];
    var kept := DropExpired(full, now - RETENTION);
    Smaller(kept, full);
    Smaller(Ahead(kept, r), kept - {r});
    assert r in DropOverflow(kept);
  }

  lemma {:induction false} AppendAllCounts(t: Tables, es: seq<Event>)
    requires AppendAll(t, es).Ok?
    ensures |AppendAll(t, es).value.rows| <= |t.rows| + |es|
  {
    if es != [] { AppendAllCounts(t, es[..|es| - 1]); }
  }

  /** A claim of the only event, when it is due. */
  lemma ClaimsTheOnlyEvent(item: Item, now: int)
    requires item.nextAttempt <= now
    ensures Picked([item], now, BATCH) == [item] && Claimed([item], now, BATCH) == [Renew(item, now)]
    ensures AfterClaim([item], ItemIds([item]), now) == [Renew(item, now)]
  {
    assert Due([], now) == [] && [item][..0] == [];
    assert Due([item], now) == [item];
    assert [item][1..] == [] && Sorted([item]) == [item];
    assert [item][0].event.id in ItemIds([item]);
  }

  lemma ReconcilesNothing(w: World, item: Item)
    requires w.phase == Idle && w.outbox == [item] && w.tables.rows == {} && w.tables.tombstones == map[]
    ensures Next(w, Start) == w.(phase := Reconciling({}))
    ensures Next(w.(phase := Reconciling({})), Reconcile(Delivered)) == w.(phase := Claiming({}))
  {
    assert KnownTo(w.tables, w.host) == {};
    assert Remaining([], {}) == [] && [item][..0] == [];
    assert Remaining(w.outbox, {}) == [item];
  }

  /** With one due event and nothing known, three steps fetch it. */
  lemma FetchesTheOnlyEvent(start: World, before: seq<Action>, item: Item, now: int)
      returns (actions: seq<Action>)
    requires Path(start, before)
    requires var w := After(start, before);
             w.phase == Idle && w.outbox == [item] && item.nextAttempt <= now
             && w.tables.rows == {} && w.tables.tombstones == map[]
    ensures Path(start, actions)
    ensures After(start, actions)
            == After(start, before).(outbox := [Renew(item, now)], phase := Ingesting({}, [Renew(item, now)]))
  {
    ReconcilesNothing(After(start, before), item);
    ClaimsTheOnlyEvent(item, now);
    OneMoreStep(start, before, Start);
    var a := before + [Start];
    OneMoreStep(start, a, Reconcile(Delivered));
    a := a + [Reconcile(Delivered)];
    OneMoreStep(start, a, Action.Claim(now, Delivered));
    return a + [Action.Claim(now, Delivered)];
  }

  /** Recorded at time 0 with the acknowledgement lost, and pruned at `late`. */
  lemma RecordedThenPruned(w: World, e: Event, late: int) returns (a: seq<Action>)
    requires Initial(w) && w.tables == Tables({}, map[], 0)
    requires e.stream.host == w.host && e.occurredAt == 0 && late == RETENTION + 1
    ensures Path(w, a)
    ensures After(w, a) == w.(outbox := [Renew(Item(e, 0, 0), 0)], sent := map[e.id := e],
                              tables := Tables({}, map[], 1), recorded := {e.id}, pruned := {e.id})
  {
    OneMoreStep(w, [], Action.Enqueue(e, 0));
    a := FetchesTheOnlyEvent(w, [Action.Enqueue(e, 0)], Item(e, 0, 0), 0);
    FirstIngest(w, a, e);
    a := a + [Action.Ingest(0, true)];
    OneMoreStep(w, a, Confirm(LostRequest));
    a := a + [Confirm(LostRequest)];
    OneMoreStep(w, a, Elsewhere(Op.Prune(late)));
    PrunedAway(e, late);
    a := a + [Elsewhere(Op.Prune(late))];
  }

  lemma PrunedAway(e: Event, late: int)
    requires e.occurredAt == 0 && late == RETENTION + 1
    ensures Plain(Tables({Row(0, e)}, map[], 1), Op.Prune(late)) == Tables({}, map[], 1)
    ensures Ids({Row(0, e)}) == {e.id} && Ids({}) == {}
  {}

  /** The at-most-once promise does fail: an event recorded, not acknowledged, pruned by age and
      then synchronized again is inserted a second time. */
  lemma PrunedEventIsRecordedAgain(w: World, e: Event)
    requires Initial(w) && w.tables == Tables({}, map[], 0)
    requires e.stream.host == w.host && e.occurredAt == 0
    ensures exists actions :: Path(w, actions) && After(w, actions).twice == {e.id}
  {
    var late := RETENTION + 1;
    var a := RecordedThenPruned(w, e, late);
    var again := Renew(Item(e, 0, 0), 0);
    RetryDelayShape(1);
    a := FetchesTheOnlyEvent(w, a, again, late);
    assert Reachable(After(w, a));
    RecordedAgainExactlyWhenPruned(After(w, a), late);
    assert ItemIds([Renew(again, late)]) == {e.id} by {
      assert [] + [Renew(again, late)] == [Renew(again, late)];
      IdsOfAppend([], Renew(again, late));
    }
    OneMoreStep(w, a, Action.Ingest(late, true));
    assert After(w, a + [Action.Ingest(late, true)]).twice == {e.id};
  }

  lemma FirstAppend(e: Event)
    requires e.occurredAt == 0
    ensures AppendThenPrune(Tables({}, map[], 0), [e], 0) == Ok(Tables({Row(0, e)}, map[], 1))
    ensures Ids({}) == {} && Ids({Row(0, e)}) == {e.id}
  {
    var t := Tables({}, map[], 0);
    assert [e][..0] == [];
    assert AppendAll(t, []) == Ok(t);
    assert AppendEvent(t, e) == Ok(Tables({Row(0, e)}, map[], 1)) by { assert {} + {Row(0, e)} == {Row(0, e)}; }
    assert AppendAll(t, [e]) == Ok(Tables({Row(0, e)}, map[], 1));
    assert Ahead({Row(0, e)}, Row(0, e)) == {};
    assert PruneAll({Row(0, e)}, 0) == {Row(0, e)};
  }

  lemma FirstIngest(start: World, before: seq<Action>, e: Event)
    requires Path(start, before) && e.occurredAt == 0
    requires var w := After(start, before);
             && w.phase == Ingesting({}, [Renew(Item(e, 0, 0), 0)])
             && w.tables == Tables({}, map[], 0) && w.recorded == w.pruned == w.twice == {}
    ensures Path(start, before + [Action.Ingest(0, true)])
    ensures After(start, before + [Action.Ingest(0, true)])
            == After(start, before).(tables := Tables({Row(0, e)}, map[], 1), recorded := {e.id},
                                     phase := Confirming({}, {e.id}))
  {
    var w := After(start, before);
    OneMoreStep(start, before, Action.Ingest(0, true));
    var batch := w.phase.batch;
    IdsOfAppend([], batch[0]);
    assert ItemIds(batch) == {e.id} by { assert [] + batch == batch; }
    assert EventsOf(batch) == [e];
    FirstAppend(e);
    assert Ingested(w, 0, true) == w.(tables := Tables({Row(0, e)}, map[], 1), recorded := {e.id},
                                      phase := Confirming({}, {e.id}));
  }

  // ---- termination ----

  /** A fetch that comes back empty means nothing in the outbox was due. */
  lemma SyncEndsWhenNothingIsDue(w: World, now: int)
    requires Reachable(w) && w.phase.Claiming?
    ensures Next(w, Action.Claim(now, Delivered)).phase.Idle?
            <==> forall i | 0 <= i < |w.outbox| :: w.outbox[i].nextAttempt > now
  {
    ReachableAgrees(w);
    NothingPicked(w.outbox, now);
  }

  lemma NothingPicked(items: seq<Item>, now: int)
    ensures Claimed(items, now, BATCH) == []
            <==> forall i | 0 <= i < |items| :: items[i].nextAttempt > now
  {
    var due := Due(items, now);
    DueAre(items, now);
    SortedIsOrdered(due);
    assert |Claimed(items, now, BATCH)| == 0 <==> |due| == 0;
    if due == [] {
      forall i | 0 <= i < |items| ensures items[i].nextAttempt > now {
        assert items[i] in items && items[i] !in due;
      }
    } else {
      assert due[0] in due;
    }
  }

  predicate OfTheSync(a: Action) {
    !a.Enqueue? && !a.Elsewhere? && !a.Start?
  }

  /** An upper bound on the steps a sync can still take. */
  function Measure(w: World): nat {
    7 * |w.outbox| + Left(w.phase)
  }

  function Left(phase: Phase): nat {
    match phase
    case Idle => 0
    case Reconciling(_) => 6
    case Acknowledging(_) => 5
    case Forgetting(_) => 4
    case Claiming(_) => 3
    case Ingesting(_, _) => 2
    case Confirming(_, _) => 1
  }

  lemma ConfirmingShortens(w: World)
    requires PhaseAgrees(w) && w.phase.Confirming?
    ensures |Remaining(w.outbox, w.phase.accepted)| < |w.outbox|
  {
    RemainingShrinks(w.outbox, w.phase.accepted);
    var id :| id in w.phase.accepted;
    assert id in ItemIds(w.outbox);
  }

  /** Each step of a sync lowers the measure, because a confirmed batch is never empty; use of the
      record store elsewhere does not raise it. */
  lemma StepsLowerTheMeasure(w: World, a: Action)
    requires PhaseAgrees(w) && Enabled(w, a) && !a.Enqueue? && !a.Start?
    ensures if OfTheSync(a) && !w.phase.Idle? then Measure(Next(w, a)) < Measure(w)
            else Measure(Next(w, a)) == Measure(w)
  {
    match a
    case Elsewhere(op) => assert Next(w, a).outbox == w.outbox && Next(w, a).phase == w.phase;
    case Reconcile(_) => CallLowers(w, a);
    case Acknowledge(_) => CallLowers(w, a);
    case Claim(now, fault) => FetchingLowers(w, now, fault);
    case Ingest(now, reachable) => IngestingLowers(w, now, reachable);
    case Confirm(_) => ConfirmingLowers(w, a);
    case _ =>
  }

  lemma ConfirmingLowers(w: World, a: Action)
    requires PhaseAgrees(w) && Enabled(w, a) && a.Confirm?
    ensures Measure(Next(w, a)) < Measure(w)
  {
    ConfirmingShortens(w);
  }

  lemma CallLowers(w: World, a: Action)
    requires Enabled(w, a) && (a.Reconcile? || a.Acknowledge?)
    ensures Measure(Next(w, a)) < Measure(w)
  {
    var acked := w.phase.acked;
    RemovingLowers(w, acked, a.fault,
                   if a.Acknowledge? then Forgetting(acked) else if acked == {} then Claiming({}) else Acknowledging(acked));
  }

  lemma RemovingLowers(w: World, ids: set<EventId>, fault: Fault, onward: Phase)
    requires Left(onward) < Left(w.phase)
    ensures Measure(HostRemoves(w, ids, fault, onward)) < Measure(w)
  {
    RemainingShrinks(w.outbox, ids);
  }

  lemma FetchingLowers(w: World, now: int, fault: Fault)
    requires w.phase.Claiming?
    ensures Measure(Fetched(w, now, fault)) < Measure(w)
  {}

  lemma IngestingLowers(w: World, now: int, reachable: bool)
    requires w.phase.Ingesting?
    ensures Measure(Ingested(w, now, reachable)) < Measure(w)
  {}

  function SyncSteps(actions: seq<Action>): nat {
    if actions == [] then 0
    else SyncSteps(actions[..|actions| - 1]) + if OfTheSync(actions[|actions| - 1])
                                                  && !actions[|actions| - 1].Abandon? then 1 else 0
  }

  /** A sync ends: until something is enqueued it takes at most seven steps per event in the outbox
      and six more, however the store is used meanwhile. */
  lemma {:induction false} SyncTerminates(w: World, actions: seq<Action>)
    requires Agrees(w) && Path(w, actions)
    requires forall i | 0 <= i < |actions| :: !actions[i].Enqueue? && !actions[i].Start?
    ensures SyncSteps(actions) + Measure(After(w, actions)) <= Measure(w) <= 7 * |w.outbox| + 6
  {
    if actions != [] {
      var front, last := actions[..|actions| - 1], actions[|actions| - 1];
      assert forall i | 0 <= i < |front| :: front[i] == actions[i];
      SyncTerminates(w, front);
      PathKeeps(w, front);
      StepsLowerTheMeasure(After(w, front), last);
    }
  }
}
