/** Delivering a host's outbox to the plugin's tables (src/activity/activity-sync.ts), one step per
    transport call or transaction. Any call can be lost before or after its effect, and other
    operations on either side happen between any two steps. At most one sync runs per host. */
module ActivitySync {
  import opened ActivityRecords
  import opened ActivityCounts
  import opened ActivityOutbox

  /** Where a sync is. `acked` is acknowledgedEventIds. */
  datatype Phase =
    | Idle
    | Reconciling(acked: set<EventId>)
    | Acknowledging(acked: set<EventId>)
    | Forgetting(acked: set<EventId>)
    | Claiming(acked: set<EventId>)
    | Ingesting(acked: set<EventId>, batch: seq<Item>)
    | Confirming(acked: set<EventId>, accepted: set<EventId>)

  /** One host and the plugin. The rest is history: what was ever enqueued here, which ids others
      use, and which of this host's ids were ever recorded, cleared by the owner, deleted by
      pruning, or recorded again. */
  datatype World = World(host: HostId, outbox: seq<Item>, tables: Tables, phase: Phase,
                         sent: map<EventId, Event>, foreign: set<EventId>,
                         recorded: set<EventId>, cleared: set<EventId>, pruned: set<EventId>,
                         twice: set<EventId>)

  datatype Fault = Delivered | LostRequest | LostReply

  datatype Action =
    | Enqueue(event: Event, now: int)
    | Elsewhere(op: Op)  // any other use of the record store
    | Start
    | Reconcile(fault: Fault)
    | Acknowledge(fault: Fault)
    | Forget
    | Claim(now: int, fault: Fault)
    | Ingest(now: int, reachable: bool)  // an expired profile makes it ask the host first
    | Confirm(fault: Fault)
    | Abandon  // the plugin restarts or its database fails

  function OpIds(op: Op): set<EventId> {
    match op
    case Append(e, _) => {e.id}
    case Ingest(es, _) => set i | 0 <= i < |es| :: es[i].id
    case Export(e, _) => {e.id}
    case _ => {}
  }

  predicate Enabled(w: World, a: Action) {
    match a
    case Enqueue(e, _) =>
      e.stream.host == w.host
      && (e.id in ItemIds(w.outbox) || (e.id !in w.sent && e.id !in w.foreign))
    case Elsewhere(op) =>
      OpIds(op) !! w.sent.Keys && (op.AcknowledgeCleared? ==> op.host != w.host)
    case Start => w.phase.Idle?
    case Reconcile(_) => w.phase.Reconciling?
    case Acknowledge(_) => w.phase.Acknowledging?
    case Forget => w.phase.Forgetting?
    case Claim(_, _) => w.phase.Claiming?
    case Ingest(_, _) => w.phase.Ingesting?
    case Confirm(_) => w.phase.Confirming?
    case Abandon => true
  }

  /** A host call that removes acknowledged ids; it refuses lists that are too long. */
  function HostRemoves(w: World, ids: set<EventId>, fault: Fault, onward: Phase): World {
    if fault == LostRequest || |ids| > LIMIT then w.(phase := Idle)
    else w.(outbox := Remaining(w.outbox, ids),
            phase := if fault == LostReply then Idle else onward)
  }

  function Fetched(w: World, now: int, fault: Fault): World
    requires w.phase.Claiming?
  {
    if fault == LostRequest then w.(phase := Idle)
    else
      var picked := ItemIds(Picked(w.outbox, now, BATCH));
      var batch := Claimed(w.outbox, now, BATCH);
      w.(outbox := AfterClaim(w.outbox, picked, now),
         phase := if fault == LostReply || batch == [] then Idle
                  else Ingesting(w.phase.acked, batch))
  }

  function EventsOf(batch: seq<Item>): seq<Event> {
    seq(|batch|, i requires 0 <= i < |batch| => batch[i].event)
  }

  /** The tables change, and history notes which of this host's rows went. */
  function Moved(w: World, t: Tables, vanished: set<EventId>, byOwner: bool): World {
    var mine := vanished * w.sent.Keys;
    w.(tables := t, cleared := if byOwner then w.cleared + mine else w.cleared,
       pruned := if byOwner then w.pruned else w.pruned + mine)
  }

  function Ingested(w: World, now: int, reachable: bool): World
    requires w.phase.Ingesting?
  {
    var es, ids := EventsOf(w.phase.batch), ItemIds(w.phase.batch);
    var done := AppendThenPrune(w.tables, es, now);
    if !reachable || done.Err? then w.(phase := Idle)
    else
      var again := (ids - Ids(w.tables.rows)) * w.recorded;
      Moved(w.(recorded := w.recorded + ids, twice := w.twice + again),
            done.value, (Ids(w.tables.rows) + ids) - Ids(done.value.rows), false)
      .(phase := Confirming(w.phase.acked, ids))
  }

  function Next(w: World, a: Action): World
    requires Enabled(w, a)
  {
    match a
    case Enqueue(e, now) =>
      var done := Enqueued(w.outbox, e, now);
      if done.Err? then w
      else w.(outbox := done.value, sent := if e.id in w.sent then w.sent else w.sent[e.id := e])
    case Elsewhere(op) =>
      var t := Plain(w.tables, op);
      Moved(w, t, Ids(w.tables.rows) - Ids(t.rows), op.Clear?).(foreign := w.foreign + OpIds(op))
    case Start => w.(phase := Reconciling(KnownTo(w.tables, w.host)))
    case Reconcile(fault) =>
      var acked := w.phase.acked;
      HostRemoves(w, acked, fault, if acked == {} then Claiming({}) else Acknowledging(acked))
    case Acknowledge(fault) => HostRemoves(w, w.phase.acked, fault, Forgetting(w.phase.acked))
    case Forget =>
      w.(tables := ClearAcknowledged(w.tables, w.host, w.phase.acked),
         phase := Claiming(w.phase.acked))
    case Claim(now, fault) => Fetched(w, now, fault)
    case Ingest(now, reachable) => Ingested(w, now, reachable)
    case Confirm(fault) =>
      HostRemoves(w, w.phase.accepted, fault, Reconciling(w.phase.acked + w.phase.accepted))
    case Abandon => w.(phase := Idle)
  }

  // ---- what every reachable world satisfies ----

  ghost predicate TablesAgree(w: World) {
    && Sound(w.tables)
    && w.sent.Keys !! w.foreign
    && Ids(w.tables.rows) + w.tables.tombstones.Keys <= w.sent.Keys + w.foreign
    && (forall r | r in w.tables.rows && r.event.id in w.sent :: r.event == w.sent[r.event.id])
    && (forall id | id in w.tables.tombstones && id in w.sent :: w.tables.tombstones[id].host == w.host)
    && (forall id | id in w.sent :: w.sent[id].id == id && w.sent[id].stream.host == w.host)
  }

  ghost predicate OutboxAgrees(w: World) {
    && DistinctIds(w.outbox)
    && forall i | 0 <= i < |w.outbox| ::
         w.outbox[i].event.id in w.sent && w.outbox[i].event == w.sent[w.outbox[i].event.id]
  }

  /** What is in neither the outbox nor the tables was recorded, and cleared or pruned. */
  ghost predicate HistoryAgrees(w: World) {
    && w.sent.Keys - ItemIds(w.outbox) <= w.recorded <= w.sent.Keys
    && (Ids(w.tables.rows) + w.tables.tombstones.Keys) * w.sent.Keys <= w.recorded
    && w.cleared + w.pruned <= w.recorded
    && w.recorded - Ids(w.tables.rows) <= w.cleared + w.pruned
    && w.cleared * ItemIds(w.outbox) <= w.tables.tombstones.Keys
    && w.cleared !! Ids(w.tables.rows)
    && w.twice <= w.pruned
  }

  /** Events still in the outbox although the plugin has recorded or cleared them. */
  function Overdue(w: World): set<EventId> {
    (Ids(w.tables.rows) + w.tables.tombstones.Keys) * ItemIds(w.outbox)
  }

  ghost predicate AckedAreRecorded(w: World, acked: set<EventId>) {
    acked <= w.sent.Keys + w.foreign && acked * w.sent.Keys <= w.recorded
  }

  ghost predicate PhaseAgrees(w: World) {
    match w.phase
    case Idle => true
    case Reconciling(acked) => AckedAreRecorded(w, acked) && Overdue(w) <= acked
    case Acknowledging(acked) =>
      AckedAreRecorded(w, acked) && acked !! ItemIds(w.outbox) && Overdue(w) == {}
    case Forgetting(acked) =>
      AckedAreRecorded(w, acked) && acked !! ItemIds(w.outbox) && Overdue(w) == {}
    case Claiming(acked) => AckedAreRecorded(w, acked) && Overdue(w) == {}
    case Ingesting(acked, batch) =>
      && AckedAreRecorded(w, acked) && Overdue(w) == {}
      && 0 < |batch| <= BATCH && DistinctIds(batch)
      && forall i | 0 <= i < |batch| ::
           batch[i].event.id in ItemIds(w.outbox)
           && batch[i].event.id in w.sent && batch[i].event == w.sent[batch[i].event.id]
    case Confirming(acked, accepted) =>
      && AckedAreRecorded(w, acked) && accepted != {} && |accepted| <= BATCH
      && accepted <= ItemIds(w.outbox) && accepted <= w.recorded && Overdue(w) <= accepted
  }

  ghost predicate Agrees(w: World) {
    TablesAgree(w) && OutboxAgrees(w) && HistoryAgrees(w) && PhaseAgrees(w)
  }

  predicate Initial(w: World) {
    && w.outbox == [] && w.phase == Idle && w.sent == map[] && w.recorded == {} && w.cleared == {}
    && w.pruned == {} && w.twice == {}
    && w.foreign == Ids(w.tables.rows) + w.tables.tombstones.Keys
  }
}
