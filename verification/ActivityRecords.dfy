/** The plugin's activity tables (src/activity/activity-records.ts): rows, tombstones of cleared
    events, and the cached row count per stream. Times are milliseconds; `details` stands for the
    columns that are stored and compared but never looked at. */
module ActivityRecords {
  import opened Wrappers
  import opened Keys

  type EventId = nat
  type HostId = string

  const LIMIT := 10_000
  const RETENTION := 30 * 24 * 60 * 60 * 1000

  datatype Stream = Stream(host: HostId, profile: string)
  {
    /** The key of the count cache. */
    function Key(): string { Join(host, profile) }
    predicate Proper() { NulFree(host) }
  }

  datatype Event = Event(id: EventId, stream: Stream, occurredAt: int, details: nat)

  /** `id` is the AUTOINCREMENT key. */
  datatype Row = Row(id: nat, event: Event)

  datatype Tables = Tables(rows: set<Row>, tombstones: map<EventId, Stream>, nextRow: nat)

  function Ids(rows: set<Row>): set<EventId> {
    set r | r in rows :: r.event.id
  }

  function Events(rows: set<Row>): set<Event> {
    set r | r in rows :: r.event
  }

  function Of(rows: set<Row>, stream: Stream): set<Row> {
    set r | r in rows && r.event.stream == stream
  }

  function Count(rows: set<Row>, stream: Stream): nat {
    |Of(rows, stream)|
  }

  // ---- pruning ----

  /** ORDER BY occurred_at DESC, id DESC within one stream. */
  predicate Outranks(a: Row, b: Row) {
    && a.event.stream == b.event.stream
    && (a.event.occurredAt > b.event.occurredAt
        || (a.event.occurredAt == b.event.occurredAt && a.id > b.id))
  }

  function Ahead(rows: set<Row>, r: Row): set<Row> {
    set x | x in rows && Outranks(x, r)
  }

  function DropExpired(rows: set<Row>, cutoff: int): set<Row> {
    set r | r in rows && r.event.occurredAt >= cutoff
  }

  function DropExpiredOf(rows: set<Row>, stream: Stream, cutoff: int): set<Row> {
    set r | r in rows && (r.event.stream != stream || r.event.occurredAt >= cutoff)
  }

  function DropOverflow(rows: set<Row>): set<Row> {
    set r | r in rows && |Ahead(rows, r)| < LIMIT
  }

  function DropOverflowOf(rows: set<Row>, stream: Stream): set<Row> {
    set r | r in rows && (r.event.stream != stream || |Ahead(rows, r)| < LIMIT)
  }

  function PruneAll(rows: set<Row>, now: int): set<Row> {
    DropOverflow(DropExpired(rows, now - RETENTION))
  }

  /** Pruning one stream when its count is known beforehand. */
  function PruneKnown(rows: set<Row>, stream: Stream, now: int, known: nat): set<Row> {
    var left := DropExpiredOf(rows, stream, now - RETENTION);
    if known > LIMIT then DropOverflowOf(left, stream) else left
  }

  /** Pruning one stream with no count to trust. */
  function PruneOne(rows: set<Row>, stream: Stream, now: int): set<Row> {
    DropOverflowOf(DropExpiredOf(rows, stream, now - RETENTION), stream)
  }

  // ---- appending ----

  /** A known event is accepted again when it is the same, refused when it differs. */
  function AppendEvent(t: Tables, e: Event): Result<Tables, EventId> {
    if e.id !in Ids(t.rows) then
      Ok(t.(rows := t.rows + {Row(t.nextRow, e)}, nextRow := t.nextRow + 1))
    else if e in Events(t.rows) then Ok(t)
    else Err(e.id)
  }

  function AppendAll(t: Tables, es: seq<Event>): Result<Tables, EventId> {
    if es == [] then Ok(t)
    else
      var before := AppendAll(t, es[..|es| - 1]);
      if before.Err? then before else AppendEvent(before.value, es[|es| - 1])
  }

  function Cleared(t: Tables, stream: Stream): Tables {
    var gone := Of(t.rows, stream);
    var ids := Ids(gone);
    t.(rows := t.rows - gone,
       tombstones := map id | id in t.tombstones.Keys + ids ::
                       if id in t.tombstones then t.tombstones[id] else stream)
  }

  function ClearAcknowledged(t: Tables, host: HostId, ids: set<EventId>): Tables {
    t.(tombstones := map id | id in t.tombstones && !(t.tombstones[id].host == host && id in ids) ::
                       t.tombstones[id])
  }

  /** What the plugin tells a host it no longer needs: recorded or cleared. */
  function KnownTo(t: Tables, host: HostId): set<EventId> {
    (set r | r in t.rows && r.event.stream.host == host :: r.event.id)
    + (set id | id in t.tombstones && t.tombstones[id].host == host)
  }

  // ---- what tables always satisfy ----

  ghost predicate Sound(t: Tables) {
    && (forall r | r in t.rows :: r.id < t.nextRow)
    && (forall a, b | a in t.rows && b in t.rows && a != b :: a.id != b.id && a.event.id != b.event.id)
  }

  // ---- overflow keeps exactly the newest LIMIT rows ----

  /** Rows of one stream, all with different ids. */
  ghost predicate OneStream(rows: set<Row>, stream: Stream) {
    && (forall r | r in rows :: r.event.stream == stream)
    && (forall a, b | a in rows && b in rows && a != b :: a.id != b.id)
  }

  /** Some row comes after every other. */
  lemma {:induction false} LastRow(rows: set<Row>, stream: Stream) returns (last: Row)
    requires rows != {} && OneStream(rows, stream)
    ensures last in rows && Ahead(rows, last) == rows - {last}
    decreases rows
  {
    var r :| r in rows;
    if rows == {r} { return r; }
    var below := LastRow(rows - {r}, stream);
    last := if Outranks(below, r) then r else below;
    forall x | x in rows && x != last ensures Outranks(x, last) {
      assert x != r && x != below ==> x in Ahead(rows - {r}, below);
    }
  }

  ghost function Newest(rows: set<Row>, n: nat): set<Row> {
    set r | r in rows && |Ahead(rows, r)| < n
  }

  lemma {:induction false} NewestCount(rows: set<Row>, stream: Stream, n: nat)
    requires OneStream(rows, stream)
    ensures |Newest(rows, n)| == if |rows| < n then |rows| else n
    decreases rows
  {
    if rows == {} { return; }
    var last := LastRow(rows, stream);
    var rest := rows - {last};
    NewestCount(rest, stream, n);
    forall r | r in rest ensures Ahead(rest, r) == Ahead(rows, r) {
      assert last !in Ahead(rows, r) by { assert r in Ahead(rows, last); }
    }
    assert last !in Newest(rest, n) && Ahead(rows, last) == rest;
    assert |rows| == |rest| + 1;
    NewestWithLast(rows, rest, last, n);
  }

  lemma NewestWithLast(rows: set<Row>, rest: set<Row>, last: Row, n: nat)
    requires rows == rest + {last} && last !in rest && Ahead(rows, last) == rest
    requires forall r | r in rest :: Ahead(rest, r) == Ahead(rows, r)
    ensures Newest(rows, n) == Newest(rest, n) + if |rest| < n then {last} else {}
  {}

  /** The overflow delete of one stream leaves that stream's newest rows, up to the limit, and
      every other stream as it was. */
  lemma OverflowKeepsNewest(t: Tables, stream: Stream)
    requires Sound(t)
    ensures var left := DropOverflowOf(t.rows, stream);
            && left - Of(left, stream) == t.rows - Of(t.rows, stream)
            && Count(left, stream) == (if Count(t.rows, stream) < LIMIT then Count(t.rows, stream) else LIMIT)
            && forall a, b | a in Of(t.rows, stream) && b in Of(left, stream) && Outranks(a, b) :: a in left
  {
    var rows, left := t.rows, DropOverflowOf(t.rows, stream);
    var mine := Of(rows, stream);
    NewestCount(mine, stream, LIMIT);
    forall r | r in mine ensures Ahead(mine, r) == Ahead(rows, r) {}
    assert Of(left, stream) == Newest(mine, LIMIT);
    forall a, b | a in mine && b in Of(left, stream) && Outranks(a, b) ensures a in left {
      Smaller(Ahead(rows, a), Ahead(rows, b));
    }
  }

  lemma Smaller<T>(a: set<T>, b: set<T>)
    requires a <= b
    ensures |a| <= |b|
  {
    assert b == a + (b - a);
  }

  lemma FewerRows(a: set<Row>, b: set<Row>, stream: Stream)
    requires a <= b
    ensures Count(a, stream) <= Count(b, stream)
  {
    Smaller(Of(a, stream), Of(b, stream));
  }

  /** The delete over all streams is the delete of each stream. */
  lemma OverflowOfEach(t: Tables, stream: Stream)
    requires Sound(t)
    ensures Of(DropOverflow(t.rows), stream) == Of(DropOverflowOf(t.rows, stream), stream)
    ensures Count(DropOverflow(t.rows), stream) <= LIMIT
  {
    assert Of(DropOverflow(t.rows), stream) == Of(DropOverflowOf(t.rows, stream), stream);
    OverflowKeepsNewest(t, stream);
  }

  /** A stream within the limit has no overflow. */
  lemma NoOverflow(rows: set<Row>, stream: Stream)
    requires Count(rows, stream) <= LIMIT
    ensures DropOverflowOf(rows, stream) == rows
  {
    forall r | r in rows && r.event.stream == stream ensures |Ahead(rows, r)| < LIMIT {
      var mine := Of(rows, stream);
      Smaller(Ahead(rows, r), mine - {r});
    }
  }

  /** An upper bound of the count is enough to decide whether the delete is needed. */
  lemma BoundIsEnough(rows: set<Row>, stream: Stream, now: int, known: nat)
    requires Count(rows, stream) <= known
    ensures PruneKnown(rows, stream, now, known) == PruneOne(rows, stream, now)
  {
    var left := DropExpiredOf(rows, stream, now - RETENTION);
    FewerRows(left, rows, stream);
    if known <= LIMIT { NoOverflow(left, stream); }
  }

  // ---- every operation keeps tables sound ----

  lemma FewerSound(t: Tables, u: Tables)
    requires Sound(t) && u.rows <= t.rows && u.nextRow == t.nextRow
    ensures Sound(u)
  {}

  lemma AppendKeepsSound(t: Tables, e: Event)
    requires Sound(t) && AppendEvent(t, e).Ok?
    ensures var u := AppendEvent(t, e).value;
            Sound(u) && t.rows <= u.rows && e in Events(u.rows) && u.tombstones == t.tombstones
            && Ids(u.rows) == Ids(t.rows) + {e.id} && Events(u.rows) == Events(t.rows) + {e}
  {
    var u := AppendEvent(t, e).value;
    if e.id !in Ids(t.rows) {
      assert Row(t.nextRow, e) in u.rows;
      assert u.rows == t.rows + {Row(t.nextRow, e)};
      forall r | r in t.rows ensures r.event.id in Ids(t.rows) {}
    }
  }

  function IdSet(es: seq<Event>): set<EventId> {
    set e | e in es :: e.id
  }

  function EventSet(es: seq<Event>): set<Event> {
    set e | e in es
  }

  lemma SetsGrow(es: seq<Event>)
    requires es != []
    ensures IdSet(es) == IdSet(es[..|es| - 1]) + {es[|es| - 1].id}
    ensures EventSet(es) == EventSet(es[..|es| - 1]) + {es[|es| - 1]}
  {
    assert es == es[..|es| - 1] + [es[|es| - 1]];
  }

  lemma {:induction false} AppendAllKeepsSound(t: Tables, es: seq<Event>)
    requires Sound(t) && AppendAll(t, es).Ok?
    ensures var u := AppendAll(t, es).value;
            Sound(u) && t.rows <= u.rows && u.tombstones == t.tombstones
            && Ids(u.rows) == Ids(t.rows) + IdSet(es) && Events(u.rows) == Events(t.rows) + EventSet(es)
  {
    if es != [] {
      AppendAllKeepsSound(t, es[..|es| - 1]);
      AppendKeepsSound(AppendAll(t, es[..|es| - 1]).value, es[|es| - 1]);
      SetsGrow(es);
    }
  }
}
