/** The cached per-stream counts, and why trusting them deletes exactly the right rows. */
module ActivityCounts {
  import opened Wrappers
  import opened Keys
  import opened ActivityRecords

  datatype Store = Store(tables: Tables, counts: map<string, nat>)

  datatype Op =
    | Append(event: Event, now: int)
    | Ingest(events: seq<Event>, now: int)
    | Prune(now: int)  // also what listing a stream does first
    | Export(event: Event, now: int)
    | Clear(stream: Stream)
    | AcknowledgeCleared(host: HostId, ids: set<EventId>)
    | Restart
  {
    /** The streams whose cached counts the operation reads or writes. */
    function Streams(): set<Stream> {
      match this
      case Append(e, _) => {e.stream}
      case Clear(stream) => {stream}
      case _ => {}
    }
  }

  /** Different streams have different keys in the cache. */
  predicate Apart(streams: set<Stream>) {
    forall a, b | a in streams && b in streams && a.Key() == b.Key() :: a == b
  }

  predicate Over(ops: seq<Op>, streams: set<Stream>) {
    forall i | 0 <= i < |ops| :: ops[i].Streams() <= streams
  }

  function Known(s: Store, stream: Stream): nat {
    if stream.Key() in s.counts then s.counts[stream.Key()] else Count(s.tables.rows, stream)
  }

  function AppendCached(s: Store, e: Event, now: int): Store {
    var appended := AppendEvent(s.tables, e);
    if appended.Err? then s
    else
      var t := appended.value;
      var next := Known(s, e.stream) + if e.id in Ids(s.tables.rows) then 0 else 1;
      Store(t.(rows := PruneKnown(t.rows, e.stream, now, next)),
            s.counts[e.stream.Key() := if next < LIMIT then next else LIMIT])
  }

  function AppendThenPrune(t: Tables, es: seq<Event>, now: int): Result<Tables, EventId> {
    var appended := AppendAll(t, es);
    if appended.Err? then appended
    else Ok(appended.value.(rows := PruneAll(appended.value.rows, now)))
  }

  function Apply(s: Store, op: Op): Store {
    match op
    case Append(e, now) => AppendCached(s, e, now)
    case Ingest(es, now) =>
      var done := AppendThenPrune(s.tables, es, now);
      if done.Ok? then Store(done.value, map[]) else s
    case Prune(now) => Store(s.tables.(rows := PruneAll(s.tables.rows, now)), map[])
    case Export(e, now) =>
      var done := AppendThenPrune(s.tables, [e], now);
      if done.Ok? then Store(done.value, map[]) else s
    case Clear(stream) => Store(Cleared(s.tables, stream), s.counts[stream.Key() := 0])
    case AcknowledgeCleared(host, ids) => s.(tables := ClearAcknowledged(s.tables, host, ids))
    case Restart => s.(counts := map[])
  }

  /** The same operation with no cache: every append runs the overflow delete. */
  function Plain(t: Tables, op: Op): Tables {
    match op
    case Append(e, now) =>
      var appended := AppendEvent(t, e);
      if appended.Err? then t
      else appended.value.(rows := PruneOne(appended.value.rows, e.stream, now))
    case Ingest(es, now) =>
      var done := AppendThenPrune(t, es, now);
      if done.Ok? then done.value else t
    case Prune(now) => t.(rows := PruneAll(t.rows, now))
    case Export(e, now) =>
      var done := AppendThenPrune(t, [e], now);
      if done.Ok? then done.value else t
    case Clear(stream) => Cleared(t, stream)
    case AcknowledgeCleared(host, ids) => ClearAcknowledged(t, host, ids)
    case Restart => t
  }

  /** Every cached count is at least the true one of its stream. */
  ghost predicate CountsBound(s: Store, streams: set<Stream>) {
    forall stream | stream in streams && stream.Key() in s.counts ::
      Count(s.tables.rows, stream) <= s.counts[stream.Key()]
  }

  lemma AppendCountsOne(t: Tables, e: Event, stream: Stream)
    requires Sound(t) && AppendEvent(t, e).Ok?
    ensures var u := AppendEvent(t, e).value;
            Count(u.rows, stream)
            <= Count(t.rows, stream) + if stream == e.stream && e.id !in Ids(t.rows) then 1 else 0
  {
    if e.id !in Ids(t.rows) { OneMoreRow(t.rows, Row(t.nextRow, e), stream); }
  }

  lemma OneMoreRow(rows: set<Row>, added: Row, stream: Stream)
    ensures Count(rows + {added}, stream) <= Count(rows, stream) + if stream == added.event.stream then 1 else 0
  {
    assert Of(rows + {added}, stream) == Of(rows, stream) + if stream == added.event.stream then {added} else {};
  }

  /** What an append does to every other stream's rows, and to its own. */
  lemma PruneOneIsLocal(t: Tables, stream: Stream, now: int, other: Stream)
    requires Sound(t)
    ensures Count(PruneOne(t.rows, stream, now), other) <= Count(t.rows, other)
    ensures Count(PruneOne(t.rows, stream, now), stream) <= LIMIT
  {
    var left := DropExpiredOf(t.rows, stream, now - RETENTION);
    FewerRows(PruneOne(t.rows, stream, now), t.rows, other);
    FewerSound(t, t.(rows := left));
    OverflowKeepsNewest(t.(rows := left), stream);
  }

  lemma PruneAllBounds(t: Tables, now: int, stream: Stream)
    requires Sound(t)
    ensures Count(PruneAll(t.rows, now), stream) <= LIMIT
    ensures Count(PruneAll(t.rows, now), stream) <= Count(t.rows, stream)
  {
    var left := DropExpired(t.rows, now - RETENTION);
    FewerSound(t, t.(rows := left));
    OverflowOfEach(t.(rows := left), stream);
    FewerRows(PruneAll(t.rows, now), t.rows, stream);
  }

  /** One append that trusts the cache leaves the rows of one that does not. */
  lemma CachedAppendIsPlain(s: Store, e: Event, now: int, streams: set<Stream>)
    requires Sound(s.tables) && CountsBound(s, streams) && Apart(streams) && e.stream in streams
    ensures AppendCached(s, e, now).tables == Plain(s.tables, Append(e, now))
    ensures Sound(AppendCached(s, e, now).tables)
    ensures CountsBound(AppendCached(s, e, now), streams)
  {
    var appended := AppendEvent(s.tables, e);
    if appended.Err? { return; }
    var t, r := appended.value, AppendCached(s, e, now);
    var next := Known(s, e.stream) + if e.id in Ids(s.tables.rows) then 0 else 1;
    AppendKeepsSound(s.tables, e);
    AppendCountsOne(s.tables, e, e.stream);
    BoundIsEnough(t.rows, e.stream, now, next);
    FewerSound(t, r.tables);
    forall stream | stream in streams && stream.Key() in r.counts
      ensures Count(r.tables.rows, stream) <= r.counts[stream.Key()]
    {
      AppendCountsOne(s.tables, e, stream);
      PruneOneIsLocal(t, e.stream, now, stream);
    }
  }

  lemma AppendThenPruneIsSound(t: Tables, es: seq<Event>, now: int)
    requires Sound(t) && AppendThenPrune(t, es, now).Ok?
    ensures Sound(AppendThenPrune(t, es, now).value)
    ensures forall stream: Stream :: Count(AppendThenPrune(t, es, now).value.rows, stream) <= LIMIT
  {
    AppendAllKeepsSound(t, es);
    var u := AppendAll(t, es).value;
    FewerSound(u, AppendThenPrune(t, es, now).value);
    forall stream: Stream ensures Count(AppendThenPrune(t, es, now).value.rows, stream) <= LIMIT {
      PruneAllBounds(u, now, stream);
    }
  }

  lemma ClearLeavesTheRest(s: Store, cleared: Stream, streams: set<Stream>)
    requires Sound(s.tables) && CountsBound(s, streams) && Apart(streams) && cleared in streams
    ensures Count(Cleared(s.tables, cleared).rows, cleared) == 0
    ensures Sound(Cleared(s.tables, cleared)) && CountsBound(Apply(s, Clear(cleared)), streams)
  {
    var t := Cleared(s.tables, cleared);
    assert Of(t.rows, cleared) == {};
    forall stream | stream in streams && stream.Key() in Apply(s, Clear(cleared)).counts
      ensures Count(t.rows, stream) <= Apply(s, Clear(cleared)).counts[stream.Key()]
    {
      FewerRows(t.rows, s.tables.rows, stream);
    }
  }

  /** Every operation does to the tables what it would do without the cache, and keeps the cache
      an upper bound. */
  lemma ApplyIsPlain(s: Store, op: Op, streams: set<Stream>)
    requires Sound(s.tables) && CountsBound(s, streams) && Apart(streams) && op.Streams() <= streams
    ensures Apply(s, op).tables == Plain(s.tables, op)
    ensures Sound(Apply(s, op).tables) && CountsBound(Apply(s, op), streams)
  {
    match op
    case Append(e, now) => CachedAppendIsPlain(s, e, now, streams);
    case Ingest(es, now) =>
      if AppendThenPrune(s.tables, es, now).Ok? { AppendThenPruneIsSound(s.tables, es, now); }
    case Prune(now) => FewerSound(s.tables, Apply(s, op).tables);
    case Export(e, now) =>
      if AppendThenPrune(s.tables, [e], now).Ok? { AppendThenPruneIsSound(s.tables, [e], now); }
    case Clear(stream) => ClearLeavesTheRest(s, stream, streams);
    case AcknowledgeCleared(host, ids) =>
    case Restart =>
  }

  // ---- whole runs ----

  /** Operations after one another, without the cache. */
  function PlainRun(t: Tables, ops: seq<Op>): Tables {
    if ops == [] then t else Plain(PlainRun(t, ops[..|ops| - 1]), ops[|ops| - 1])
  }

  function Run(s: Store, ops: seq<Op>): Store {
    if ops == [] then s else Apply(Run(s, ops[..|ops| - 1]), ops[|ops| - 1])
  }

  /** Whether a completed operation pruned the stream. */
  predicate Touches(t: Tables, op: Op, stream: Stream) {
    match op
    case Append(e, _) => e.stream == stream && AppendEvent(t, e).Ok?
    case Ingest(es, now) => AppendThenPrune(t, es, now).Ok?
    case Prune(_) => true
    case Export(e, now) => AppendThenPrune(t, [e], now).Ok?
    case Clear(cleared) => cleared == stream
    case _ => false
  }

  predicate Touched(t: Tables, ops: seq<Op>, stream: Stream) {
    && ops != []
    && var before := ops[..|ops| - 1];
       Touched(t, before, stream) || Touches(PlainRun(t, before), ops[|ops| - 1], stream)
  }

  lemma TouchBounds(t: Tables, op: Op, stream: Stream)
    requires Sound(t)
    ensures Sound(Plain(t, op))
    ensures Touches(t, op, stream) ==> Count(Plain(t, op).rows, stream) <= LIMIT
    ensures !Touches(t, op, stream) ==> Count(Plain(t, op).rows, stream) <= Count(t.rows, stream)
  {
    match op
    case Append(e, now) =>
      if AppendEvent(t, e).Ok? {
        AppendKeepsSound(t, e);
        AppendCountsOne(t, e, stream);
        PruneOneIsLocal(AppendEvent(t, e).value, e.stream, now, stream);
        FewerSound(AppendEvent(t, e).value, Plain(t, op));
      }
    case Ingest(es, now) =>
      if AppendThenPrune(t, es, now).Ok? { AppendThenPruneIsSound(t, es, now); }
    case Prune(now) => FewerSound(t, Plain(t, op)); PruneAllBounds(t, now, stream);
    case Export(e, now) =>
      if AppendThenPrune(t, [e], now).Ok? { AppendThenPruneIsSound(t, [e], now); }
    case Clear(cleared) =>
      FewerRows(Cleared(t, cleared).rows, t.rows, stream);
      assert Of(Cleared(t, cleared).rows, cleared) == {};
    case AcknowledgeCleared(host, ids) =>
    case Restart =>
  }

  /** From any tables and an empty cache, every sequence of operations on streams with different keys
      leaves the tables that cacheless operations leave. */
  lemma {:induction false} CacheRefinesCounting(t: Tables, ops: seq<Op>, streams: set<Stream>)
    requires Sound(t) && Over(ops, streams) && Apart(streams)
    ensures Run(Store(t, map[]), ops).tables == PlainRun(t, ops)
    ensures Sound(PlainRun(t, ops)) && CountsBound(Run(Store(t, map[]), ops), streams)
  {
    if ops != [] {
      CacheRefinesCounting(t, ops[..|ops| - 1], streams);
      ApplyIsPlain(Run(Store(t, map[]), ops[..|ops| - 1]), ops[|ops| - 1], streams);
    }
  }

  /** No stream an operation has touched is ever over the limit again. */
  lemma TouchedStreamsStayBounded(t: Tables, ops: seq<Op>, streams: set<Stream>, stream: Stream)
    requires Sound(t) && Touched(t, ops, stream) && Over(ops, streams) && Apart(streams)
    ensures Count(Run(Store(t, map[]), ops).tables.rows, stream) <= LIMIT
  {
    CacheRefinesCounting(t, ops, streams);
    TouchedPlain(t, ops, stream);
  }

  lemma {:induction false} TouchedPlain(t: Tables, ops: seq<Op>, stream: Stream)
    requires Sound(t)
    ensures Sound(PlainRun(t, ops))
    ensures Touched(t, ops, stream) ==> Count(PlainRun(t, ops).rows, stream) <= LIMIT
  {
    if ops != [] {
      var before := ops[..|ops| - 1];
      TouchedPlain(t, before, stream);
      TouchBounds(PlainRun(t, before), ops[|ops| - 1], stream);
    }
  }

  // ---- streams whose keys are the same ----

  const EMPTY := Tables({}, map[], 0)

  function Nth(stream: Stream, i: nat): Event {
    Event(i, stream, 0, 0)
  }

  function FilledRows(stream: Stream, n: nat): set<Row> {
    set i: nat | i < n :: Row(i, Nth(stream, i))
  }

  function Filled(stream: Stream, n: nat): Tables {
    Tables(FilledRows(stream, n), map[], n)
  }

  function Fill(stream: Stream, n: nat): seq<Op> {
    seq(n, i requires 0 <= i < n => Append(Nth(stream, i), 0))
  }

  lemma {:induction false} FilledCount(stream: Stream, n: nat)
    ensures |FilledRows(stream, n)| == n && Of(FilledRows(stream, n), stream) == FilledRows(stream, n)
    ensures forall i: nat :: i in Ids(FilledRows(stream, n)) <==> i < n
  {
    if n > 0 {
      FilledCount(stream, n - 1);
      assert FilledRows(stream, n) == FilledRows(stream, n - 1) + {Row(n - 1, Nth(stream, n - 1))};
    }
    forall i: nat | i < n ensures i in Ids(FilledRows(stream, n)) {
      assert Row(i, Nth(stream, i)) in FilledRows(stream, n);
    }
  }

  /** One more recent event, in a stream within the limit, is simply added. */
  lemma AppendsOne(t: Tables, e: Event)
    requires e.id !in Ids(t.rows) && e.occurredAt == 0 && Count(t.rows, e.stream) < LIMIT
    requires forall r | r in t.rows :: r.event.occurredAt == 0
    ensures Plain(t, Append(e, 0)) == t.(rows := t.rows + {Row(t.nextRow, e)}, nextRow := t.nextRow + 1)
  {
    var added := Row(t.nextRow, e);
    var rows := t.rows + {added};
    assert Of(rows, e.stream) == Of(t.rows, e.stream) + {added};
    assert DropExpiredOf(rows, e.stream, 0 - RETENTION) == rows;
    NoOverflow(rows, e.stream);
  }

  lemma FilledNext(stream: Stream, n: nat)
    ensures FilledRows(stream, n + 1) == FilledRows(stream, n) + {Row(n, Nth(stream, n))}
    ensures Fill(stream, n + 1) == Fill(stream, n) + [Append(Nth(stream, n), 0)]
  {}

  lemma OneMorePlain(t: Tables, ops: seq<Op>, op: Op)
    ensures PlainRun(t, ops + [op]) == Plain(PlainRun(t, ops), op)
  {
    assert (ops + [op])[..|ops|] == ops;
  }

  lemma FillsOne(stream: Stream, n: nat)
    requires n < LIMIT
    ensures Plain(Filled(stream, n), Append(Nth(stream, n), 0)) == Filled(stream, n + 1)
  {
    FilledCount(stream, n);
    FilledNext(stream, n);
    AppendsOne(Filled(stream, n), Nth(stream, n));
  }

  lemma {:induction false} FillRun(stream: Stream, n: nat)
    requires n <= LIMIT
    ensures PlainRun(EMPTY, Fill(stream, n)) == Filled(stream, n)
  {
    if n > 0 {
      FillRun(stream, n - 1);
      FilledNext(stream, n - 1);
      OneMorePlain(EMPTY, Fill(stream, n - 1), Append(Nth(stream, n - 1), 0));
      FillsOne(stream, n - 1);
    }
  }

  /** Fill one stream to the limit, clear the other, add one more event to the first. */
  function OverfillingRun(a: Stream, b: Stream): seq<Op> {
    Fill(a, LIMIT) + [Clear(b)] + [Append(Nth(a, LIMIT), 0)]
  }

  lemma Overfills(s: Store, a: Stream, b: Stream)
    requires s.tables == Filled(a, LIMIT) && a != b && a.Key() == b.Key()
    ensures var r := Apply(Apply(s, Clear(b)), Append(Nth(a, LIMIT), 0)); Count(r.tables.rows, a) == LIMIT + 1
  {
    FilledCount(a, LIMIT);
    var c := Apply(s, Clear(b));
    assert Of(s.tables.rows, b) == {} && c.tables.rows == s.tables.rows;
    assert c.counts[a.Key()] == 0 && Nth(a, LIMIT).id !in Ids(c.tables.rows);
    var rows, added := c.tables.rows, Row(LIMIT, Nth(a, LIMIT));
    assert DropExpiredOf(rows + {added}, a, 0 - RETENTION) == rows + {added};
    assert Of(rows + {added}, a) == rows + {added};
  }

  lemma TwoMore(s: Store, t: Tables, ops: seq<Op>, x: Op, y: Op)
    ensures Run(s, ops + [x] + [y]) == Apply(Apply(Run(s, ops), x), y)
    ensures PlainRun(t, ops + [x] + [y]) == Plain(Plain(PlainRun(t, ops), x), y)
  {
    assert (ops + [x] + [y])[..|ops| + 1] == ops + [x] && (ops + [x])[..|ops|] == ops;
  }

  lemma PlainStaysBounded(t: Tables, a: Stream, b: Stream)
    requires t == Filled(a, LIMIT) && a != b
    ensures Count(Plain(Plain(t, Clear(b)), Append(Nth(a, LIMIT), 0)).rows, a) <= LIMIT
  {
    FilledCount(a, LIMIT);
    assert Of(t.rows, b) == {} && Plain(t, Clear(b)).rows == t.rows;
    TouchBounds(Plain(t, Clear(b)), Append(Nth(a, LIMIT), 0), a);
  }

  /** Two different streams that share a key can be driven over the limit: when one is cleared the
      cache forgets that the other is full. */
  lemma SharedKeysBreakTheBound(a: Stream, b: Stream)
    requires a != b && a.Key() == b.Key()
    ensures Count(Run(Store(EMPTY, map[]), OverfillingRun(a, b)).tables.rows, a) == LIMIT + 1
    ensures Count(PlainRun(EMPTY, OverfillingRun(a, b)).rows, a) <= LIMIT
  {
    var fill := Fill(a, LIMIT);
    FillRun(a, LIMIT);
    CacheRefinesCounting(EMPTY, fill, {a});
    TwoMore(Store(EMPTY, map[]), EMPTY, fill, Clear(b), Append(Nth(a, LIMIT), 0));
    Overfills(Run(Store(EMPTY, map[]), fill), a, b);
    PlainStaysBounded(PlainRun(EMPTY, fill), a, b);
  }

  /** The cache is safe for a set of streams exactly when their keys are all different. */
  lemma CacheIsSafeExactlyForDifferentKeys(streams: set<Stream>)
    ensures Apart(streams) <==>
            forall ops | Over(ops, streams) :: Run(Store(EMPTY, map[]), ops).tables == PlainRun(EMPTY, ops)
  {
    if Apart(streams) {
      forall ops | Over(ops, streams)
        ensures Run(Store(EMPTY, map[]), ops).tables == PlainRun(EMPTY, ops)
      {
        CacheRefinesCounting(EMPTY, ops, streams);
      }
    } else {
      var a, b :| a in streams && b in streams && a.Key() == b.Key() && a != b;
      SharedKeysBreakTheBound(a, b);
      assert Over(OverfillingRun(a, b), streams);
    }
  }

  /** Streams of hosts whose ids have no NUL have different keys; in general keys can be shared. */
  lemma NulFreeHostsAreApart(streams: set<Stream>)
    requires forall stream | stream in streams :: stream.Proper()
    ensures Apart(streams)
    ensures !Apart({Stream("a\0b", "c"), Stream("a", "b\0c")})
  {
    forall a, b | a in streams && b in streams && a.Key() == b.Key() ensures a == b {
      JoinIsInjective(a.host, a.profile, b.host, b.profile);
    }
    NulMakesKeysCollide();
    assert Stream("a\0b", "c").Key() == Stream("a", "b\0c").Key();
  }
}
