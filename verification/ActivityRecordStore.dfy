/** The record store as the plugin keeps it: SQL tables changed in place inside transactions, and
    the map of cached counts beside them. */
module ActivityRecordStore {
  import opened Wrappers
  import opened ActivityRecords
  import opened ActivityCounts

  class RecordStore {
    var rows: set<Row>
    var tombstones: map<EventId, Stream>
    var nextRow: nat
    var recordCounts: map<string, nat>
    ghost const streams: set<Stream>  // those the store appends to and clears

    function Database(): Tables
      reads this
    {
      Tables(rows, tombstones, nextRow)
    }

    ghost function Model(): Store
      reads this
    {
      Store(Database(), recordCounts)
    }

    ghost predicate Valid()
      reads this
    {
      Sound(Database()) && Apart(streams) && CountsBound(Model(), streams)
    }

    /** A restarted plugin: the tables survive, the cache does not. */
    constructor (database: Tables, ghost used: set<Stream>)
      requires Sound(database)
      ensures Model() == Store(database, map[]) && streams == used && (Apart(used) ==> Valid())
    {
      streams := used;
      rows, tombstones, nextRow := database.rows, database.tombstones, database.nextRow;
      recordCounts := map[];
    }

    method FindRecord(id: EventId) returns (found: Option<Row>)
      requires Sound(Database())
      ensures found.None? == (id !in Ids(rows))
      ensures found.Some? ==> found.value in rows && found.value.event.id == id
    {
      if id !in Ids(rows) { return None; }
      var r :| r in rows && r.event.id == id;
      return Some(r);
    }

    method AppendEvent(e: Event) returns (record: Result<Row, EventId>, inserted: bool)
      requires Sound(Database())
      modifies this`rows, this`nextRow
      ensures var spec := ActivityRecords.AppendEvent(old(Database()), e);
              && record.Ok? == spec.Ok?
              && Database() == (if spec.Ok? then spec.value else old(Database()))
              && (spec.Ok? ==> Sound(Database()) && record.value in rows && record.value.event == e)
      ensures inserted == (e.id !in old(Ids(rows)))
    {
      var existing := FindRecord(e.id);
      if existing.Some? {
        if existing.value.event != e { return Err(e.id), false; }
        return Ok(existing.value), false;
      }
      AppendKeepsSound(Database(), e);
      var added := Row(nextRow, e);
      rows, nextRow := rows + {added}, nextRow + 1;
      return Ok(added), true;
    }

    method StreamCount(stream: Stream) returns (count: nat)
      ensures count == Count(rows, stream)
    {
      return Count(rows, stream);
    }

    method PruneStream(stream: Stream, now: int, known: nat)
      modifies this`rows
      ensures rows == PruneKnown(old(rows), stream, now, known)
    {
      rows := DropExpiredOf(rows, stream, now - RETENTION);
      if known > LIMIT { rows := DropOverflowOf(rows, stream); }
    }

    method PruneStreams(now: int)
      modifies this`rows
      ensures rows == PruneAll(old(rows), now)
    {
      rows := DropExpired(rows, now - RETENTION);
      rows := DropOverflow(rows);
    }

    /** The cache decides whether to delete. On streams with different keys the rows are those of an
        append that always counts. */
    method Append(e: Event, now: int) returns (record: Result<Row, EventId>)
      requires Sound(Database())
      modifies this
      ensures Model() == Apply(old(Model()), Op.Append(e, now))
      ensures old(Valid()) && e.stream in streams ==>
                Valid() && Database() == Plain(old(Database()), Op.Append(e, now))
      ensures record.Err? <==> e.id in old(Ids(rows)) && e !in old(Events(rows))
    {
      if Valid() && e.stream in streams { ApplyIsPlain(Model(), Op.Append(e, now), streams); }
      record := AppendNow(e, now);
    }

    method AppendNow(e: Event, now: int) returns (record: Result<Row, EventId>)
      requires Sound(Database())
      modifies this
      ensures Model() == AppendCached(old(Model()), e, now)
      ensures record.Err? <==> e.id in old(Ids(rows)) && e !in old(Events(rows))
    {
      var previous: nat;
      if e.stream.Key() in recordCounts {
        previous := recordCounts[e.stream.Key()];
      } else {
        previous := StreamCount(e.stream);
      }
      var inserted: bool;
      record, inserted := AppendEvent(e);
      if record.Err? { return; }
      var next := previous + if inserted then 1 else 0;
      PruneStream(e.stream, now, next);
      recordCounts := recordCounts[e.stream.Key() := if next < LIMIT then next else LIMIT];
    }

    /** All of a batch or nothing: a conflict rolls the transaction back. */
    method AppendBatch(es: seq<Event>) returns (refused: Option<EventId>)
      requires Sound(Database())
      modifies this`rows, this`nextRow
      ensures var spec := AppendAll(old(Database()), es);
              && refused.None? == spec.Ok?
              && Database() == (if spec.Ok? then spec.value else old(Database()))
      ensures Sound(Database())
    {
      var saved := Database();
      for i := 0 to |es|
        invariant AppendAll(saved, es[..i]) == Ok(Database()) && Sound(Database())
      {
        var record, _ := AppendEvent(es[i]);
        assert es[..i + 1][..i] == es[..i] && es[..i + 1][i] == es[i];
        if record.Err? {
          RefusedStaysRefused(saved, es, i + 1);
          rows, nextRow := saved.rows, saved.nextRow;
          return Some(record.error);
        }
      }
      assert es[..|es|] == es;
      return None;
    }

    method Ingest(es: seq<Event>, now: int) returns (ids: Result<seq<EventId>, EventId>)
      requires Valid()
      modifies this
      ensures Valid() && Model() == Apply(old(Model()), Op.Ingest(es, now))
      ensures ids.Ok? == AppendAll(old(Database()), es).Ok?
      ensures ids.Ok? ==> ids.value == seq(|es|, i requires 0 <= i < |es| => es[i].id)
    {
      ApplyIsPlain(Model(), Op.Ingest(es, now), streams);
      var refused := AppendBatch(es);
      if refused.Some? { return Err(refused.value); }
      PruneStreams(now);
      recordCounts := map[];
      return Ok(seq(|es|, i requires 0 <= i < |es| => es[i].id));
    }

    method Prune(now: int)
      requires Valid()
      modifies this
      ensures Valid() && Model() == Apply(old(Model()), Op.Prune(now))
    {
      ApplyIsPlain(Model(), Op.Prune(now), streams);
      PruneStreams(now);
      recordCounts := map[];
    }

    /** The rows of a stream, oldest first. */
    method Select(stream: Stream) returns (records: seq<Row>)
      requires Sound(Database())
      ensures Chronological(records, Of(rows, stream))
    {
      var rest := Of(rows, stream);
      ghost var all := rest;
      records := [];
      while rest != {}
        invariant Selected(records, rest, all, stream)
        decreases |rest|
      {
        HasEarliest(rest, stream);
        var next :| Earliest(next, rest);
        SelectedNext(records, rest, all, stream, next);
        records, rest := records + [next], rest - {next};
      }
      assert all - {} == all;
    }

    /** Only rows still retained and within the limit are shown. */
    method List(stream: Stream, now: int) returns (records: seq<Row>)
      requires Valid()
      modifies this
      ensures Valid() && Model() == Apply(old(Model()), Op.Prune(now))
      ensures Chronological(records, Of(rows, stream)) && |records| <= LIMIT
      ensures forall r | r in records :: r in old(rows) && r.event.occurredAt >= now - RETENTION
    {
      PruneAllBounds(Database(), now, stream);
      Prune(now);
      records := Select(stream);
      ChronologicalCount(records, Of(rows, stream));
      assert forall r | r in records :: r in Of(rows, stream);
    }

    method Export(e: Event, now: int) returns (records: Result<seq<Row>, EventId>)
      requires Valid()
      modifies this
      ensures Valid() && Model() == Apply(old(Model()), Op.Export(e, now))
      ensures records.Ok? ==> Chronological(records.value, Of(rows, e.stream))
    {
      ApplyIsPlain(Model(), Op.Export(e, now), streams);
      var refused := AppendBatch([e]);
      if refused.Some? { return Err(refused.value); }
      PruneStreams(now);
      recordCounts := map[];
      var selected := Select(e.stream);
      return Ok(selected);
    }

    method Clear(stream: Stream) returns (cleared: nat)
      requires Sound(Database())
      modifies this
      ensures Model() == Apply(old(Model()), Op.Clear(stream))
      ensures old(Valid()) && stream in streams ==> Valid()
      ensures cleared == Count(old(rows), stream) && Count(rows, stream) == 0
      ensures forall r | r in old(rows) && r.event.stream == stream :: r.event.id in tombstones
    {
      if Valid() && stream in streams { ApplyIsPlain(Model(), Op.Clear(stream), streams); }
      var gone := Of(rows, stream);
      var ids := Ids(gone);
      tombstones := map id | id in tombstones.Keys + ids ::
                      if id in tombstones then tombstones[id] else stream;
      rows := rows - gone;
      recordCounts := recordCounts[stream.Key() := 0];
      assert forall r | r in gone :: r.event.id in ids;
      assert Of(rows, stream) == {};
      return |gone|;
    }

    method AcknowledgeClearedEvents(host: HostId, ids: set<EventId>)
      requires Valid()
      modifies this
      ensures Valid() && Model() == Apply(old(Model()), AcknowledgeCleared(host, ids))
    {
      tombstones := map id | id in tombstones && !(tombstones[id].host == host && id in ids) ::
                      tombstones[id];
    }

    method EventIds(host: HostId) returns (ids: set<EventId>)
      ensures ids == KnownTo(Database(), host)
    {
      return KnownTo(Database(), host);
    }
  }

  /** The records are exactly the rows, by time and then by the order of insertion. */
  ghost predicate Chronological(records: seq<Row>, rows: set<Row>) {
    && (forall r :: r in records <==> r in rows)
    && forall i, j | 0 <= i < j < |records| :: Outranks(records[j], records[i])
  }

  predicate Earliest(r: Row, rows: set<Row>) {
    r in rows && forall x | x in rows && x != r :: Outranks(x, r)
  }

  lemma HasEarliest(rows: set<Row>, stream: Stream)
    requires rows != {} && OneStream(rows, stream)
    ensures exists r :: Earliest(r, rows)
  {
    var last := LastRow(rows, stream);
    forall x | x in rows && x != last ensures Outranks(x, last) { assert x in Ahead(rows, last); }
    assert Earliest(last, rows);
  }

  /** The records have been taken from all rows, and the rest come after them. */
  ghost predicate Selected(records: seq<Row>, rest: set<Row>, all: set<Row>, stream: Stream) {
    && rest <= all && OneStream(all, stream) && Chronological(records, all - rest)
    && forall i, r | 0 <= i < |records| && r in rest :: Outranks(r, records[i])
  }

  lemma SelectedNext(records: seq<Row>, rest: set<Row>, all: set<Row>, stream: Stream, next: Row)
    requires Selected(records, rest, all, stream) && Earliest(next, rest)
    ensures Selected(records + [next], rest - {next}, all, stream)
  {
    assert all - (rest - {next}) == (all - rest) + {next};
  }

  lemma {:induction false} ChronologicalCount(records: seq<Row>, rows: set<Row>)
    requires Chronological(records, rows)
    ensures |records| == |rows|
  {
    if records == [] {
      assert rows == {};
    } else {
      var front, last := records[..|records| - 1], records[|records| - 1];
      assert records == front + [last];
      assert last !in front;
      ChronologicalCount(front, rows - {last});
      assert last in records;
    }
  }

  lemma {:induction false} RefusedStaysRefused(t: Tables, es: seq<Event>, i: nat)
    requires i <= |es| && AppendAll(t, es[..i]).Err?
    ensures AppendAll(t, es).Err?
    decreases |es| - i
  {
    if i == |es| {
      assert es[..i] == es;
    } else {
      assert es[..i + 1][..i] == es[..i];
      RefusedStaysRefused(t, es, i + 1);
    }
  }
}
