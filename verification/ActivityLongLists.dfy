/** A host of which the plugin knows more than 10000 ids refuses every sync. */
module ActivityLongLists {
  import opened ActivityRecords
  import opened ActivityCounts
  import opened ActivityOutbox
  import opened ActivitySync
  import opened ActivityRuns

  ghost predicate TooLong(w: World) {
    |KnownTo(w.tables, w.host)| > LIMIT
  }

  /** Every sync of the path begins while the plugin knows too many ids. */
  ghost predicate StartsTooLong(w: World, actions: seq<Action>)
    requires Path(w, actions)
  {
    actions != [] ==>
      && StartsTooLong(w, actions[..|actions| - 1])
      && (actions[|actions| - 1].Start? ==> TooLong(After(w, actions[..|actions| - 1])))
  }

  /** No sync runs, or one whose first call the host will refuse. */
  predicate Stalled(w: World) {
    w.phase.Idle? || (w.phase.Reconciling? && |w.phase.acked| > LIMIT)
  }

  lemma StalledStep(w: World, a: Action)
    requires Enabled(w, a) && Stalled(w) && (a.Start? ==> TooLong(w))
    ensures var u := Next(w, a); Stalled(u) && w.outbox <= u.outbox && u.recorded == w.recorded
  {
    match a
    case Enqueue(e, now) =>
    case _ =>
  }

  /** As long as the plugin knows too many of the host's ids whenever a sync begins, nothing leaves
      the host's outbox and nothing more of it is recorded, whatever else happens and however often
      syncs are tried. */
  lemma {:induction false} LongListsStallTheHost(w: World, actions: seq<Action>)
    requires w.phase.Idle? && Path(w, actions) && StartsTooLong(w, actions)
    ensures w.outbox <= After(w, actions).outbox && After(w, actions).recorded == w.recorded
    ensures Stalled(After(w, actions))
  {
    if actions != [] {
      var front := actions[..|actions| - 1];
      LongListsStallTheHost(w, front);
      StalledStep(After(w, front), actions[|actions| - 1]);
    }
  }

  // ---- such a host exists ----

  function NewHost(host: HostId): World {
    World(host, [], EMPTY, Idle, map[], {}, {}, {}, {}, {})
  }

  /** The host after such tables were filled elsewhere. */
  function Recorded(host: HostId, t: Tables): World {
    NewHost(host).(tables := t, foreign := Ids(t.rows))
  }

  function FillElsewhere(stream: Stream, n: nat): seq<Action> {
    seq(n, i requires 0 <= i < n => Elsewhere(Append(Nth(stream, i), 0)))
  }

  /** An append elsewhere to a stream with room. */
  lemma AppendsElsewhere(w: World, e: Event)
    requires w.sent == map[] && e.id !in Ids(w.tables.rows) && e.occurredAt == 0
    requires Count(w.tables.rows, e.stream) < LIMIT
    requires forall r | r in w.tables.rows :: r.event.occurredAt == 0
    ensures var t := w.tables; var a := Elsewhere(Append(e, 0));
      && Enabled(w, a)
      && Next(w, a) == w.(tables := t.(rows := t.rows + {Row(t.nextRow, e)}, nextRow := t.nextRow + 1),
                          foreign := w.foreign + {e.id})
  {
    AppendsOne(w.tables, e);
    var a := Elsewhere(Append(e, 0));
    assert w.pruned + {} == w.pruned;
  }

  /** The host after n events of the stream were recorded elsewhere. */
  function FilledHost(host: HostId, stream: Stream, n: nat): World {
    Recorded(host, Filled(stream, n))
  }

  lemma MoreIds(rows: set<Row>, r: Row)
    ensures Ids(rows + {r}) == Ids(rows) + {r.event.id}
  {
    assert r in rows + {r};
    forall x | x in rows ensures x.event.id in Ids(rows + {r}) { assert x in rows + {r}; }
  }

  lemma FilledNextIds(stream: Stream, n: nat)
    ensures Ids(FilledRows(stream, n + 1)) == Ids(FilledRows(stream, n)) + {n}
    ensures n !in Ids(FilledRows(stream, n))
  {
    FilledCount(stream, n);
    FilledNext(stream, n);
    MoreIds(FilledRows(stream, n), Row(n, Nth(stream, n)));
  }

  lemma FillsOneMore(host: HostId, stream: Stream, n: nat)
    requires n < LIMIT
    ensures var w, a := FilledHost(host, stream, n), Elsewhere(Append(Nth(stream, n), 0));
      Enabled(w, a) && Next(w, a) == FilledHost(host, stream, n + 1)
  {
    FilledCount(stream, n);
    FilledNext(stream, n);
    FilledNextIds(stream, n);
    AppendsElsewhere(FilledHost(host, stream, n), Nth(stream, n));
  }

  lemma OneMoreElsewhere(stream: Stream, n: nat)
    ensures FillElsewhere(stream, n + 1) == FillElsewhere(stream, n) + [Elsewhere(Append(Nth(stream, n), 0))]
  {}

  lemma {:induction false} FillsElsewhere(host: HostId, stream: Stream, n: nat)
    requires n <= LIMIT
    ensures Path(NewHost(host), FillElsewhere(stream, n))
    ensures After(NewHost(host), FillElsewhere(stream, n)) == FilledHost(host, stream, n)
  {
    if n == 0 {
      assert FilledRows(stream, 0) == {};
    } else {
      FillsElsewhere(host, stream, n - 1);
      FillsOneMore(host, stream, n - 1);
      OneMoreStep(NewHost(host), FillElsewhere(stream, n - 1), Elsewhere(Append(Nth(stream, n - 1), 0)));
      OneMoreElsewhere(stream, n - 1);
    }
  }

  /** One full stream, one row of another stream of the same host. */
  function OneTooMany(host: HostId): Tables {
    var a, b := Stream(host, "a"), Stream(host, "b");
    Tables(FilledRows(a, LIMIT) + {Row(LIMIT, Nth(b, LIMIT))}, map[], LIMIT + 1)
  }

  lemma {:induction false} FilledIds(stream: Stream, n: nat)
    ensures |Ids(FilledRows(stream, n))| == n
  {
    if n == 0 {
      assert Ids(FilledRows(stream, 0)) == {};
    } else {
      FilledIds(stream, n - 1);
      FilledNextIds(stream, n - 1);
    }
  }

  lemma OneTooManyIds(host: HostId)
    ensures Ids(OneTooMany(host).rows) == Ids(FilledRows(Stream(host, "a"), LIMIT)) + {LIMIT}
    ensures LIMIT !in Ids(FilledRows(Stream(host, "a"), LIMIT))
    ensures LIMIT + 1 !in Ids(OneTooMany(host).rows)
  {
    FilledCount(Stream(host, "a"), LIMIT);
    MoreIds(FilledRows(Stream(host, "a"), LIMIT), Row(LIMIT, Nth(Stream(host, "b"), LIMIT)));
  }

  lemma OneTooManyIsKnown(host: HostId)
    ensures |KnownTo(OneTooMany(host), host)| == LIMIT + 1
  {
    OneTooManyIds(host);
    FilledIds(Stream(host, "a"), LIMIT);
    var rows, known := OneTooMany(host).rows, KnownTo(OneTooMany(host), host);
    forall id | id in Ids(rows) ensures id in known {
      var r :| r in rows && r.event.id == id;
      assert r.event.stream.host == host;
    }
    assert known == Ids(rows);
  }

  lemma OverflowsElsewhere(host: HostId)
    ensures var w, step := FilledHost(host, Stream(host, "a"), LIMIT),
                           Elsewhere(Append(Nth(Stream(host, "b"), LIMIT), 0));
      Enabled(w, step) && Next(w, step) == Recorded(host, OneTooMany(host))
  {
    var a, b := Stream(host, "a"), Stream(host, "b");
    FilledCount(a, LIMIT);
    OneTooManyIds(host);
    assert Of(FilledRows(a, LIMIT), b) == {};
    AppendsElsewhere(FilledHost(host, a, LIMIT), Nth(b, LIMIT));
  }

  lemma ReachesOneTooMany(host: HostId) returns (actions: seq<Action>)
    ensures Path(NewHost(host), actions) && After(NewHost(host), actions) == Recorded(host, OneTooMany(host))
  {
    var fill, last := FillElsewhere(Stream(host, "a"), LIMIT), Elsewhere(Append(Nth(Stream(host, "b"), LIMIT), 0));
    FillsElsewhere(host, Stream(host, "a"), LIMIT);
    OverflowsElsewhere(host);
    OneMoreStep(NewHost(host), fill, last);
    return fill + [last];
  }

  /** Then an event is enqueued. */
  function Overloaded(host: HostId, e: Event): World {
    Recorded(host, OneTooMany(host)).(outbox := [Item(e, 0, 0)], sent := map[e.id := e])
  }

  lemma Enqueues(w: World, e: Event)
    requires w.outbox == [] && w.sent == map[] && e.stream.host == w.host && e.id !in w.foreign
    ensures Enabled(w, Action.Enqueue(e, 0))
    ensures Next(w, Action.Enqueue(e, 0)) == w.(outbox := [Item(e, 0, 0)], sent := map[e.id := e])
  {}

  /** For every host a run leads to a world in which an event waits in its outbox and the plugin
      knows 10001 of its ids, although no stream is over its limit. */
  lemma LongListsAreReachable(host: HostId, e: Event)
    requires e.stream.host == host && e.id == LIMIT + 1
    ensures var w := Overloaded(host, e);
      && Reachable(w) && w.host == host && w.phase.Idle? && w.outbox != []
      && |KnownTo(w.tables, host)| == LIMIT + 1
      && forall stream :: Count(w.tables.rows, stream) <= LIMIT
  {
    OverloadedIsReachable(host, e);
    OneTooManyIsKnown(host);
    forall stream ensures Count(OneTooMany(host).rows, stream) <= LIMIT { StreamsHaveRoom(host, stream); }
  }

  lemma OverloadedIsReachable(host: HostId, e: Event)
    requires e.stream.host == host && e.id == LIMIT + 1
    ensures Reachable(Overloaded(host, e))
  {
    var actions := ReachesOneTooMany(host);
    OneTooManyIds(host);
    Enqueues(Recorded(host, OneTooMany(host)), e);
    OneMoreStep(NewHost(host), actions, Action.Enqueue(e, 0));
    assert After(NewHost(host), actions + [Action.Enqueue(e, 0)]) == Overloaded(host, e);
  }

  lemma StreamsHaveRoom(host: HostId, stream: Stream)
    ensures Count(OneTooMany(host).rows, stream) <= LIMIT
  {
    var a, b := Stream(host, "a"), Stream(host, "b");
    FilledCount(a, LIMIT);
    var rows := OneTooMany(host).rows;
    if stream == a {
      assert Of(rows, a) == FilledRows(a, LIMIT);
    } else {
      Smaller(Of(rows, stream), {Row(LIMIT, Nth(b, LIMIT))});
    }
  }
}
