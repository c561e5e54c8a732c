/** pendingCreations counts exactly the creations in flight, and nothing stays held without one. */
module ProxyCounting {
  import opened Wrappers
  import opened ProxyModel
  import opened ProxyHolds
  import opened ProxyWorld

  /** Target.createTarget commands in flight over the first n connections. */
  function InFlight(conns: seq<Conn>, n: nat): nat
    requires n <= |conns|
  {
    if n == 0 then 0 else InFlight(conns, n - 1) + |Creating(conns[n - 1])|
  }

  predicate IdsBelow(c: Conn) {
    forall id | id in c.inflight :: id < c.nextId
  }

  predicate NothingHeld(c: Conn) {
    c.held == map[] && c.heldSessions == map[]
  }

  ghost predicate Tidy(c: Conn) {
    Kept(c) && IdsBelow(c)
  }

  ghost predicate AllTidy(conns: seq<Conn>) {
    forall i | 0 <= i < |conns| :: Tidy(conns[i])
  }

  predicate NoneHeld(conns: seq<Conn>) {
    forall i | 0 <= i < |conns| :: NothingHeld(conns[i])
  }

  ghost predicate Counted(w: World) {
    && w.own.pending == InFlight(w.conns, |w.conns|) + w.http
    && AllTidy(w.conns)
    && (w.own.pending == 0 ==> NoneHeld(w.conns))
  }

  /** From c to r no command that creates a target was sent or answered. */
  ghost predicate SameCreations(c: Conn, r: Conn) {
    (IdsBelow(c) ==> IdsBelow(r) && Creating(r) == Creating(c))
  }

  // ---- one connection ----

  lemma SentCreations(c: Conn, frame: UpstreamFrame, command: Inflight)
    requires IdsBelow(c)
    ensures IdsBelow(SendUpstream(c, frame, command))
    ensures Creating(SendUpstream(c, frame, command))
         == Creating(c) + (if command.CreatesTarget() then {c.nextId} else {})
  {
  }

  lemma ReleaseCreations(c: Conn, session: SessionId, via: Option<SessionId>)
    ensures SameCreations(c, ReleaseForeign(c, session, via))
  {
    if IdsBelow(c) {
      var own := Inflight(None, OtherMethod);
      var c1 := SendUpstream(c, Resume(session), own);
      SentCreations(c, Resume(session), own);
      SentCreations(c1, Detach(session, via), own);
    }
  }

  lemma {:induction false} ReleaseAllCreations(c: Conn, xs: seq<(SessionId, Option<SessionId>)>)
    ensures SameCreations(c, ReleaseAll(c, xs))
  {
    if xs != [] {
      var front := xs[..|xs| - 1];
      ReleaseAllCreations(c, front);
      ReleaseCreations(ReleaseAll(c, front), xs[|xs| - 1].0, xs[|xs| - 1].1);
    }
  }

  lemma AttachedCreations(s: Side, m: Message, session: SessionId, info: TargetInfo)
    ensures SameCreations(s.conn, AttachedEvent(s, m, session, info).conn)
  {
    ReleaseCreations(s.conn, session, m.via);
  }

  lemma BrowserLevelCreations(s: Side, m: Message)
    ensures SameCreations(s.conn, BrowserLevelEvent(s, m).conn)
  {
    if m.event.Attached? && m.event.session.Some? && m.event.info.Some? {
      AttachedCreations(s, m, m.event.session.value, m.event.info.value);
    }
  }

  lemma PageCreations(s: Side, m: Message, page: SessionId)
    requires m.event.IsTarget()
    ensures SameCreations(s.conn, PageEvent(s, m, page).conn)
  {}

  lemma HandleCreations(s: Side, m: Message)
    ensures SameCreations(s.conn, Handle(s, m).conn)
  {
    if m.via.None? || (m.via.value !in s.conn.heldSessions && m.via.value in s.conn.browsers) {
      BrowserLevelCreations(s, m);
    } else if m.event.IsTarget() {
      PageCreations(s, m, m.via.value);
    }
  }

  lemma {:induction false} ReplayCreations(s: Side, ms: seq<Message>)
    ensures SameCreations(s.conn, Replay(s, ms).conn)
  {
    if ms != [] {
      ReplayCreations(s, ms[..|ms| - 1]);
      HandleCreations(Replay(s, ms[..|ms| - 1]), ms[|ms| - 1]);
    }
  }

  lemma SettleOneCreations(s: Side, t: TargetId)
    ensures SameCreations(s.conn, SettleOne(s, t).conn)
  {
    if t in s.conn.held {
      ReplayCreations(s.(conn := Unhold(s.conn, t)), s.conn.held[t].messages);
      ReleaseAllCreations(Unhold(s.conn, t), s.conn.held[t].sessions);
    }
  }

  lemma {:induction false} SettleEachTidy(s: Side, ts: seq<TargetId>)
    requires Tidy(s.conn)
    ensures var r := SettleEach(s, ts);
      && Tidy(r.conn) && Creating(r.conn) == Creating(s.conn) && r.own.pending == s.own.pending
      && (s.own.pending == 0 ==> r.conn.held.Keys == s.conn.held.Keys - set t | t in ts)
  {
    if ts != [] {
      var front, t := ts[..|ts| - 1], ts[|ts| - 1];
      SettleEachTidy(s, front);
      SettleOneKept(SettleEach(s, front), t);
      SettleOneCreations(SettleEach(s, front), t);
      assert ts == front + [t];
    }
  }

  lemma EmptyHold(c: Conn)
    requires Kept(c) && c.held.Keys == {}
    ensures NothingHeld(c)
  {
    assert c.held == map[];
  }

  /** With no creation pending, settling empties the hold. */
  lemma SettleHeldTidy(s: Side)
    requires Tidy(s.conn)
    ensures var r := SettleHeld(s);
      && Tidy(r.conn) && Creating(r.conn) == Creating(s.conn) && r.own.pending == s.own.pending
      && (s.own.pending == 0 ==> NothingHeld(r.conn))
  {
    SettleEachTidy(s, s.conn.heldOrder);
    var r := SettleHeld(s);
    if s.own.pending == 0 {
      EmptyHold(r.conn);
    }
  }

  // ---- all connections ----

  lemma {:induction false} SumAgrees(cs: seq<Conn>, ds: seq<Conn>, n: nat)
    requires n <= |cs| && n <= |ds|
    requires forall i | 0 <= i < n :: |Creating(cs[i])| == |Creating(ds[i])|
    ensures InFlight(cs, n) == InFlight(ds, n)
  {
    if n > 0 { SumAgrees(cs, ds, n - 1); }
  }

  lemma {:induction false} SumUpdate(cs: seq<Conn>, i: nat, c: Conn, n: nat)
    requires i < |cs| && n <= |cs|
    ensures InFlight(cs[i := c], n)
         == InFlight(cs, n) + (if i < n then |Creating(c)| - |Creating(cs[i])| else 0)
  {
    if n > 0 { SumUpdate(cs, i, c, n - 1); }
  }

  lemma {:induction false} SumRemove(cs: seq<Conn>, i: nat, n: nat)
    requires i <= n < |cs|
    ensures InFlight(cs[..i] + cs[i + 1..], n) == InFlight(cs, n + 1) - |Creating(cs[i])|
  {
    var rest := cs[..i] + cs[i + 1..];
    if n == i {
      SumAgrees(rest, cs, i);
    } else {
      SumRemove(cs, i, n - 1);
      assert rest[n - 1] == cs[n];
    }
  }

  lemma {:induction false} SettleConnsTidy(w: World, n: nat)
    requires n <= |w.conns| && AllTidy(w.conns)
    ensures var r := SettleConns(w, n);
      && r.own.pending == w.own.pending && r.http == w.http
      && (forall i | 0 <= i < |w.conns| :: Tidy(r.conns[i]) && Creating(r.conns[i]) == Creating(w.conns[i]))
      && (w.own.pending == 0 ==> forall i | 0 <= i < n :: NothingHeld(r.conns[i]))
  {
    if n > 0 {
      SettleConnsTidy(w, n - 1);
      var before := SettleConns(w, n - 1);
      SettleHeldTidy(Side(before.own, before.conns[n - 1]));
    }
  }

  /** Crediting one creation keeps the count exact when it had counted that creation: the clamp at
      zero does not act. */
  lemma CreationFinishedCounts(w: World, created: Option<TargetId>)
    requires AllTidy(w.conns)
    requires w.own.pending == InFlight(w.conns, |w.conns|) + w.http + 1
    ensures Counted(CreationFinished(w, created))
    ensures CreationFinished(w, created).http == w.http
    ensures CreationFinished(w, created).own.pending == w.own.pending - 1
    ensures |CreationFinished(w, created).conns| == |w.conns|
    ensures forall i | 0 <= i < |w.conns| ::
      Creating(CreationFinished(w, created).conns[i]) == Creating(w.conns[i])
  {
    var credited := w.(own := CreditCreation(w.own, created));
    SettleConnsTidy(credited, |w.conns|);
    SumAgrees(w.conns, CreationFinished(w, created).conns, |w.conns|);
  }

  /** A closed connection's creations are abandoned one by one, each counted until then. */
  lemma {:induction false} AbandonCounts(w: World, n: nat)
    requires AllTidy(w.conns)
    requires w.own.pending == InFlight(w.conns, |w.conns|) + w.http + n
    requires n == 0 && w.own.pending == 0 ==> NoneHeld(w.conns)
    ensures var r := Abandon(w, n);
      && AllTidy(r.conns) && r.http == w.http
      && r.own.pending == w.own.pending - n && InFlight(r.conns, |r.conns|) == InFlight(w.conns, |w.conns|)
      && (n > 0 || r == w) && Counted(r)
  {
    if n > 0 { AbandonSteps(w, n, n); }
  }

  /** One more creation is given up, of n still counted. */
  lemma AbandonOne(w: World, n: nat)
    requires AllTidy(w.conns) && w.own.pending == InFlight(w.conns, |w.conns|) + w.http + n && n > 0
    ensures var r := CreationFinished(w, None);
      && AllTidy(r.conns) && r.http == w.http && r.own.pending == w.own.pending - 1
      && InFlight(r.conns, |r.conns|) == InFlight(w.conns, |w.conns|)
      && (r.own.pending == 0 ==> NoneHeld(r.conns))
  {
    SettleConnsTidy(w.(own := CreditCreation(w.own, None)), |w.conns|);
    SumAgrees(w.conns, CreationFinished(w, None).conns, |w.conns|);
  }

  lemma {:induction false} AbandonSteps(w: World, n: nat, k: nat)
    requires AllTidy(w.conns)
    requires w.own.pending == InFlight(w.conns, |w.conns|) + w.http + n && k <= n
    ensures var r := Abandon(w, k);
      && AllTidy(r.conns) && r.http == w.http
      && r.own.pending == w.own.pending - k && InFlight(r.conns, |r.conns|) == InFlight(w.conns, |w.conns|)
      && (k == n && n > 0 ==> Counted(r))
  {
    if k > 0 {
      AbandonSteps(w, n, k - 1);
      AbandonOne(Abandon(w, k - 1), n - (k - 1));
    }
  }

  // ---- every step ----

  lemma PutCounts(w: World, i: nat, s: Side)
    requires Counted(w) && i < |w.conns| && Tidy(s.conn)
    requires s.own.pending + |Creating(w.conns[i])| == w.own.pending + |Creating(s.conn)|
    requires s.own.pending == 0 ==> NothingHeld(s.conn) && w.own.pending == 0
    ensures Counted(Put(w, i, s))
  {
    SumUpdate(w.conns, i, s.conn, |w.conns|);
  }

  /** A command that goes upstream is counted exactly when it creates a target. */
  lemma RelayCreations(s: Side, id: int, session: Option<SessionId>, verb: Method, p: Params)
    requires Tidy(s.conn)
    ensures var r := Relay(s, id, session, verb, p);
      && Tidy(r.conn) && r.own.pending + |Creating(s.conn)| == s.own.pending + |Creating(r.conn)|
      && r.own.pending >= s.own.pending && r.conn.held == s.conn.held
      && r.conn.heldSessions == s.conn.heldSessions
  {
    var c := s.conn.(autoAttach := Relay(s, id, session, verb, p).conn.autoAttach);
    assert Creating(c) == Creating(s.conn) && c.nextId !in Creating(c);
    SentCreations(c, Relayed(verb, p, session), Inflight(Some(id), verb));
  }

  lemma CommandCounts(w: World, a: Action)
    requires Counted(w) && a.FromClient? && Enabled(w, a)
    ensures Counted(Next(w, a))
  {
    var s := At(w, a.i);
    var r := ClientCommand(s, a.client, a.session, a.verb, a.params);
    if Denial(s, a.session, a.verb, a.params).Some? {
      assert Creating(r.conn) == Creating(s.conn) && Tidy(r.conn);
    } else {
      RelayCreations(s, a.client, a.session, a.verb, a.params);
    }
    PutCounts(w, a.i, r);
  }

  lemma TakenIsTidy(conns: seq<Conn>, i: nat, id: nat)
    requires AllTidy(conns) && i < |conns|
    ensures AllTidy(conns[i := conns[i].(inflight := conns[i].inflight - {id})])
  {
    var taken := conns[i := conns[i].(inflight := conns[i].inflight - {id})];
    forall j | 0 <= j < |taken| ensures Tidy(taken[j]) { assert Tidy(conns[j]); }
  }

  lemma ReplyCounts(w: World, a: Action)
    requires Counted(w) && a.Reply? && Enabled(w, a)
    ensures Counted(Next(w, a))
  {
    var c := w.conns[a.i];
    if a.id in c.inflight {
      var taken := Taken(w, a.i, a.id);
      SumUpdate(w.conns, a.i, taken.conns[a.i], |w.conns|);
      assert Creating(taken.conns[a.i]) == Creating(c) - {a.id};
      TakenIsTidy(w.conns, a.i, a.id);
      var created := CreatedTarget(a.answer);
      if c.inflight[a.id].CreatesTarget() {
        CreationFinishedCounts(taken, created);
        AnswerCounts(CreationFinished(taken, created), a.i, c.inflight[a.id], a.answer);
      } else {
        assert Creating(c) - {a.id} == Creating(c);
        AnswerCounts(taken, a.i, c.inflight[a.id], a.answer);
      }
    }
  }

  lemma AnswerCounts(w: World, i: nat, command: Inflight, answer: Option<Answer>)
    requires Counted(w) && i < |w.conns|
    ensures Counted(Put(w, i, AnswerClient(At(w, i), command, answer)))
  {
    var r := AnswerClient(At(w, i), command, answer);
    assert Creating(r.conn) == Creating(w.conns[i]) && Tidy(r.conn);
    PutCounts(w, i, r);
  }

  lemma CloseCounts(w: World, i: nat)
    requires Counted(w) && i < |w.conns|
    ensures Counted(Next(w, Close(i)))
  {
    RemovedCounts(w, i);
    AbandonCounts(Removed(w, i), |Creating(w.conns[i])|);
  }

  lemma GrantCounts(w: World, t: TargetId)
    requires Counted(w)
    ensures Counted(Next(w, Grant(t)))
  {
    var r := Next(w, Grant(t));
    forall i | 0 <= i < |w.conns| && t !in w.own.pages
      ensures Tidy(r.conns[i]) && Creating(r.conns[i]) == Creating(w.conns[i])
      ensures NothingHeld(w.conns[i]) ==> NothingHeld(r.conns[i])
    {
      assert Tidy(w.conns[i]);
      SentCreations(w.conns[i], AttachGranted(t), Inflight(None, AttachToTarget));
    }
    if t !in w.own.pages { SumAgrees(w.conns, r.conns, |w.conns|); }
  }

  lemma StepCounts(w: World, a: Action)
    requires Counted(w) && Enabled(w, a)
    ensures Counted(Next(w, a))
  {
    match a
    case Open =>
      SumAgrees(w.conns, Next(w, a).conns, |w.conns|);
      assert Creating(FRESH_CONNECTION) == {};
      assert Tidy(FRESH_CONNECTION);
    case FromChromium(i, m) =>
      HandleKept(At(w, i), m);
      HandleCreations(At(w, i), m);
      if w.own.pending == 0 {
        var r := Handle(At(w, i), m).conn;
        EmptyHold(r);
      }
      PutCounts(w, i, Handle(At(w, i), m));
    case Reply(_, _, _) => ReplyCounts(w, a);
    case FromClient(_, _, _, _, _) => CommandCounts(w, a);
    case Close(i) => CloseCounts(w, i);
    case NewStarted =>
    case NewFinished(created) => CreationFinishedCounts(w.(http := w.http - 1), created);
    case Grant(t) => GrantCounts(w, t);
  }

  /** In every reachable world the pending count is the number of Target.createTarget commands in
      flight over open connections plus the `/json/new` requests in flight, and while it is zero
      no connection holds a target or a session. */
  lemma {:induction false} PendingIsInFlight(worlds: seq<World>, actions: seq<Action>,
                                             targets: set<TargetId>, k: nat)
    requires IsRun(worlds, actions, targets) && k < |worlds|
    ensures worlds[k].own.pending == InFlight(worlds[k].conns, |worlds[k].conns|) + worlds[k].http
    ensures worlds[k].own.pending == 0 ==> NoneHeld(worlds[k].conns)
    ensures Counted(worlds[k])
  {
    if k > 0 {
      PendingIsInFlight(worlds, actions, targets, k - 1);
      StepCounts(worlds[k - 1], actions[k - 1]);
    }
  }

  lemma {:induction false} CountsOne(conns: seq<Conn>, n: nat, i: nat)
    requires i < n <= |conns|
    ensures |Creating(conns[i])| <= InFlight(conns, n)
  {
    if i < n - 1 { CountsOne(conns, n - 1, i); }
  }

  lemma RemovedCounts(w: World, i: nat)
    requires Counted(w) && i < |w.conns|
    ensures var r := Removed(w, i);
      && AllTidy(r.conns) && |Creating(w.conns[i])| <= w.own.pending
      && r.own.pending == InFlight(r.conns, |r.conns|) + r.http + |Creating(w.conns[i])|
      && (w.own.pending == 0 ==> NoneHeld(r.conns))
  {
    CountsOne(w.conns, |w.conns|, i);
    SumRemove(w.conns, i, |w.conns| - 1);
    RestIsTidy(w.conns, i);
    assert |Removed(w, i).conns| == |w.conns| - 1;
  }

  lemma CloseReturnsItsShare(w: World, i: nat)
    requires Counted(w) && i < |w.conns|
    ensures |Creating(w.conns[i])| <= w.own.pending
    ensures Next(w, Close(i)).own.pending == w.own.pending - |Creating(w.conns[i])|
  {
    RemovedCounts(w, i);
    AbandonReturns(Removed(w, i), |Creating(w.conns[i])|);
  }

  lemma AbandonReturns(w: World, n: nat)
    requires AllTidy(w.conns) && w.own.pending == InFlight(w.conns, |w.conns|) + w.http + n
    requires n == 0 && w.own.pending == 0 ==> NoneHeld(w.conns)
    ensures Abandon(w, n).own.pending == w.own.pending - n
  {
    AbandonCounts(w, n);
  }

  lemma RestIsTidy(conns: seq<Conn>, i: nat)
    requires AllTidy(conns) && i < |conns|
    ensures AllTidy(conns[..i] + conns[i + 1..])
  {
    var rest := conns[..i] + conns[i + 1..];
    forall j | 0 <= j < |rest| ensures Tidy(rest[j]) {
      assert Tidy(conns[if j < i then j else j + 1]);
    }
  }

  lemma ReplyIsCounted(w: World, i: nat, id: nat)
    requires Counted(w) && i < |w.conns| && id in Creating(w.conns[i])
    ensures w.own.pending > 0
  {
    CountsOne(w.conns, |w.conns|, i);
  }

  /** Whenever creationFinished runs in a reachable world the count is still positive, so the clamp
      at zero never acts; a closing connection takes back exactly what it had added. */
  lemma ClampNeverActs(worlds: seq<World>, actions: seq<Action>, targets: set<TargetId>, k: nat)
    requires IsRun(worlds, actions, targets) && k < |actions|
    ensures var w, a := worlds[k], actions[k];
      && (a.Reply? && a.i < |w.conns| && a.id in Creating(w.conns[a.i]) ==> w.own.pending > 0)
      && (a.NewFinished? ==> w.own.pending > 0)
      && (a.Close? && a.i < |w.conns| ==>
            && |Creating(w.conns[a.i])| <= w.own.pending
            && worlds[k + 1].own.pending == w.own.pending - |Creating(w.conns[a.i])|)
  {
    var w, a := worlds[k], actions[k];
    PendingIsInFlight(worlds, actions, targets, k);
    if a.Reply? && a.i < |w.conns| && a.id in Creating(w.conns[a.i]) {
      ReplyIsCounted(w, a.i, a.id);
    } else if a.Close? && a.i < |w.conns| {
      CloseReturnsItsShare(w, a.i);
    }
  }
}
