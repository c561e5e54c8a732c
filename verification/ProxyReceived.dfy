/** Over every run: what a connection holds it received, and every remembered tab was announced. */
module ProxyReceived {
  import opened Wrappers
  import opened ProxyModel
  import opened ProxyWorld
  import opened ProxyProvenance

  // ---- what is held was received ----

  ghost predicate HeldIn(c: Conn, ms: set<Message>) {
    forall t | t in c.held :: forall m | m in c.held[t].messages :: m in ms
  }

  ghost predicate AllHeldIn(conns: seq<Conn>, heard: seq<set<Message>>) {
    |heard| == |conns| && forall i | 0 <= i < |conns| :: HeldIn(conns[i], heard[i])
  }

  lemma PushHeld(c: Conn, t: TargetId, m: Message, ms: set<Message>)
    requires HeldIn(c, ms) && m in ms
    ensures HeldIn(c.(held := PushTo(c.held, t, m)), ms)
  {
  }

  lemma HoldHeld(c: Conn, t: TargetId, m: Message, session: Option<(SessionId, Option<SessionId>)>,
                 ms: set<Message>)
    requires HeldIn(c, ms) && m in ms
    ensures HeldIn(Hold(c, t, m, session), ms)
  {
  }

  lemma TargetHeld(s: Side, m: Message, ms: set<Message>)
    requires HeldIn(s.conn, ms) && m in ms && m.event.IsTarget()
    ensures HeldIn(TargetEvent(s, m).conn, ms)
  {
    match m.event
    case Attached(Some(k), Some(info)) => HoldHeld(s.conn, info.target, m, Some((k, m.via)), ms);
    case Detached(Some(k)) =>
      if k in s.conn.heldSessions { PushHeld(s.conn, s.conn.heldSessions[k], m, ms); }
    case Announced(Some(info)) => HoldHeld(s.conn, info.target, m, None, ms);
    case Gone(Some(t), _) => HoldHeld(s.conn, t, m, None, ms);
    case _ =>
  }

  lemma HandleHeld(s: Side, m: Message, ms: set<Message>)
    requires HeldIn(s.conn, ms) && m in ms
    ensures HeldIn(Handle(s, m).conn, ms)
  {
    if m.via.Some? && m.via.value in s.conn.heldSessions {
      PushHeld(s.conn, s.conn.heldSessions[m.via.value], m, ms);
    } else if (m.via.None? || m.via.value in s.conn.browsers) && m.event.IsTarget() {
      TargetHeld(s, m, ms);
    }
  }

  lemma {:induction false} ReplayHeld(s: Side, ms: seq<Message>, held: set<Message>)
    requires HeldIn(s.conn, held) && forall m | m in ms :: m in held
    ensures HeldIn(Replay(s, ms).conn, held)
  {
    if ms != [] {
      ReplayHeld(s, ms[..|ms| - 1], held);
      HandleHeld(Replay(s, ms[..|ms| - 1]), ms[|ms| - 1], held);
    }
  }

  lemma {:induction false} ReleasedConn(c: Conn, xs: seq<(SessionId, Option<SessionId>)>)
    ensures var r := ReleaseAll(c, xs);
      && r.sessions == c.sessions && r.held == c.held && r.client == c.client && r.browsers == c.browsers
      && c.upstream <= r.upstream
      && forall j | |c.upstream| <= j < |r.upstream| :: r.upstream[j].Resume? || r.upstream[j].Detach?
  {
    if xs != [] { ReleasedConn(c, xs[..|xs| - 1]); }
  }

  lemma SettleOneHeld(s: Side, t: TargetId, ms: set<Message>)
    requires HeldIn(s.conn, ms)
    ensures HeldIn(SettleOne(s, t).conn, ms)
  {
    if t in s.conn.held {
      var c, entry := Unhold(s.conn, t), s.conn.held[t];
      assert HeldIn(c, ms);
      ReleasedConn(c, entry.sessions);
      if s.own.Owns(t) { ReplayHeld(s.(conn := c), entry.messages, ms); }
    }
  }

  lemma {:induction false} SettleEachHeld(s: Side, ts: seq<TargetId>, ms: set<Message>)
    requires HeldIn(s.conn, ms)
    ensures HeldIn(SettleEach(s, ts).conn, ms)
  {
    if ts != [] {
      SettleEachHeld(s, ts[..|ts| - 1], ms);
      SettleOneHeld(SettleEach(s, ts[..|ts| - 1]), ts[|ts| - 1], ms);
    }
  }

  lemma {:induction false} SettleConnsHeld(w: World, n: nat, heard: seq<set<Message>>)
    requires n <= |w.conns| && AllHeldIn(w.conns, heard)
    ensures AllHeldIn(SettleConns(w, n).conns, heard)
  {
    if n > 0 {
      SettleConnsHeld(w, n - 1, heard);
      var before := SettleConns(w, n - 1);
      SettleEachHeld(At(before, n - 1), before.conns[n - 1].heldOrder, heard[n - 1]);
    }
  }

  lemma {:induction false} AbandonHeld(w: World, n: nat, heard: seq<set<Message>>)
    requires AllHeldIn(w.conns, heard)
    ensures AllHeldIn(Abandon(w, n).conns, heard)
  {
    if n > 0 {
      AbandonHeld(w, n - 1, heard);
      var before := Abandon(w, n - 1);
      SettleConnsHeld(before.(own := CreditCreation(before.own, None)), |before.conns|, heard);
    }
  }

  lemma ReplyHeld(w: World, a: Action, heard: seq<set<Message>>)
    requires a.Reply? && Enabled(w, a) && AllHeldIn(w.conns, heard)
    ensures AllHeldIn(Next(w, a).conns, heard)
  {
    var c := w.conns[a.i];
    if a.id in c.inflight {
      var x := Taken(w, a.i, a.id);
      assert HeldIn(x.conns[a.i], heard[a.i]);
      SettleConnsHeld(x.(own := CreditCreation(x.own, CreatedTarget(a.answer))), |x.conns|, heard);
      var y := if c.inflight[a.id].CreatesTarget() then CreationFinished(x, CreatedTarget(a.answer)) else x;
      assert AnswerClient(At(y, a.i), c.inflight[a.id], a.answer).conn.held == y.conns[a.i].held;
    }
  }

  lemma StepHeld(w: World, a: Action, heard: seq<set<Message>>)
    requires Enabled(w, a) && AllHeldIn(w.conns, heard)
    ensures AllHeldIn(Next(w, a).conns, HeardAfter(heard, a))
  {
    match a
    case FromChromium(i, m) => HandleHeld(At(w, i), m, heard[i] + {m});
    case Reply(_, _, _) => ReplyHeld(w, a, heard);
    case Close(i) =>
      AbandonHeld(Removed(w, i), |Creating(w.conns[i])|, heard[..i] + heard[i + 1..]);
    case NewFinished(created) =>
      SettleConnsHeld(w.(http := w.http - 1, own := CreditCreation(w.own, created)), |w.conns|, heard);
    case _ =>
  }

  lemma {:induction false} RunHeld(worlds: seq<World>, actions: seq<Action>, targets: set<TargetId>, k: nat)
    requires IsRun(worlds, actions, targets) && k <= |actions|
    ensures AllHeldIn(worlds[k].conns, Heard(actions[..k]))
  {
    if k > 0 {
      RunHeld(worlds, actions, targets, k - 1);
      assert actions[..k][..k - 1] == actions[..k - 1] && actions[..k][k - 1] == actions[k - 1];
      StepHeld(worlds[k - 1], actions[k - 1], Heard(actions[..k - 1]));
    }
  }

  // ---- remembered tabs were announced ----

  /** Every message the connections received. */
  function Received(actions: seq<Action>): set<Message> {
    set j | 0 <= j < |actions| && actions[j].FromChromium? :: actions[j].message
  }

  ghost predicate TabsSeen(tabs: seq<TargetId>, seen: set<Message>) {
    forall t | t in tabs :: exists m :: m in seen && AnnouncesTab(m, t)
  }

  lemma HandleSees(s: Side, m: Message, seen: set<Message>)
    requires TabsSeen(s.own.tabs, seen) && m in seen
    ensures TabsSeen(Handle(s, m).own.tabs, seen)
  {
    forall t | t in Handle(s, m).own.tabs ensures exists e :: e in seen && AnnouncesTab(e, t) {
      NewTab(s, m, t);
    }
  }

  lemma NewTab(s: Side, m: Message, t: TargetId)
    requires t in Handle(s, m).own.tabs
    ensures t in s.own.tabs || AnnouncesTab(m, t)
  {
  }

  lemma {:induction false} ReplaySees(s: Side, ms: seq<Message>, seen: set<Message>)
    requires TabsSeen(s.own.tabs, seen) && forall m | m in ms :: m in seen
    ensures TabsSeen(Replay(s, ms).own.tabs, seen)
  {
    if ms != [] {
      ReplaySees(s, ms[..|ms| - 1], seen);
      HandleSees(Replay(s, ms[..|ms| - 1]), ms[|ms| - 1], seen);
    }
  }

  lemma {:induction false} SettleEachSees(s: Side, ts: seq<TargetId>, ms: set<Message>, seen: set<Message>)
    requires TabsSeen(s.own.tabs, seen) && HeldIn(s.conn, ms) && ms <= seen
    ensures TabsSeen(SettleEach(s, ts).own.tabs, seen)
  {
    if ts != [] {
      SettleEachSees(s, ts[..|ts| - 1], ms, seen);
      SettleEachHeld(s, ts[..|ts| - 1], ms);
      var before, t := SettleEach(s, ts[..|ts| - 1]), ts[|ts| - 1];
      if t in before.conn.held && before.own.Owns(t) {
        ReplaySees(before.(conn := Unhold(before.conn, t)), before.conn.held[t].messages, seen);
      }
    }
  }

  ghost predicate AllIn(heard: seq<set<Message>>, seen: set<Message>) {
    forall i | 0 <= i < |heard| :: heard[i] <= seen
  }

  lemma {:induction false} SettleConnsSees(w: World, n: nat, heard: seq<set<Message>>, seen: set<Message>)
    requires n <= |w.conns| && TabsSeen(w.own.tabs, seen) && AllHeldIn(w.conns, heard) && AllIn(heard, seen)
    ensures TabsSeen(SettleConns(w, n).own.tabs, seen)
  {
    if n > 0 {
      SettleConnsSees(w, n - 1, heard, seen);
      SettleConnsHeld(w, n - 1, heard);
      var before := SettleConns(w, n - 1);
      SettleEachSees(At(before, n - 1), before.conns[n - 1].heldOrder, heard[n - 1], seen);
    }
  }

  lemma FinishedSees(w: World, created: Option<TargetId>, heard: seq<set<Message>>, seen: set<Message>)
    requires TabsSeen(w.own.tabs, seen) && AllHeldIn(w.conns, heard) && AllIn(heard, seen)
    ensures TabsSeen(CreationFinished(w, created).own.tabs, seen)
  {
    var own := CreditCreation(w.own, created);
    assert forall t | t in own.tabs :: t in w.own.tabs;
    SettleConnsSees(w.(own := own), |w.conns|, heard, seen);
  }

  lemma {:induction false} AbandonSees(w: World, n: nat, heard: seq<set<Message>>, seen: set<Message>)
    requires TabsSeen(w.own.tabs, seen) && AllHeldIn(w.conns, heard) && AllIn(heard, seen)
    ensures TabsSeen(Abandon(w, n).own.tabs, seen)
  {
    if n > 0 {
      AbandonSees(w, n - 1, heard, seen);
      AbandonHeld(w, n - 1, heard);
      FinishedSees(Abandon(w, n - 1), None, heard, seen);
    }
  }

  lemma StepSees(w: World, a: Action, heard: seq<set<Message>>, seen: set<Message>)
    requires Enabled(w, a) && AllHeldIn(w.conns, heard) && AllIn(heard, seen) && TabsSeen(w.own.tabs, seen)
    requires a.FromChromium? ==> a.message in seen
    ensures TabsSeen(Next(w, a).own.tabs, seen) && AllIn(HeardAfter(heard, a), seen)
  {
    match a
    case FromChromium(i, m) => HandleSees(At(w, i), m, seen);
    case Reply(i, id, answer) =>
      if id in w.conns[i].inflight {
        var x := Taken(w, i, id);
        assert AllHeldIn(x.conns, heard);
        FinishedSees(x, CreatedTarget(answer), heard, seen);
        var y := if w.conns[i].inflight[id].CreatesTarget() then CreationFinished(x, CreatedTarget(answer)) else x;
        assert AnswerClient(At(y, i), w.conns[i].inflight[id], answer).own == y.own;
      }
    case Close(i) =>
      AbandonSees(Removed(w, i), |Creating(w.conns[i])|, heard[..i] + heard[i + 1..], seen);
    case NewFinished(created) => FinishedSees(w.(http := w.http - 1), created, heard, seen);
    case _ =>
  }

  lemma ReceivedMore(actions: seq<Action>, k: nat)
    requires k < |actions|
    ensures Received(actions[..k]) <= Received(actions[..k + 1])
    ensures actions[k].FromChromium? ==> actions[k].message in Received(actions[..k + 1])
  {
    assert actions[..k + 1][k] == actions[k];
    forall m | m in Received(actions[..k]) ensures m in Received(actions[..k + 1]) {
      var j :| 0 <= j < k && actions[..k][j].FromChromium? && actions[..k][j].message == m;
      assert actions[..k + 1][j] == actions[..k][j];
    }
  }

  lemma {:induction false} RunSees(worlds: seq<World>, actions: seq<Action>, targets: set<TargetId>, k: nat)
    requires IsRun(worlds, actions, targets) && k <= |actions|
    ensures TabsSeen(worlds[k].own.tabs, Received(actions[..k]))
    ensures AllIn(Heard(actions[..k]), Received(actions[..k]))
  {
    if k > 0 {
      RunSees(worlds, actions, targets, k - 1);
      RunHeld(worlds, actions, targets, k - 1);
      assert actions[..k][..k - 1] == actions[..k - 1] && actions[..k][k - 1] == actions[k - 1];
      ReceivedMore(actions, k - 1);
      assert AllIn(Heard(actions[..k - 1]), Received(actions[..k]));
      StepSees(worlds[k - 1], actions[k - 1], Heard(actions[..k - 1]), Received(actions[..k]));
    }
  }
}
