/** A detached session takes its whole tree with it, at once or when a hold entry is replayed, and
    the tree never comes back. */
module ProxyDroppedTrees {
  import opened Wrappers
  import opened ProxyModel
  import opened ProxyWorld
  import opened ProxyForest
  import opened ProxyForestRuns

  /** The message tells connection c, not just its hold, that session s was detached. */
  predicate Detaches(c: Conn, m: Message, s: SessionId) {
    && m.event == Detached(Some(s))
    && if m.via.Some? && m.via.value !in c.browsers then
         m.via.value in c.sessions && m.via.value !in c.heldSessions
       else
         && (m.via.Some? ==> m.via.value !in c.heldSessions)
         && s !in c.heldSessions && (s in c.browsers || s in c.sessions)
  }

  /** The message drops session s and with it the session `under` it. */
  ghost predicate Drops(c: Conn, m: Message, s: SessionId, under: SessionId) {
    Detaches(c, m, s) && under in c.sessions && Under(c.sessions, under, s)
  }

  lemma TreeDies(w: World, a: Action, seen: set<SessionId>, s: SessionId, under: SessionId)
    requires a.FromChromium? && Enabled(w, a) && AllPlanted(w.conns, seen) && Apart(w)
    requires Drops(w.conns[a.i], a.message, s, under)
    ensures Dead(Next(w, a), under) && under in seen
  {
    var c, r := w.conns[a.i], Next(w, a);
    assert Planted(c, [], seen) && Knows(c, [], under);
    HandleLearns(At(w, a.i), a.message);
    assert under !in r.conns[a.i].sessions;
    forall i | 0 <= i < |w.conns| ensures !Knows(r.conns[i], [], under) {
      if i != a.i {
        assert r.conns[i] == w.conns[i];
        if i < a.i { assert !(Knows(w.conns[i], [], under) && Knows(c, [], under)); }
      } else {
        assert forall t, n :: Slot(r.conns[i], t, n, under) ==> Slot(c, t, n, under);
      }
    }
  }

  // ---- a drop that a hold entry replays ----

  /** Where settling from s stands when it has settled n targets and replayed j messages of the
      next one. */
  ghost function Reached(s: Side, n: nat, j: nat): Side
    requires n < |s.conn.heldOrder|
  {
    var x, t := SettleEach(s, s.conn.heldOrder[..n]), s.conn.heldOrder[n];
    if t in x.conn.held && j <= |x.conn.held[t].messages| then
      Replay(x.(conn := Unhold(x.conn, t)), x.conn.held[t].messages[..j])
    else x
  }

  ghost function Queue(s: Side, n: nat): seq<Message>
    requires n < |s.conn.heldOrder|
  {
    var x, t := SettleEach(s, s.conn.heldOrder[..n]), s.conn.heldOrder[n];
    if t in x.conn.held && x.own.Owns(t) then x.conn.held[t].messages else []
  }

  ghost predicate DropsInSettling(s: Side, n: nat, j: nat, m: SessionId, under: SessionId) {
    && n < |s.conn.heldOrder| && j < |Queue(s, n)|
    && Drops(Reached(s, n, j).conn, Queue(s, n)[j], m, under)
  }

  lemma DropForgets(s: Side, m: Message, rest: seq<Message>, seen: set<SessionId>, d: SessionId,
                    under: SessionId)
    requires Planted(s.conn, [m] + rest, seen) && Drops(s.conn, m, d, under)
    ensures !Knows(Handle(s, m).conn, rest, under)
  {
    HandleLearns(s, m);
    var r := Handle(s, m).conn;
    assert under !in r.sessions && under !in r.browsers;
    assert forall t, i :: Slot(r, t, i, under) ==> Slot(s.conn, t, i, under);
    assert forall i :: InQueue(rest, i, under) ==> InQueue([m] + rest, i + 1, under);
  }

  lemma {:induction false} ReplayFrom(s: Side, ms: seq<Message>, j: nat)
    requires j <= |ms|
    ensures Replay(s, ms) == Replay(Replay(s, ms[..j]), ms[j..])
  {
    if j == |ms| {
      assert ms[..j] == ms && ms[j..] == [];
    } else {
      var front, last := ms[..|ms| - 1], ms[|ms| - 1];
      ReplayFrom(s, front, j);
      assert front[..j] == ms[..j] && front[j..] == ms[j..][..|ms| - 1 - j];
    }
  }

  /** A tree dropped in a replay was known before and is not known after. */
  lemma ReplayForgets(u: Side, ms: seq<Message>, j: nat, seen: set<SessionId>, d: SessionId,
                      under: SessionId)
    requires Planted(u.conn, ms, seen) && j < |ms|
    requires Drops(Replay(u, ms[..j]).conn, ms[j], d, under)
    ensures Knows(u.conn, ms, under) && !Knows(Replay(u, ms).conn, [], under)
  {
    var r := Replay(u, ms[..j]);
    ReplayPlanted(u, ms, j, seen);
    assert ms[j..] == [ms[j]] + ms[j + 1..];
    DropForgets(r, ms[j], ms[j + 1..], seen, d, under);
    ReplayLearns(u, ms, j, under);
    assert ms[..j + 1][..j] == ms[..j] && ms[..j + 1][j] == ms[j];
    ReplayFrom(u, ms, j + 1);
    var rest := ms[j + 1..];
    assert rest[..|rest|] == rest && rest[|rest|..] == [];
    if Knows(Replay(u, ms).conn, [], under) { ReplayLearns(Handle(r, ms[j]), rest, |rest|, under); }
  }

  lemma SettleOneForgets(x: Side, t: TargetId, j: nat, seen: set<SessionId>, d: SessionId,
                         under: SessionId)
    requires Planted(x.conn, [], seen) && t in x.conn.held && x.own.Owns(t)
    requires j < |x.conn.held[t].messages|
    requires Drops(Replay(x.(conn := Unhold(x.conn, t)), x.conn.held[t].messages[..j]).conn,
                   x.conn.held[t].messages[j], d, under)
    ensures Knows(x.conn, [], under) && !Knows(SettleOne(x, t).conn, [], under)
  {
    var u, ms := x.(conn := Unhold(x.conn, t)), x.conn.held[t].messages;
    UnholdPlanted(x.conn, t, seen);
    ReplayForgets(u, ms, j, seen, d, under);
    if i :| InQueue(ms, i, under) { assert Slot(x.conn, t, i, under); }
    if t', i :| Slot(u.conn, t', i, under) { assert Slot(x.conn, t', i, under); }
  }

  lemma {:induction false} SettleEachFrom(s: Side, ts: seq<TargetId>, n: nat)
    requires n <= |ts|
    ensures SettleEach(s, ts) == SettleEach(SettleEach(s, ts[..n]), ts[n..])
  {
    if n == |ts| {
      assert ts[..n] == ts && ts[n..] == [];
    } else {
      var front := ts[..|ts| - 1];
      SettleEachFrom(s, front, n);
      assert front[..n] == ts[..n] && front[n..] == ts[n..][..|ts| - 1 - n];
    }
  }

  lemma SettleUpToForgets(s: Side, n: nat, j: nat, seen: set<SessionId>, d: SessionId, under: SessionId)
    requires Planted(s.conn, [], seen) && DropsInSettling(s, n, j, d, under)
    ensures Knows(s.conn, [], under)
    ensures !Knows(SettleEach(s, s.conn.heldOrder[..n + 1]).conn, [], under)
  {
    var ts := s.conn.heldOrder;
    SettleEachPlanted(s, ts[..n], seen);
    SettleOneForgets(SettleEach(s, ts[..n]), ts[n], j, seen, d, under);
    SettleEachLearns(s, ts[..n], under);
    assert ts[..n + 1][..n] == ts[..n] && ts[..n + 1][n] == ts[n];
  }

  /** What the first n leave unknown stays unknown. */
  lemma SettleKeepsUnknown(s: Side, n: nat, under: SessionId)
    requires n <= |s.conn.heldOrder| && !Knows(SettleEach(s, s.conn.heldOrder[..n]).conn, [], under)
    ensures !Knows(SettleHeld(s).conn, [], under)
  {
    var ts := s.conn.heldOrder;
    SettleEachFrom(s, ts, n);
    if Knows(SettleHeld(s).conn, [], under) { SettleEachLearns(SettleEach(s, ts[..n]), ts[n..], under); }
  }

  lemma SettleForgets(s: Side, n: nat, j: nat, seen: set<SessionId>, d: SessionId, under: SessionId)
    requires Planted(s.conn, [], seen) && DropsInSettling(s, n, j, d, under)
    ensures Knows(s.conn, [], under) && !Knows(SettleHeld(s).conn, [], under)
  {
    SettleUpToForgets(s, n, j, seen, d, under);
    SettleKeepsUnknown(s, n + 1, under);
  }

  // ---- forgotten for good ----

  /** Settling the connections, x reaches connection i in side s. */
  ghost predicate Settles(x: World, i: nat, s: Side) {
    i < |x.conns| && s == At(SettleConns(x, i), i)
  }

  lemma {:induction false} SettledConn(x: World, i: nat, n: nat)
    requires i < n <= |x.conns|
    ensures SettleConns(x, n).conns[i] == SettleHeld(At(SettleConns(x, i), i)).conn
  {
    if n > i + 1 { SettledConn(x, i, n - 1); }
  }

  lemma ConnForgets(x: World, i: nat, s: Side, n: nat, j: nat, seen: set<SessionId>, d: SessionId,
                    under: SessionId)
    requires Settles(x, i, s) && AllPlanted(x.conns, seen) && DropsInSettling(s, n, j, d, under)
    ensures Knows(x.conns[i], [], under)
    ensures !Knows(SettleConns(x, |x.conns|).conns[i], [], under)
  {
    SettleConnsPlanted(x, i, seen);
    SettleForgets(s, n, j, seen, d, under);
    SettleConnsLearns(x, i, i, under);
    SettledConn(x, i, |x.conns|);
  }

  /** The worlds whose connections the step settles: one for each creation it ends. */
  ghost predicate Credited(w: World, a: Action, x: World)
    requires Enabled(w, a)
  {
    match a
    case Reply(i, id, answer) =>
      id in Creating(w.conns[i])
      && x == Taken(w, i, id).(own := CreditCreation(w.own, CreatedTarget(answer)))
    case NewFinished(created) => x == w.(http := w.http - 1, own := CreditCreation(w.own, created))
    case Close(i) =>
      exists n: nat :: n < |Creating(w.conns[i])| && x == Abandoning(w, i, n)
    case _ => false
  }

  ghost function Abandoning(w: World, i: nat, n: nat): World
    requires i < |w.conns|
  {
    var before := Abandon(Removed(w, i), n);
    before.(own := CreditCreation(before.own, None))
  }

  /** Connection i knows the session once n creations are given up. */
  ghost predicate KnowsAfter(w: World, n: nat, i: nat, s: SessionId) {
    i < |w.conns| == |Abandon(w, n).conns| && Knows(Abandon(w, n).conns[i], [], s)
  }

  lemma KnewBefore(w: World, n: nat, i: nat, s: SessionId)
    requires n > 0 && KnowsAfter(w, n, i, s)
    ensures KnowsAfter(w, n - 1, i, s)
  {
    AbandonCount(w, n - 1);
    var before := Abandon(w, n - 1);
    SettleConnsLearns(before.(own := CreditCreation(before.own, None)), |before.conns|, i, s);
  }

  lemma {:induction false} KnewAllAlong(w: World, n: nat, k: nat, i: nat, s: SessionId)
    requires n <= k && KnowsAfter(w, k, i, s)
    ensures KnowsAfter(w, n, i, s)
  {
    if n < k {
      KnewBefore(w, k, i, s);
      KnewAllAlong(w, n, k - 1, i, s);
    }
  }

  lemma AbandonForgets(rest: World, n: nat, all: nat, c: nat, under: SessionId)
    requires n < all && KnowsAfter(rest, n, c, under) && !KnowsAfter(rest, n + 1, c, under)
    ensures KnowsAfter(rest, 0, c, under) && !KnowsAfter(rest, all, c, under)
  {
    KnewAllAlong(rest, 0, n, c, under);
    if KnowsAfter(rest, all, c, under) { KnewAllAlong(rest, n + 1, all, c, under); }
  }

  lemma CloseForgets(w: World, i: nat, n: nat, c: nat, under: SessionId)
    requires i < |w.conns| && n < |Creating(w.conns[i])| && c < |Removed(w, i).conns|
    requires KnowsAfter(Removed(w, i), n, c, under) && !KnowsAfter(Removed(w, i), n + 1, c, under)
    ensures c < |Next(w, Close(i)).conns| && Before(Close(i), c) < |w.conns|
    ensures Knows(w.conns[Before(Close(i), c)], [], under) && !Knows(Next(w, Close(i)).conns[c], [], under)
  {
    AbandonForgets(Removed(w, i), n, |Creating(w.conns[i])|, c, under);
    AbandonCount(Removed(w, i), |Creating(w.conns[i])|);
  }

  lemma AbandonedSettled(w: World, i: nat, n: nat)
    requires i < |w.conns|
    ensures var x := Abandoning(w, i, n);
      && x.conns == Abandon(Removed(w, i), n).conns
      && |Abandon(Removed(w, i), n).conns| == |Abandon(Removed(w, i), n + 1).conns| == |Removed(w, i).conns|
      && SettleConns(x, |x.conns|) == Abandon(Removed(w, i), n + 1)
  {
    AbandonCount(Removed(w, i), n);
  }

  lemma CreditedPlanted(w: World, a: Action, x: World, seen: set<SessionId>)
    requires Enabled(w, a) && AllPlanted(w.conns, seen) && Credited(w, a, x)
    ensures AllPlanted(x.conns, seen)
  {
    match a
    case Reply(i, id, _) => UntouchedPlanted(w.conns[i], x.conns[i], [], seen);
    case Close(i) =>
      var n: nat :| n < |Creating(w.conns[i])| && x == Abandoning(w, i, n);
      AbandonPlanted(Removed(w, i), n, seen);
    case _ =>
  }

  lemma ReplyForgets(w: World, a: Action, x: World, i: nat, under: SessionId)
    requires a.Reply? && Enabled(w, a) && Credited(w, a, x) && i < |x.conns|
    requires Knows(x.conns[i], [], under) && !Knows(SettleConns(x, |x.conns|).conns[i], [], under)
    ensures i < |Next(w, a).conns| && i < |w.conns|
    ensures Knows(w.conns[i], [], under) && !Knows(Next(w, a).conns[i], [], under)
  {
    SameKnowledge(w.conns[i], x.conns[i], under);
    var y := SettleConns(x, |x.conns|);
    if Knows(Next(w, a).conns[i], [], under) { SameKnowledge(y.conns[i], Next(w, a).conns[i], under); }
  }

  /** A tree dropped while the step settles connection i is forgotten by it. */
  lemma StepForgets(w: World, a: Action, x: World, i: nat, under: SessionId)
    requires Enabled(w, a) && Credited(w, a, x) && i < |x.conns|
    requires Knows(x.conns[i], [], under) && !Knows(SettleConns(x, |x.conns|).conns[i], [], under)
    ensures i < |Next(w, a).conns| && Before(a, i) < |w.conns|
    ensures Knows(w.conns[Before(a, i)], [], under) && !Knows(Next(w, a).conns[i], [], under)
  {
    match a
    case Reply(_, _, _) => ReplyForgets(w, a, x, i, under);
    case NewFinished(_) => SameKnowledge(w.conns[i], x.conns[i], under);
    case Close(c) =>
      var n: nat :| n < |Creating(w.conns[c])| && x == Abandoning(w, c, n);
      AbandonedSettled(w, c, n);
      CloseForgets(w, c, n, i, under);
  }

  /** What one connection forgets no other knows. */
  lemma ForgottenDies(w: World, a: Action, seen: set<SessionId>, i: nat, under: SessionId)
    requires Enabled(w, a) && AllPlanted(w.conns, seen) && Apart(w)
    requires a.FromChromium? ==> !Introduces(a.message, under)
    requires i < |Next(w, a).conns| && Before(a, i) < |w.conns|
    requires Knows(w.conns[Before(a, i)], [], under) && !Knows(Next(w, a).conns[i], [], under)
    ensures Dead(Next(w, a), under) && under in seen
  {
    var r, b := Next(w, a), Before(a, i);
    KnownIsSeen(w.conns[b], seen, under);
    forall j | 0 <= j < |r.conns| ensures !Knows(r.conns[j], [], under) {
      if j != i && Knows(r.conns[j], [], under) { StepLearns(w, a, j, under); }
    }
  }

  ghost predicate DropsTreeAtOnce(w: World, a: Action, under: SessionId) {
    a.FromChromium? && a.i < |w.conns| && exists d :: Drops(w.conns[a.i], a.message, d, under)
  }

  /** Some hold entry that the step replays drops the tree. */
  ghost predicate DropsTreeSettling(w: World, a: Action, under: SessionId)
    requires Enabled(w, a)
  {
    exists x, i: nat, s, n: nat, j: nat, d ::
      Credited(w, a, x) && Settles(x, i, s) && DropsInSettling(s, n, j, d, under)
  }

  lemma DropKills(w: World, a: Action, seen: set<SessionId>, under: SessionId)
    requires Enabled(w, a) && AllPlanted(w.conns, seen) && Apart(w)
    requires DropsTreeAtOnce(w, a, under) || DropsTreeSettling(w, a, under)
    ensures Dead(Next(w, a), under) && under in seen
  {
    if DropsTreeAtOnce(w, a, under) {
      var d :| Drops(w.conns[a.i], a.message, d, under);
      TreeDies(w, a, seen, d, under);
    } else {
      var x, i: nat, s, n: nat, j: nat, d :|
        Credited(w, a, x) && Settles(x, i, s) && DropsInSettling(s, n, j, d, under);
      CreditedPlanted(w, a, x, seen);
      ConnForgets(x, i, s, n, j, seen, d, under);
      StepForgets(w, a, x, i, under);
      ForgottenDies(w, a, seen, i, under);
    }
  }

  /** Once a session is detached, at once or by a message that settling replays, every session under
      it is gone for good: in the rest of the run a client command on any of them is refused and
      nothing is sent to Chromium for it. */
  lemma DroppedTreeStaysUnreachable(worlds: seq<World>, actions: seq<Action>, targets: set<TargetId>,
                                    k: nat, k': nat, under: SessionId)
    requires IsRun(worlds, actions, targets) && FreshSessions(actions) && k < k' < |actions|
    requires DropsTreeAtOnce(worlds[k], actions[k], under) || DropsTreeSettling(worlds[k], actions[k], under)
    requires actions[k'].FromClient? && actions[k'].session == Some(under)
    ensures var w, a := worlds[k'], actions[k'];
      a.i < |w.conns| &&
      var c := w.conns[a.i];
      worlds[k' + 1] == w.(conns := w.conns[a.i :=
        c.(client := c.client + [Refused(a.client, a.session, SessionUnavailable)])])
  {
    RunPlanted(worlds, actions, targets, k);
    RunApart(worlds, actions, targets, k);
    RunStep(worlds, actions, targets, k);
    FreshStep(actions, k);
    DropKills(worlds[k], actions[k], Seen(actions[..k]), under);
    DeadStaysDead(worlds, actions, targets, k + 1, k', under);
    RunStep(worlds, actions, targets, k');
    assert !Knows(worlds[k'].conns[actions[k'].i], [], under);
  }
}
