/** The session forest over whole runs, and what dropping a session tree means for good. */
module ProxyForestRuns {
  import opened Wrappers
  import opened ProxyModel
  import opened ProxyWorld
  import opened ProxyForest

  /** The session ids Chromium has introduced so far. */
  function Seen(actions: seq<Action>): set<SessionId> {
    if actions == [] then {}
    else
      var last := actions[|actions| - 1];
      Seen(actions[..|actions| - 1])
      + (if last.FromChromium? && last.message.event.Attached? && last.message.event.session.Some?
         then {last.message.event.session.value} else {})
  }

  /** Chromium never introduces a session id twice, nor an empty one. */
  predicate FreshSessions(actions: seq<Action>) {
    forall k | 0 <= k < |actions| && actions[k].FromChromium? ::
      forall s | s in Seen(actions[..k]) + {BROWSER_SOCKET} :: !Introduces(actions[k].message, s)
  }

  // ---- the forest ----

  lemma PlantedMore(c: Conn, seen: set<SessionId>, more: set<SessionId>)
    requires Planted(c, [], seen) && seen <= more && BROWSER_SOCKET !in more
    ensures Planted(c, [], more)
  {
  }

  lemma UnseenIsNovel(c: Conn, seen: set<SessionId>, more: set<SessionId>, m: Message)
    requires Planted(c, [], seen) && seen <= more
    requires forall k | Introduces(m, k) :: k in more && k !in seen
    ensures Novel(c, [], more, m)
  {
  }

  lemma ReplyPlanted(w: World, i: nat, id: nat, answer: Option<Answer>, more: set<SessionId>)
    requires i < |w.conns| && AllPlanted(w.conns, more)
    ensures AllPlanted(Responded(w, i, id, answer).conns, more)
  {
    var c := w.conns[i];
    if id in c.inflight {
      var taken := Taken(w, i, id);
      UntouchedPlanted(c, taken.conns[i], [], more);
      var created := CreatedTarget(answer);
      var credited := taken;
      if c.inflight[id].CreatesTarget() {
        credited := CreationFinished(taken, created);
        SettleConnsPlanted(taken.(own := CreditCreation(taken.own, created)), |taken.conns|, more);
      }
      assert Planted(credited.conns[i], [], more);
      UntouchedPlanted(credited.conns[i],
                       AnswerClient(At(credited, i), c.inflight[id], answer).conn, [], more);
    }
  }

  lemma StepPlanted(w: World, a: Action, seen: set<SessionId>, more: set<SessionId>)
    requires Enabled(w, a) && AllPlanted(w.conns, seen)
    requires seen <= more && BROWSER_SOCKET !in more
    requires a.FromChromium? ==> forall k | Introduces(a.message, k) :: k in more && k !in seen
    ensures AllPlanted(Next(w, a).conns, more)
  {
    forall i | 0 <= i < |w.conns| ensures Planted(w.conns[i], [], more) {
      PlantedMore(w.conns[i], seen, more);
    }
    match a
    case FromChromium(i, m) =>
      UnseenIsNovel(w.conns[i], seen, more, m);
      HandlePlanted(At(w, i), m, [], more);
    case Reply(i, id, answer) => ReplyPlanted(w, i, id, answer, more);
    case FromClient(i, client, session, verb, params) =>
      UntouchedPlanted(w.conns[i], ClientCommand(At(w, i), client, session, verb, params).conn, [], more);
    case Close(i) =>
      AbandonPlanted(Removed(w, i), |Creating(w.conns[i])|, more);
    case NewFinished(created) =>
      SettleConnsPlanted(w.(http := w.http - 1, own := CreditCreation(w.own, created)), |w.conns|, more);
    case Grant(t) =>
      forall i | 0 <= i < |w.conns| ensures Planted(AttachGrantedTo(w.conns[i], t), [], more) {
        UntouchedPlanted(w.conns[i], AttachGrantedTo(w.conns[i], t), [], more);
      }
    case _ =>
  }

  /** A message of a fresh run introduces only ids that were not seen before it. */
  lemma FreshStep(actions: seq<Action>, k: nat)
    requires FreshSessions(actions) && k < |actions|
    ensures Seen(actions[..k]) <= Seen(actions[..k + 1])
    ensures BROWSER_SOCKET !in Seen(actions[..k]) ==> BROWSER_SOCKET !in Seen(actions[..k + 1])
    ensures actions[k].FromChromium? ==> forall s | Introduces(actions[k].message, s) ::
      s in Seen(actions[..k + 1]) && s !in Seen(actions[..k])
  {
    SeenNext(actions, k);
  }

  lemma RunStep(worlds: seq<World>, actions: seq<Action>, targets: set<TargetId>, k: nat)
    requires IsRun(worlds, actions, targets) && k < |actions|
    ensures Enabled(worlds[k], actions[k]) && worlds[k + 1] == Next(worlds[k], actions[k])
  {
  }

  lemma {:induction false} RunPlanted(worlds: seq<World>, actions: seq<Action>, targets: set<TargetId>, k: nat)
    requires IsRun(worlds, actions, targets) && FreshSessions(actions) && k < |worlds|
    ensures AllPlanted(worlds[k].conns, Seen(actions[..k]))
    ensures BROWSER_SOCKET !in Seen(actions[..k])
  {
    if k > 0 {
      RunPlanted(worlds, actions, targets, k - 1);
      FreshStep(actions, k - 1);
      RunStep(worlds, actions, targets, k - 1);
      StepPlanted(worlds[k - 1], actions[k - 1], Seen(actions[..k - 1]), Seen(actions[..k]));
    }
  }

  lemma SeenNext(actions: seq<Action>, k: nat)
    requires k < |actions|
    ensures forall s :: s in Seen(actions[..k + 1]) <==>
      s in Seen(actions[..k]) || (actions[k].FromChromium? && Introduces(actions[k].message, s))
  {
    assert actions[..k + 1][..k] == actions[..k] && actions[..k + 1][k] == actions[k];
  }

  /** In every reachable world each owned session hangs from the browser socket, a live
      browser-level session or another owned session, never from itself through any number of
      links, and following its parents ends. */
  lemma SessionForest(worlds: seq<World>, actions: seq<Action>, targets: set<TargetId>, k: nat, i: nat,
                      s: SessionId)
    requires IsRun(worlds, actions, targets) && FreshSessions(actions) && k < |worlds|
    requires i < |worlds[k].conns| && s in worlds[k].conns[i].sessions
    ensures var c := worlds[k].conns[i];
      && (c.sessions[s] == BROWSER_SOCKET || c.sessions[s] in c.browsers || c.sessions[s] in c.sessions)
      && Rooted(c.sessions, c.browsers, s)
      && forall n: nat | n > 0 :: !Above(c.sessions, s, s, n)
  {
    RunPlanted(worlds, actions, targets, k);
    var c := worlds[k].conns[i];
    assert Planted(c, [], Seen(actions[..k]));
    var r: SessionId, n: nat :| Above(c.sessions, s, r, n) && r !in c.sessions
                                && (r == BROWSER_SOCKET || r in c.browsers);
    assert n > 0 && Above(c.sessions, c.sessions[s], r, n - 1);
    forall n: nat | n > 0 ensures !Above(c.sessions, s, s, n) {
      ForestIsAcyclic(c.sessions, c.browsers, s, n);
    }
  }

  // ---- known sessions ----

  /** The connection uses session k or may still come to use it. */
  ghost predicate Knows(c: Conn, queue: seq<Message>, k: SessionId) {
    || k in c.sessions || k in c.browsers
    || (exists t, i :: Slot(c, t, i, k)) || (exists i :: InQueue(queue, i, k))
  }

  /** Going from c to d the connection learned no session but those m introduces. */
  ghost predicate LearnsOnly(c: Conn, d: Conn, m: Message) {
    && (forall k | k in d.sessions || k in d.browsers ::
          k in c.sessions || k in c.browsers || Introduces(m, k))
    && (forall t, i, k | Slot(d, t, i, k) :: Slot(c, t, i, k) || Introduces(m, k))
  }

  lemma PushLearns(c: Conn, d: Conn, t: TargetId, m: Message)
    requires d.sessions == c.sessions && d.browsers == c.browsers
    requires d.held == c.held || (d.held.Keys == c.held.Keys + {t}
      && (forall u | u in c.held && u != t :: d.held[u] == c.held[u])
      && d.held[t].messages == (if t in c.held then c.held[t].messages else []) + [m])
    ensures LearnsOnly(c, d, m)
  {
    forall u, i, k | Slot(d, u, i, k) ensures Slot(c, u, i, k) || Introduces(m, k) {
      if u != t { assert d.held[u] == c.held[u]; }
    }
  }

  lemma SameHoldLearns(c: Conn, d: Conn, m: Message)
    requires d.held == c.held
    requires forall k | k in d.sessions || k in d.browsers ::
      k in c.sessions || k in c.browsers || Introduces(m, k)
    ensures LearnsOnly(c, d, m)
  {
    forall u, i, k | Slot(d, u, i, k) ensures Slot(c, u, i, k) {}
  }

  lemma AttachedLearns(s: Side, m: Message, k: SessionId, info: TargetInfo)
    requires m.event == Attached(Some(k), Some(info))
    ensures LearnsOnly(s.conn, AttachedEvent(s, m, k, info).conn, m)
  {
    var c, d := s.conn, AttachedEvent(s, m, k, info).conn;
    assert Introduces(m, k);
    if d.held == c.held { SameHoldLearns(c, d, m); } else { PushLearns(c, d, info.target, m); }
  }

  lemma DetachedLearns(s: Side, m: Message, k: SessionId)
    ensures LearnsOnly(s.conn, DetachedEvent(s, m, k).conn, m)
  {
    var c, d := s.conn, DetachedEvent(s, m, k).conn;
    if k in c.heldSessions { PushLearns(c, d, c.heldSessions[k], m); } else { SameHoldLearns(c, d, m); }
  }

  lemma TargetLearns(s: Side, m: Message)
    requires m.event.IsTarget()
    ensures LearnsOnly(s.conn, TargetEvent(s, m).conn, m)
  {
    var c, d := s.conn, TargetEvent(s, m).conn;
    match m.event
    case Attached(Some(k), Some(info)) => AttachedLearns(s, m, k, info);
    case Detached(Some(k)) => DetachedLearns(s, m, k);
    case Announced(Some(info)) => PushLearns(c, d, info.target, m);
    case Gone(Some(t), _) => PushLearns(c, d, t, m);
    case _ => SameHoldLearns(c, d, m);
  }

  lemma BrowserLevelLearns(s: Side, m: Message)
    ensures LearnsOnly(s.conn, BrowserLevelEvent(s, m).conn, m)
  {
    if m.event.IsTarget() { TargetLearns(s, m); }
    else { SameHoldLearns(s.conn, BrowserLevelEvent(s, m).conn, m); }
  }

  lemma HandleLearns(s: Side, m: Message)
    ensures LearnsOnly(s.conn, Handle(s, m).conn, m)
  {
    match m.via
    case None => BrowserLevelLearns(s, m);
    case Some(k) =>
      if k in s.conn.heldSessions {
        PushLearns(s.conn, Handle(s, m).conn, s.conn.heldSessions[k], m);
      } else if k in s.conn.browsers {
        BrowserLevelLearns(s, m);
      } else if k in s.conn.sessions && m.event.IsTarget() {
        SameHoldLearns(s.conn, PageEvent(s, m, k).conn, m);
      } else {
        SameHoldLearns(s.conn, Handle(s, m).conn, m);
      }
  }

  lemma {:induction false} ReplayLearns(s: Side, ms: seq<Message>, n: nat, k: SessionId)
    requires n <= |ms| && Knows(Replay(s, ms[..n]).conn, ms[n..], k)
    ensures Knows(s.conn, ms, k)
  {
    if n == 0 {
      assert ms[..0] == [] && ms[0..] == ms;
    } else {
      var r := Replay(s, ms[..n - 1]);
      assert ms[..n][..n - 1] == ms[..n - 1] && ms[..n][n - 1] == ms[n - 1];
      HandleLearns(r, ms[n - 1]);
      var d := Handle(r, ms[n - 1]).conn;
      if Introduces(ms[n - 1], k) {
        assert InQueue(ms[n - 1..], 0, k);
      } else if i :| InQueue(ms[n..], i, k) {
        assert InQueue(ms[n - 1..], i + 1, k);
      } else if t, i :| Slot(d, t, i, k) {
        assert Slot(r.conn, t, i, k);
      }
      ReplayLearns(s, ms, n - 1, k);
    }
  }

  lemma SettleOneLearns(s: Side, t: TargetId, k: SessionId)
    requires Knows(SettleOne(s, t).conn, [], k)
    ensures Knows(s.conn, [], k)
  {
    if t in s.conn.held {
      var u, ms := s.(conn := Unhold(s.conn, t)), s.conn.held[t].messages;
      ReleasedSessions(u.conn, s.conn.held[t].sessions);
      if s.own.Owns(t) {
        assert ms[..|ms|] == ms && ms[|ms|..] == [];
        ReplayLearns(u, ms, |ms|, k);
        if i :| InQueue(ms, i, k) { assert Slot(s.conn, t, i, k); }
        if t', i :| Slot(u.conn, t', i, k) { assert Slot(s.conn, t', i, k); }
      } else if s.own.pending == 0 {
        if t', i :| Slot(SettleOne(s, t).conn, t', i, k) { assert Slot(s.conn, t', i, k); }
      }
    }
  }

  lemma {:induction false} SettleEachLearns(s: Side, ts: seq<TargetId>, k: SessionId)
    requires Knows(SettleEach(s, ts).conn, [], k)
    ensures Knows(s.conn, [], k)
  {
    if ts != [] {
      SettleOneLearns(SettleEach(s, ts[..|ts| - 1]), ts[|ts| - 1], k);
      SettleEachLearns(s, ts[..|ts| - 1], k);
    }
  }

  lemma {:induction false} SettleConnsLearns(w: World, n: nat, i: nat, k: SessionId)
    requires n <= |w.conns| && i < |w.conns| && Knows(SettleConns(w, n).conns[i], [], k)
    ensures Knows(w.conns[i], [], k)
  {
    if n > 0 {
      var before := SettleConns(w, n - 1);
      if i == n - 1 {
        SettleEachLearns(Side(before.own, before.conns[i]), before.conns[i].heldOrder, k);
      }
      SettleConnsLearns(w, n - 1, i, k);
    }
  }

  lemma {:induction false} AbandonLearns(w: World, n: nat, i: nat, k: SessionId)
    requires i < |w.conns|
    ensures |Abandon(w, n).conns| == |w.conns|
    ensures Knows(Abandon(w, n).conns[i], [], k) ==> Knows(w.conns[i], [], k)
  {
    if n > 0 {
      AbandonLearns(w, n - 1, i, k);
      var before := Abandon(w, n - 1);
      if Knows(Abandon(w, n).conns[i], [], k) {
        SettleConnsLearns(before.(own := CreditCreation(before.own, None)), |before.conns|, i, k);
      }
    }
  }

  lemma SameKnowledge(c: Conn, d: Conn, k: SessionId)
    requires d.sessions == c.sessions && d.browsers == c.browsers && d.held == c.held
    requires Knows(d, [], k)
    ensures Knows(c, [], k)
  {
    if t, i :| Slot(d, t, i, k) { assert Slot(c, t, i, k); }
  }

  /** Where connection i of the next world stood before the step. */
  function Before(a: Action, i: nat): nat {
    if a.Close? && i >= a.i then i + 1 else i
  }

  lemma MessageLearns(s: Side, m: Message, k: SessionId)
    requires Knows(Handle(s, m).conn, [], k) && !Introduces(m, k)
    ensures Knows(s.conn, [], k)
  {
    HandleLearns(s, m);
    if t, n :| Slot(Handle(s, m).conn, t, n, k) { assert Slot(s.conn, t, n, k); }
  }

  lemma CloseLearns(w: World, j: nat, i: nat, k: SessionId)
    requires j < |w.conns| && i < |Next(w, Close(j)).conns| && Knows(Next(w, Close(j)).conns[i], [], k)
    ensures Before(Close(j), i) < |w.conns| && Knows(w.conns[Before(Close(j), i)], [], k)
  {
    var rest := Removed(w, j);
    var n := |Creating(w.conns[j])|;
    AbandonCount(rest, n);
    AbandonLearns(rest, n, i, k);
  }

  /** A connection only learns the session ids Chromium introduces to it. */
  lemma StepLearns(w: World, a: Action, i: nat, k: SessionId)
    requires Enabled(w, a) && i < |Next(w, a).conns| && Knows(Next(w, a).conns[i], [], k)
    ensures (a.FromChromium? && a.i == i && Introduces(a.message, k))
         || (Before(a, i) < |w.conns| && Knows(w.conns[Before(a, i)], [], k))
  {
    match a
    case FromChromium(j, m) =>
      if i == j && !Introduces(m, k) { MessageLearns(At(w, i), m, k); }
    case Reply(j, id, answer) => ReplyLearns(w, a, i, k);
    case FromClient(j, client, session, verb, params) =>
      SameKnowledge(w.conns[i], Next(w, a).conns[i], k);
    case Close(j) => CloseLearns(w, j, i, k);
    case NewFinished(created) =>
      SettleConnsLearns(w.(http := w.http - 1, own := CreditCreation(w.own, created)), |w.conns|, i, k);
    case Grant(t) => SameKnowledge(w.conns[i], Next(w, a).conns[i], k);
    case _ =>
  }

  lemma {:induction false} AbandonCount(w: World, n: nat)
    ensures |Abandon(w, n).conns| == |w.conns|
  {
    if n > 0 { AbandonCount(w, n - 1); }
  }

  lemma ReplyLearns(w: World, a: Action, i: nat, k: SessionId)
    requires a.Reply? && Enabled(w, a) && i < |Next(w, a).conns| && Knows(Next(w, a).conns[i], [], k)
    ensures i < |w.conns| && Knows(w.conns[i], [], k)
  {
    var c := w.conns[a.i];
    if a.id in c.inflight {
      var taken := Taken(w, a.i, a.id);
      var created := CreatedTarget(a.answer);
      var credited := if c.inflight[a.id].CreatesTarget() then CreationFinished(taken, created) else taken;
      SameKnowledge(credited.conns[i], Next(w, a).conns[i], k);
      if c.inflight[a.id].CreatesTarget() {
        SettleConnsLearns(taken.(own := CreditCreation(taken.own, created)), |taken.conns|, i, k);
      }
      SameKnowledge(w.conns[i], taken.conns[i], k);
    }
  }

  // ---- dropped for good ----

  ghost predicate Apart(w: World) {
    forall i, j, k | 0 <= i < j < |w.conns| && Knows(w.conns[i], [], k) :: !Knows(w.conns[j], [], k)
  }

  lemma KnownIsSeen(c: Conn, seen: set<SessionId>, k: SessionId)
    requires Planted(c, [], seen) && Knows(c, [], k)
    ensures k in seen
  {
  }

  lemma StepApart(w: World, a: Action, seen: set<SessionId>)
    requires Enabled(w, a) && AllPlanted(w.conns, seen) && Apart(w)
    requires a.FromChromium? ==> forall k | Introduces(a.message, k) :: k !in seen
    ensures Apart(Next(w, a))
  {
    var r := Next(w, a);
    forall i, j, k | 0 <= i < j < |r.conns| && Knows(r.conns[i], [], k) ensures !Knows(r.conns[j], [], k) {
      if Knows(r.conns[j], [], k) {
        StepLearns(w, a, i, k);
        StepLearns(w, a, j, k);
        var bi, bj := Before(a, i), Before(a, j);
        if bi < |w.conns| && Knows(w.conns[bi], [], k) { KnownIsSeen(w.conns[bi], seen, k); }
        if bj < |w.conns| && Knows(w.conns[bj], [], k) { KnownIsSeen(w.conns[bj], seen, k); }
      }
    }
  }

  lemma {:induction false} RunApart(worlds: seq<World>, actions: seq<Action>, targets: set<TargetId>, k: nat)
    requires IsRun(worlds, actions, targets) && FreshSessions(actions) && k < |worlds|
    ensures Apart(worlds[k])
  {
    if k > 0 {
      RunApart(worlds, actions, targets, k - 1);
      RunPlanted(worlds, actions, targets, k - 1);
      assert Enabled(worlds[k - 1], actions[k - 1]);
      StepApart(worlds[k - 1], actions[k - 1], Seen(actions[..k - 1]));
    }
  }

  ghost predicate Dead(w: World, s: SessionId) {
    forall i | 0 <= i < |w.conns| :: !Knows(w.conns[i], [], s)
  }

  lemma StepDead(w: World, a: Action, s: SessionId)
    requires Enabled(w, a) && Dead(w, s) && (a.FromChromium? ==> !Introduces(a.message, s))
    ensures Dead(Next(w, a), s)
  {
    var r := Next(w, a);
    forall i | 0 <= i < |r.conns| ensures !Knows(r.conns[i], [], s) {
      if Knows(r.conns[i], [], s) { StepLearns(w, a, i, s); }
    }
  }

  lemma {:induction false} DeadStaysDead(worlds: seq<World>, actions: seq<Action>, targets: set<TargetId>,
                                         k: nat, k': nat, s: SessionId)
    requires IsRun(worlds, actions, targets) && FreshSessions(actions) && k <= k' < |worlds|
    requires s in Seen(actions[..k]) && Dead(worlds[k], s)
    ensures Dead(worlds[k'], s) && s in Seen(actions[..k'])
  {
    if k < k' {
      var j := k' - 1;
      DeadStaysDead(worlds, actions, targets, k, j, s);
      DeadNext(worlds, actions, targets, j, s);
      assert j + 1 == k';
    }
  }

  lemma DeadNext(worlds: seq<World>, actions: seq<Action>, targets: set<TargetId>, k: nat, s: SessionId)
    requires IsRun(worlds, actions, targets) && FreshSessions(actions) && k < |actions|
    requires s in Seen(actions[..k]) && Dead(worlds[k], s)
    ensures Dead(worlds[k + 1], s) && s in Seen(actions[..k + 1])
  {
    FreshStep(actions, k);
    RunStep(worlds, actions, targets, k);
    StepDead(worlds[k], actions[k], s);
  }
}
