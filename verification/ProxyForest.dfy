/** The session forest: while Chromium never reuses a session id, every owned session hangs, without
    cycles, from the browser socket or a live browser-level session. */
module ProxyForest {
  import opened Wrappers
  import opened ProxyModel
  import opened ProxyWorld

  /** Following parents from k ends at the browser socket or a live browser-level session. */
  ghost predicate Rooted(sessions: map<SessionId, SessionId>, browsers: set<SessionId>, k: SessionId) {
    exists r: SessionId, n: nat :: Above(sessions, k, r, n) && r !in sessions
                                   && (r == BROWSER_SOCKET || r in browsers)
  }

  ghost predicate Forest(sessions: map<SessionId, SessionId>, browsers: set<SessionId>) {
    forall k | k in sessions :: Rooted(sessions, browsers, k)
  }

  predicate Introduces(m: Message, k: SessionId) {
    m.event.Attached? && m.event.session == Some(k)
  }

  /** Held message i of target t introduces session k. */
  predicate Slot(c: Conn, t: TargetId, i: int, k: SessionId) {
    t in c.held && 0 <= i < |c.held[t].messages| && Introduces(c.held[t].messages[i], k)
  }

  predicate InQueue(queue: seq<Message>, i: int, k: SessionId) {
    0 <= i < |queue| && Introduces(queue[i], k)
  }

  /** Session ids that held messages, and messages about to be replayed, still have to introduce
      are all different, were seen, and are not in use. */
  ghost predicate Waiting(c: Conn, queue: seq<Message>, seen: set<SessionId>) {
    && (forall t, i, k | Slot(c, t, i, k) :: Unused(c, seen, k))
    && (forall i, k | InQueue(queue, i, k) :: Unused(c, seen, k))
    && (forall t, i, t', i', k | Slot(c, t, i, k) && Slot(c, t', i', k) :: t == t' && i == i')
    && (forall i, i', k | InQueue(queue, i, k) && InQueue(queue, i', k) :: i == i')
    && (forall t, i, i', k | Slot(c, t, i, k) && InQueue(queue, i', k) :: false)
  }

  predicate Unused(c: Conn, seen: set<SessionId>, k: SessionId) {
    k in seen && k !in c.sessions && k !in c.browsers
  }

  ghost predicate Planted(c: Conn, queue: seq<Message>, seen: set<SessionId>) {
    && BROWSER_SOCKET !in seen && c.sessions.Keys <= seen && c.browsers <= seen
    && c.sessions.Keys !! c.browsers
    && Forest(c.sessions, c.browsers)
    && Waiting(c, queue, seen)
  }

  // ---- chains ----

  lemma {:induction false} LongerChain(m: map<SessionId, SessionId>, m': map<SessionId, SessionId>,
                                       k: SessionId, r: SessionId, n: nat)
    requires Above(m, k, r, n) && forall x | x in m :: x in m' && m'[x] == m[x]
    ensures Above(m', k, r, n)
    decreases n
  {
    if n > 0 { LongerChain(m, m', m[k], r, n - 1); }
  }

  lemma {:induction false} PrunedChain(m: map<SessionId, SessionId>, s: SessionId, k: SessionId,
                                       r: SessionId, n: nat)
    requires Above(m, k, r, n) && !Under(m, k, s)
    ensures Above(DropTree(m, s), k, r, n)
    decreases n
  {
    if n > 0 {
      if Under(m, m[k], s) {
        var j: nat :| Above(m, m[k], s, j);
        assert Above(m, k, s, j + 1);
      }
      PrunedChain(m, s, m[k], r, n - 1);
    }
  }

  lemma AddLeaf(m: map<SessionId, SessionId>, browsers: set<SessionId>, k: SessionId, parent: SessionId)
    requires Forest(m, browsers) && k !in m && k !in browsers && k != BROWSER_SOCKET
    requires parent == BROWSER_SOCKET || parent in browsers || parent in m
    requires m.Keys !! browsers && BROWSER_SOCKET !in m
    ensures Forest(m[k := parent], browsers)
  {
    var m' := m[k := parent];
    forall x | x in m' ensures Rooted(m', browsers, x) {
      if x != k || parent in m {
        var y := if x == k then parent else x;
        var r: SessionId, n: nat :| Above(m, y, r, n) && r !in m && (r == BROWSER_SOCKET || r in browsers);
        LongerChain(m, m', y, r, n);
        if x == k { assert Above(m', k, r, n + 1); }
      } else {
        assert Above(m', parent, parent, 0);
        assert Above(m', k, parent, 1);
      }
    }
  }

  lemma DropKeepsForest(m: map<SessionId, SessionId>, browsers: set<SessionId>, s: SessionId)
    requires Forest(m, browsers)
    ensures Forest(DropTree(m, s), browsers - {s})
    ensures Forest(DropTree(m, s), browsers)
  {
    var m' := DropTree(m, s);
    forall x | x in m' ensures Rooted(m', browsers - {s}, x) && Rooted(m', browsers, x) {
      var r: SessionId, n: nat :| Above(m, x, r, n) && r !in m && (r == BROWSER_SOCKET || r in browsers);
      PrunedChain(m, s, x, r, n);
      assert r != s;
    }
  }

  // ---- no cycles ----

  lemma {:induction false} NoReturn(m: map<SessionId, SessionId>, k: SessionId, r: SessionId, a: nat, b: nat)
    requires Above(m, k, r, a) && r !in m && b > 0
    ensures !Above(m, k, k, b)
    decreases a
  {
    if Above(m, k, k, b) {
      ChainKeys(m, k, k, b, r, a);
      if a >= b { NoReturn(m, k, r, a - b, b); }
    }
  }

  /** A chain of b links shares its first links with a longer one. */
  lemma {:induction false} ChainKeys(m: map<SessionId, SessionId>, k: SessionId, x: SessionId, b: nat,
                                     r: SessionId, a: nat)
    requires Above(m, k, x, b) && Above(m, k, r, a)
    ensures a >= b ==> Above(m, x, r, a - b)
    ensures a < b ==> r in m
    decreases b
  {
    if b > 0 && a > 0 { ChainKeys(m, m[k], x, b - 1, r, a - 1); }
  }

  /** No session is its own ancestor. */
  lemma ForestIsAcyclic(m: map<SessionId, SessionId>, browsers: set<SessionId>, k: SessionId, n: nat)
    requires Forest(m, browsers) && k in m && n > 0
    ensures !Above(m, k, k, n)
  {
    var r: SessionId, a: nat :| Above(m, k, r, a) && r !in m && (r == BROWSER_SOCKET || r in browsers);
    NoReturn(m, k, r, a, n);
  }

  // ---- one message ----

  /** The session id the message introduces, if any, was never used or promised before. */
  ghost predicate Novel(c: Conn, queue: seq<Message>, seen: set<SessionId>, m: Message) {
    forall k | Introduces(m, k) ::
      && Unused(c, seen, k)
      && (forall t, i :: !Slot(c, t, i, k)) && (forall i :: !InQueue(queue, i, k))
  }

  /** c and d hold the same messages, and every id unused in c is unused in d, except those that m
      introduces. */
  ghost predicate UsesOnly(c: Conn, d: Conn, m: Message) {
    && d.held == c.held
    && forall k | (k in d.sessions || k in d.browsers) && k !in c.sessions && k !in c.browsers ::
         Introduces(m, k)
  }

  lemma StillWaiting(c: Conn, d: Conn, queue: seq<Message>, seen: set<SessionId>, m: Message)
    requires Waiting(c, queue, seen) && Novel(c, queue, seen, m) && UsesOnly(c, d, m)
    ensures Waiting(d, queue, seen)
  {
    assert forall t, i, k :: Slot(d, t, i, k) <==> Slot(c, t, i, k);
  }

  lemma PushedWaiting(c: Conn, d: Conn, t: TargetId, queue: seq<Message>, seen: set<SessionId>, m: Message)
    requires Waiting(c, queue, seen) && Novel(c, queue, seen, m)
    requires d.sessions == c.sessions && d.browsers == c.browsers
    requires t in d.held && forall u | u != t :: (u in d.held <==> u in c.held) && (u in c.held ==> d.held[u] == c.held[u])
    requires d.held[t].messages == (if t in c.held then c.held[t].messages else []) + [m]
    ensures Waiting(d, queue, seen)
  {
    var last := |d.held[t].messages| - 1;
    forall u, i, k | Slot(d, u, i, k)
      ensures Slot(c, u, i, k) || (u == t && i == last && Introduces(m, k))
    {
      if u != t { assert d.held[u] == c.held[u]; }
    }
  }

  lemma AttachedPlanted(s: Side, m: Message, k: SessionId, info: TargetInfo, queue: seq<Message>,
                        seen: set<SessionId>)
    requires Planted(s.conn, queue, seen) && Novel(s.conn, queue, seen, m)
    requires m.event == Attached(Some(k), Some(info))
    requires m.via.Some? ==> m.via.value in s.conn.browsers
    ensures Planted(AttachedEvent(s, m, k, info).conn, queue, seen)
  {
    var c, d := s.conn, AttachedEvent(s, m, k, info).conn;
    var parent := if m.via.Some? then m.via.value else BROWSER_SOCKET;
    assert Introduces(m, k);
    if d.held != c.held {
      PushedWaiting(c, d, info.target, queue, seen, m);
    } else {
      StillWaiting(c, d, queue, seen, m);
    }
    if d.sessions != c.sessions {
      AddLeaf(c.sessions, c.browsers, k, parent);
    } else {
      MoreBrowsers(c.sessions, c.browsers, d.browsers);
    }
  }

  lemma MoreBrowsers(m: map<SessionId, SessionId>, browsers: set<SessionId>, more: set<SessionId>)
    requires Forest(m, browsers) && browsers <= more
    ensures Forest(m, more)
  {
    forall k | k in m ensures Rooted(m, more, k) {
      var r: SessionId, n: nat :| Above(m, k, r, n) && r !in m && (r == BROWSER_SOCKET || r in browsers);
    }
  }

  lemma PushPlanted(c: Conn, t: TargetId, m: Message, queue: seq<Message>, seen: set<SessionId>)
    requires Planted(c, queue, seen) && Novel(c, queue, seen, m)
    ensures Planted(c.(held := PushTo(c.held, t, m)), queue, seen)
  {
    if t in c.held { PushedWaiting(c, c.(held := PushTo(c.held, t, m)), t, queue, seen, m); }
  }

  lemma DropPlanted(c: Conn, k: SessionId, m: Message, queue: seq<Message>, seen: set<SessionId>)
    requires Planted(c, queue, seen) && Novel(c, queue, seen, m)
    ensures Planted(c.(sessions := DropTree(c.sessions, k)), queue, seen)
    ensures Planted(c.(sessions := DropTree(c.sessions, k), browsers := c.browsers - {k}), queue, seen)
  {
    DropKeepsForest(c.sessions, c.browsers, k);
    var d := c.(sessions := DropTree(c.sessions, k));
    StillWaiting(c, d, queue, seen, m);
    StillWaiting(c, d.(browsers := c.browsers - {k}), queue, seen, m);
  }

  /** Changes that touch neither sessions nor the hold. */
  lemma UntouchedPlanted(c: Conn, d: Conn, queue: seq<Message>, seen: set<SessionId>)
    requires Planted(c, queue, seen)
    requires d.sessions == c.sessions && d.browsers == c.browsers && d.held == c.held
    ensures Planted(d, queue, seen)
  {
    assert forall t, i, k :: Slot(d, t, i, k) <==> Slot(c, t, i, k);
  }

  lemma TargetPlanted(s: Side, m: Message, queue: seq<Message>, seen: set<SessionId>)
    requires Planted(s.conn, queue, seen) && Novel(s.conn, queue, seen, m) && m.event.IsTarget()
    requires m.via.Some? ==> m.via.value in s.conn.browsers
    ensures Planted(TargetEvent(s, m).conn, queue, seen)
  {
    var d := TargetEvent(s, m).conn;
    match m.event
    case Attached(Some(k), Some(info)) => AttachedPlanted(s, m, k, info, queue, seen);
    case Detached(Some(k)) =>
      if k in s.conn.heldSessions {
        PushPlanted(s.conn, s.conn.heldSessions[k], m, queue, seen);
      } else {
        DropPlanted(s.conn, k, m, queue, seen);
        if k in s.conn.browsers {
          UntouchedPlanted(s.conn.(sessions := DropTree(s.conn.sessions, k),
                                   browsers := s.conn.browsers - {k}), d, queue, seen);
        } else if k in s.conn.sessions {
          UntouchedPlanted(s.conn.(sessions := DropTree(s.conn.sessions, k)), d, queue, seen);
        }
      }
    case Announced(Some(info)) =>
      if d.held == s.conn.held { UntouchedPlanted(s.conn, d, queue, seen); }
      else { PushedWaiting(s.conn, d, info.target, queue, seen, m); }
    case Gone(Some(t), _) =>
      if d.held == s.conn.held { UntouchedPlanted(s.conn, d, queue, seen); }
      else { PushedWaiting(s.conn, d, t, queue, seen, m); }
    case _ =>
  }

  lemma BrowserLevelPlanted(s: Side, m: Message, queue: seq<Message>, seen: set<SessionId>)
    requires Planted(s.conn, queue, seen) && Novel(s.conn, queue, seen, m)
    requires m.via.Some? ==> m.via.value in s.conn.browsers
    ensures Planted(BrowserLevelEvent(s, m).conn, queue, seen)
  {
    if m.event.IsTarget() {
      TargetPlanted(s, m, queue, seen);
    } else {
      UntouchedPlanted(s.conn, BrowserLevelEvent(s, m).conn, queue, seen);
    }
  }

  lemma PagePlanted(s: Side, m: Message, page: SessionId, queue: seq<Message>, seen: set<SessionId>)
    requires Planted(s.conn, queue, seen) && Novel(s.conn, queue, seen, m) && m.event.IsTarget()
    requires page in s.conn.sessions
    ensures Planted(PageEvent(s, m, page).conn, queue, seen)
  {
    var d := PageEvent(s, m, page).conn;
    match m.event
    case Attached(Some(k), Some(info)) =>
      assert Introduces(m, k);
      AddLeaf(s.conn.sessions, s.conn.browsers, k, page);
      StillWaiting(s.conn, d, queue, seen, m);
    case Detached(Some(k)) =>
      DropPlanted(s.conn, k, m, queue, seen);
      UntouchedPlanted(s.conn.(sessions := DropTree(s.conn.sessions, k)), d, queue, seen);
    case _ => UntouchedPlanted(s.conn, d, queue, seen);
  }

  lemma HandlePlanted(s: Side, m: Message, queue: seq<Message>, seen: set<SessionId>)
    requires Planted(s.conn, queue, seen) && Novel(s.conn, queue, seen, m)
    ensures Planted(Handle(s, m).conn, queue, seen)
  {
    match m.via
    case None => BrowserLevelPlanted(s, m, queue, seen);
    case Some(k) =>
      if k in s.conn.heldSessions {
        PushPlanted(s.conn, s.conn.heldSessions[k], m, queue, seen);
      } else if k in s.conn.browsers {
        BrowserLevelPlanted(s, m, queue, seen);
      } else if k in s.conn.sessions {
        if m.event.IsTarget() { PagePlanted(s, m, k, queue, seen); }
        else { UntouchedPlanted(s.conn, Handle(s, m).conn, queue, seen); }
      }
  }

  // ---- replaying and settling ----

  lemma NextInQueue(c: Conn, queue: seq<Message>, seen: set<SessionId>)
    requires Planted(c, queue, seen) && queue != []
    ensures Planted(c, queue[1..], seen) && Novel(c, queue[1..], seen, queue[0])
  {
    forall i, k ensures InQueue(queue[1..], i, k) <==> i >= 0 && InQueue(queue, i + 1, k) {}
    forall k | Introduces(queue[0], k) ensures InQueue(queue, 0, k) {}
    forall i, i', k | InQueue(queue[1..], i, k) && InQueue(queue[1..], i', k) ensures i == i' {
      assert InQueue(queue, i + 1, k) && InQueue(queue, i' + 1, k);
    }
  }

  lemma {:induction false} ReplayPlanted(s: Side, ms: seq<Message>, n: nat, seen: set<SessionId>)
    requires Planted(s.conn, ms, seen) && n <= |ms|
    ensures Planted(Replay(s, ms[..n]).conn, ms[n..], seen)
  {
    if n == 0 {
      assert ms[..0] == [] && ms[0..] == ms;
    } else {
      ReplayPlanted(s, ms, n - 1, seen);
      assert ms[..n][..n - 1] == ms[..n - 1] && ms[..n][n - 1] == ms[n - 1];
      assert ms[n - 1..][1..] == ms[n..] && ms[n - 1..][0] == ms[n - 1];
      var r := Replay(s, ms[..n - 1]);
      NextInQueue(r.conn, ms[n - 1..], seen);
      HandlePlanted(r, ms[n - 1], ms[n..], seen);
    }
  }

  lemma UnholdPlanted(c: Conn, t: TargetId, seen: set<SessionId>)
    requires Planted(c, [], seen) && t in c.held
    ensures Planted(Unhold(c, t), c.held[t].messages, seen)
    ensures Planted(Unhold(c, t), [], seen)
  {
    var d, ms := Unhold(c, t), c.held[t].messages;
    forall u, i, k ensures Slot(d, u, i, k) <==> u != t && Slot(c, u, i, k) {}
    forall i, k ensures InQueue(ms, i, k) <==> Slot(c, t, i, k) {}
  }

  lemma {:induction false} ReleasedSessions(c: Conn, xs: seq<(SessionId, Option<SessionId>)>)
    ensures var r := ReleaseAll(c, xs);
      r.sessions == c.sessions && r.browsers == c.browsers && r.held == c.held
  {
    if xs != [] { ReleasedSessions(c, xs[..|xs| - 1]); }
  }

  lemma SettleOnePlanted(s: Side, t: TargetId, seen: set<SessionId>)
    requires Planted(s.conn, [], seen)
    ensures Planted(SettleOne(s, t).conn, [], seen)
  {
    if t in s.conn.held {
      var ms := s.conn.held[t].messages;
      UnholdPlanted(s.conn, t, seen);
      if s.own.Owns(t) {
        ReplayPlanted(s.(conn := Unhold(s.conn, t)), ms, |ms|, seen);
        assert ms[..|ms|] == ms && ms[|ms|..] == [];
      } else if s.own.pending == 0 {
        ReleasedSessions(Unhold(s.conn, t), s.conn.held[t].sessions);
        UntouchedPlanted(Unhold(s.conn, t), SettleOne(s, t).conn, [], seen);
      }
    }
  }

  lemma {:induction false} SettleEachPlanted(s: Side, ts: seq<TargetId>, seen: set<SessionId>)
    requires Planted(s.conn, [], seen)
    ensures Planted(SettleEach(s, ts).conn, [], seen)
  {
    if ts != [] {
      SettleEachPlanted(s, ts[..|ts| - 1], seen);
      SettleOnePlanted(SettleEach(s, ts[..|ts| - 1]), ts[|ts| - 1], seen);
    }
  }

  ghost predicate AllPlanted(conns: seq<Conn>, seen: set<SessionId>) {
    forall i | 0 <= i < |conns| :: Planted(conns[i], [], seen)
  }

  lemma {:induction false} SettleConnsPlanted(w: World, n: nat, seen: set<SessionId>)
    requires n <= |w.conns| && AllPlanted(w.conns, seen)
    ensures AllPlanted(SettleConns(w, n).conns, seen)
  {
    if n > 0 {
      SettleConnsPlanted(w, n - 1, seen);
      var before := SettleConns(w, n - 1);
      SettleEachPlanted(Side(before.own, before.conns[n - 1]), before.conns[n - 1].heldOrder, seen);
    }
  }

  lemma {:induction false} AbandonPlanted(w: World, n: nat, seen: set<SessionId>)
    requires AllPlanted(w.conns, seen)
    ensures AllPlanted(Abandon(w, n).conns, seen)
  {
    if n > 0 {
      AbandonPlanted(w, n - 1, seen);
      var before := Abandon(w, n - 1);
      SettleConnsPlanted(before.(own := CreditCreation(before.own, None)), |before.conns|, seen);
    }
  }
}
