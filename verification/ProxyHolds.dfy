/** Bookkeeping of held targets: the key order names exactly the held targets, and every held
    session is listed by the target it is held for. */
module ProxyHolds {
  import opened Wrappers
  import opened ProxyModel

  ghost predicate Ordered(c: Conn) {
    forall t :: t in c.held <==> t in c.heldOrder
  }

  ghost predicate SessionsListed(c: Conn) {
    forall k | k in c.heldSessions ::
      c.heldSessions[k] in c.held && k in Ids(c.held[c.heldSessions[k]].sessions)
  }

  ghost predicate Kept(c: Conn) {
    Ordered(c) && SessionsListed(c)
  }

  lemma {:induction false} WithoutMembers(order: seq<TargetId>, t: TargetId)
    ensures forall x :: x in Without(order, t) <==> x in order && x != t
  {
    if order != [] {
      var front, last := order[..|order| - 1], order[|order| - 1];
      WithoutMembers(front, t);
      assert order == front + [last];
    }
  }

  lemma {:induction false} PutSessionIds(xs: seq<(SessionId, Option<SessionId>)>, id: SessionId,
                                         via: Option<SessionId>)
    ensures Ids(PutSession(xs, id, via)) == Ids(xs) + {id}
  {
    if xs == [] {
      assert Ids([(id, via)]) == {id};
    } else if xs[0].0 == id {
      IdsCons(xs[0], xs[1..]);
      IdsCons((id, via), xs[1..]);
      assert [xs[0]] + xs[1..] == xs;
    } else {
      PutSessionIds(xs[1..], id, via);
      IdsCons(xs[0], xs[1..]);
      IdsCons(xs[0], PutSession(xs[1..], id, via));
      assert [xs[0]] + xs[1..] == xs;
    }
  }

  lemma IdsCons(x: (SessionId, Option<SessionId>), xs: seq<(SessionId, Option<SessionId>)>)
    ensures Ids([x] + xs) == {x.0} + Ids(xs)
  {
    assert ([x] + xs)[0] == x;
    assert forall y | y in xs :: y in [x] + xs;
  }

  lemma HoldKept(c: Conn, t: TargetId, m: Message, session: Option<(SessionId, Option<SessionId>)>)
    requires Kept(c)
    ensures Kept(Hold(c, t, m, session))
  {
    if session.Some? {
      var xs := if t in c.held then c.held[t].sessions else [];
      PutSessionIds(xs, session.value.0, session.value.1);
    }
  }

  lemma PushKept(c: Conn, t: TargetId, m: Message)
    requires Kept(c)
    ensures Kept(c.(held := PushTo(c.held, t, m)))
  {
  }

  lemma UnholdKept(c: Conn, t: TargetId)
    requires Kept(c) && t in c.held
    ensures Kept(Unhold(c, t)) && t !in Unhold(c, t).held
  {
    WithoutMembers(c.heldOrder, t);
  }

  /** From s to r nothing left the hold, and something entered it only while a creation is
      pending. */
  ghost predicate Holding(s: Side, r: Side) {
    && Kept(r.conn) && s.conn.held.Keys <= r.conn.held.Keys
    && r.own.pending == s.own.pending
    && (s.own.pending == 0 ==> r.conn.held.Keys == s.conn.held.Keys)
  }

  lemma AttachedKept(s: Side, m: Message, k: SessionId, info: TargetInfo)
    requires Kept(s.conn)
    ensures Holding(s, AttachedEvent(s, m, k, info))
  {
    HoldKept(s.conn, info.target, m, Some((k, m.via)));
  }

  lemma DetachedKept(s: Side, m: Message, k: SessionId)
    requires Kept(s.conn)
    ensures Holding(s, DetachedEvent(s, m, k))
  {
    if k in s.conn.heldSessions { PushKept(s.conn, s.conn.heldSessions[k], m); }
  }

  lemma TargetKept(s: Side, m: Message)
    requires Kept(s.conn) && m.event.IsTarget()
    ensures Holding(s, TargetEvent(s, m))
  {
    match m.event
    case Attached(Some(k), Some(info)) => AttachedKept(s, m, k, info);
    case Detached(Some(k)) => DetachedKept(s, m, k);
    case Announced(Some(info)) => HoldKept(s.conn, info.target, m, None);
    case Gone(Some(t), _) => HoldKept(s.conn, t, m, None);
    case _ =>
  }

  lemma BrowserLevelKept(s: Side, m: Message)
    requires Kept(s.conn)
    ensures Holding(s, BrowserLevelEvent(s, m))
  {
    if m.event.IsTarget() { TargetKept(s, m); }
  }

  lemma PageKept(s: Side, m: Message, page: SessionId)
    requires Kept(s.conn) && m.event.IsTarget()
    ensures Holding(s, PageEvent(s, m, page))
  {
    var r := PageEvent(s, m, page);
    assert r.conn.held == s.conn.held && r.conn.heldOrder == s.conn.heldOrder;
    assert r.conn.heldSessions == s.conn.heldSessions;
  }

  lemma SessionKept(s: Side, m: Message, k: SessionId)
    requires Kept(s.conn) && m.via == Some(k) && k !in s.conn.heldSessions && k !in s.conn.browsers
    ensures Holding(s, Handle(s, m))
  {
    if k in s.conn.sessions && m.event.IsTarget() { PageKept(s, m, k); }
  }

  /** Handling a message never takes a target out of the hold, and adds one only while a creation
      is pending. */
  lemma HandleKept(s: Side, m: Message)
    requires Kept(s.conn)
    ensures Holding(s, Handle(s, m))
  {
    match m.via
    case None => BrowserLevelKept(s, m);
    case Some(k) =>
      if k in s.conn.heldSessions {
        PushKept(s.conn, s.conn.heldSessions[k], m);
      } else if k in s.conn.browsers {
        BrowserLevelKept(s, m);
      } else {
        SessionKept(s, m, k);
      }
  }

  lemma {:induction false} ReplayKept(s: Side, ms: seq<Message>)
    requires Kept(s.conn)
    ensures Holding(s, Replay(s, ms))
  {
    if ms != [] {
      ReplayKept(s, ms[..|ms| - 1]);
      HandleKept(Replay(s, ms[..|ms| - 1]), ms[|ms| - 1]);
    }
  }

  lemma {:induction false} ReleaseAllHolds(c: Conn, xs: seq<(SessionId, Option<SessionId>)>)
    ensures var r := ReleaseAll(c, xs);
      r.held == c.held && r.heldOrder == c.heldOrder && r.heldSessions == c.heldSessions
  {
    if xs != [] { ReleaseAllHolds(c, xs[..|xs| - 1]); }
  }

  lemma SettleOneKept(s: Side, t: TargetId)
    requires Kept(s.conn)
    ensures Kept(SettleOne(s, t).conn) && SettleOne(s, t).own.pending == s.own.pending
    ensures s.own.pending == 0 ==> SettleOne(s, t).conn.held.Keys == s.conn.held.Keys - {t}
  {
    if t in s.conn.held {
      UnholdKept(s.conn, t);
      ReplayKept(s.(conn := Unhold(s.conn, t)), s.conn.held[t].messages);
      ReleaseAllHolds(Unhold(s.conn, t), s.conn.held[t].sessions);
    }
  }
}
