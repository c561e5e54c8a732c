/** One connection that holds a page, beside one that knows it is owned: they agree at every step,
    and settling makes them the same. */
module ProxyReplay {
  import opened Wrappers
  import opened ProxyModel
  import opened ProxyHolds
  import opened ProxyForesight

  function HeldMessages(f: Page, c: Conn): seq<Message> {
    if f.target in c.held then c.held[f.target].messages else []
  }

  /** The page is not owned and a creation is pending, so what names it is held. */
  ghost predicate Unjudged(f: Page, s: Side) {
    && Sane(f, s) && Kept(s.conn)
    && !s.own.Owns(f.target) && s.own.pending > 0
    && (forall m | m in HeldMessages(f, s.conn) :: Belongs(f, m) && Arrives(f, s, m))
  }

  /** The message goes to the page's hold entry. */
  predicate Routed(f: Page, s: Side, m: Message) {
    && Belongs(f, m) && Arrives(f, s, m)
    && if FromPage(f, m) then m.via.value in s.conn.heldSessions
       else match m.event
            case Attached(_, info) => info.Some? && !Opened(s.own, info.value)
            case Announced(info) => info.Some? && !Opened(s.own, info.value)
            case Detached(session) => session.Some? && session.value in s.conn.heldSessions
            case Gone(_, _) => f.target in s.conn.held
            case _ => false
  }

  predicate Opened(own: Ownership, info: TargetInfo) {
    info.opener.Some? && own.Owns(info.opener.value)
  }

  function Granted(f: Page, s: Side): Side {
    s.(own := s.own.(pages := s.own.pages + {f.target}))
  }

  // ---- one routed message ----

  lemma HeldInside(f: Page, c: Conn, m: Message, session: Option<(SessionId, Option<SessionId>)>)
    requires HeldElsewhere(f, c.held)
    requires session.Some? ==> session.value.0 in f.sessions
    ensures HeldElsewhere(f, Hold(c, f.target, m, session).held)
  {
    var xs := if f.target in c.held then c.held[f.target].sessions else [];
    if session.Some? { PutSessionMembers(xs, session.value.0, session.value.1); }
  }

  lemma HeldUnjudged(f: Page, s: Side, m: Message, session: Option<(SessionId, Option<SessionId>)>)
    requires Unjudged(f, s) && Belongs(f, m) && Arrives(f, s, m)
    requires session.Some? ==> session.value.0 in f.sessions
    ensures var r := s.(conn := Hold(s.conn, f.target, m, session));
      Unjudged(f, r) && HeldMessages(f, r.conn) == HeldMessages(f, s.conn) + [m]
  {
    HoldKept(s.conn, f.target, m, session);
    HeldInside(f, s.conn, m, session);
  }

  lemma HeldOuter(f: Page, c: Conn, m: Message, session: Option<(SessionId, Option<SessionId>)>)
    requires session.Some? ==> session.value.0 in f.sessions
    ensures var h := Hold(c, f.target, m, session);
      && h.held - {f.target} == c.held - {f.target}
      && Without(h.heldOrder, f.target) == Without(c.heldOrder, f.target)
      && h.heldSessions - f.sessions == c.heldSessions - f.sessions
  {
    var h := Hold(c, f.target, m, session);
    PutInside(c.held, f.target, h.held[f.target], {f.target});
    if session.Some? { PutInside(c.heldSessions, session.value.0, f.target, f.sessions); }
    WithoutAppend(c.heldOrder, f.target, f.target);
    assert Without(c.heldOrder, f.target) + [] == Without(c.heldOrder, f.target);
  }

  lemma PutInside<V>(m: map<nat, V>, k: nat, v: V, gone: set<nat>)
    requires k in gone
    ensures m[k := v] - gone == m - gone
  {
  }

  lemma HoldRouted(f: Page, s: Side, m: Message, session: Option<(SessionId, Option<SessionId>)>)
    requires Unjudged(f, s) && Belongs(f, m) && Arrives(f, s, m)
    requires session.Some? ==> session.value.0 in f.sessions
    ensures var r := s.(conn := Hold(s.conn, f.target, m, session));
      && Unjudged(f, r) && Outer(f, r) == Outer(f, s) && Inner(f, r) == Inner(f, s)
      && HeldMessages(f, r.conn) == HeldMessages(f, s.conn) + [m]
  {
    HeldUnjudged(f, s, m, session);
    HeldOuter(f, s.conn, m, session);
  }

  lemma PushRouted(f: Page, s: Side, m: Message, k: SessionId)
    requires Unjudged(f, s) && Belongs(f, m) && Arrives(f, s, m)
    requires k in s.conn.heldSessions && k in f.sessions
    ensures var r := s.(conn := s.conn.(held := PushTo(s.conn.held, s.conn.heldSessions[k], m)));
      && Unjudged(f, r) && Outer(f, r) == Outer(f, s) && Inner(f, r) == Inner(f, s)
      && HeldMessages(f, r.conn) == HeldMessages(f, s.conn) + [m]
  {
    PushKept(s.conn, f.target, m);
    assert PushTo(s.conn.held, f.target, m) - {f.target} == s.conn.held - {f.target};
  }

  lemma AnnouncedHeld(f: Page, s: Side, m: Message, info: TargetInfo,
                      session: Option<(SessionId, Option<SessionId>)>)
    requires Unjudged(f, s) && Belongs(f, m) && Arrives(f, s, m) && info.target == f.target
    requires session.Some? ==> session.value.0 in f.sessions
    ensures var r := Side(NoteTab(s.own, info), Hold(s.conn, f.target, m, session));
      && Unjudged(f, r) && Outer(f, r) == Outer(f, s) && Inner(f, r) == Inner(f, s)
      && Kids(f, r) == Kids(f, s) && HeldMessages(f, r.conn) == HeldMessages(f, s.conn) + [m]
  {
    var h := s.(conn := Hold(s.conn, f.target, m, session));
    HoldRouted(f, s, m, session);
    NotedTab(f, h, info);
    assert Side(NoteTab(s.own, info), h.conn) == h.(own := NoteTab(h.own, info));
  }

  /** The state with a routed message in the page's hold entry. */
  function Entered(f: Page, s: Side, m: Message): Side {
    match m.event
    case Attached(Some(k), Some(info)) =>
      if FromPage(f, m) then Pushed(f, s, m)
      else Side(NoteTab(s.own, info), Hold(s.conn, f.target, m, Some((k, m.via))))
    case Announced(Some(info)) =>
      if FromPage(f, m) then Pushed(f, s, m)
      else Side(NoteTab(s.own, info), Hold(s.conn, f.target, m, None))
    case Gone(_, _) =>
      if FromPage(f, m) then Pushed(f, s, m) else s.(conn := Hold(s.conn, f.target, m, None))
    case _ => Pushed(f, s, m)
  }

  function Pushed(f: Page, s: Side, m: Message): Side {
    s.(conn := s.conn.(held := PushTo(s.conn.held, f.target, m)))
  }

  lemma RoutedEnters(f: Page, s: Side, m: Message)
    requires Unjudged(f, s) && Routed(f, s, m)
    ensures Handle(s, m) == Entered(f, s, m)
  {
    if !FromPage(f, m) {
      assert m.via.Some? ==> m.via.value !in s.conn.heldSessions && m.via.value in s.conn.browsers;
    }
  }

  /** Handling a routed message only appends it to the page's hold entry. */
  lemma RoutedHeld(f: Page, s: Side, m: Message)
    requires Unjudged(f, s) && Routed(f, s, m)
    ensures var r := Handle(s, m);
      && Unjudged(f, r) && Outer(f, r) == Outer(f, s) && Inner(f, r) == Inner(f, s)
      && Kids(f, r) == Kids(f, s) && HeldMessages(f, r.conn) == HeldMessages(f, s.conn) + [m]
  {
    RoutedEnters(f, s, m);
    if FromPage(f, m) {
      PushRouted(f, s, m, m.via.value);
    } else {
      match m.event
      case Attached(Some(k), Some(info)) => AnnouncedHeld(f, s, m, info, Some((k, m.via)));
      case Announced(Some(info)) => AnnouncedHeld(f, s, m, info, None);
      case Detached(Some(k)) => PushRouted(f, s, m, k);
      case Gone(_, _) => HoldRouted(f, s, m, None);
    }
  }

  lemma NotedTab(f: Page, s: Side, info: TargetInfo)
    requires Unjudged(f, s) && info.target == f.target
    ensures var r := s.(own := NoteTab(s.own, info));
      Unjudged(f, r) && Outer(f, r) == Outer(f, s) && Inner(f, r) == Inner(f, s)
  {
    WithoutAppend(s.own.tabs, f.target, f.target);
    assert Without(s.own.tabs, f.target) + [] == Without(s.own.tabs, f.target);
  }

  // ---- replaying ----

  /** The targets that messages handled one after another make children of the page. */
  ghost function Gains(f: Page, s: Side, ms: seq<Message>): set<TargetId> {
    if ms == [] then {}
    else
      var front := ms[..|ms| - 1];
      Gains(f, s, front) + Gain(f, Replay(s, front), ms[|ms| - 1])
  }

  /** One more message about the page, after replays that reached r and r'. */
  lemma PageNext(f: Page, s: Side, s': Side, r: Side, r': Side, m: Message)
    requires Ready(f, r) && Ready(f, r') && Inner(f, r) == Inner(f, r') && Belongs(f, m)
    requires Outer(f, r) == Outer(f, s) && Outer(f, r') == Outer(f, s')
    requires Arrives(f, s, m) <==> Arrives(f, s', m)
    ensures Ready(f, Handle(r, m)) && Inner(f, Handle(r, m)) == Inner(f, Handle(r', m))
    ensures Outer(f, Handle(r, m)) == Outer(f, s)
    ensures Kids(f, Handle(r, m)) == Kids(f, r) + Gain(f, r, m) && Gain(f, r, m) == Gain(f, r', m)
  {
    OuterFields(f, s);
    OuterFields(f, s');
    OuterFields(f, r);
    OuterFields(f, r');
    assert Arrives(f, r, m) <==> Arrives(f, r', m);
    AboutPage(f, r, r', m);
  }

  lemma {:induction false} ReplayPage(f: Page, s: Side, s': Side, ms: seq<Message>)
    requires Ready(f, s) && Ready(f, s') && Inner(f, s) == Inner(f, s')
    requires forall m | m in ms :: Belongs(f, m) && (Arrives(f, s, m) <==> Arrives(f, s', m))
    ensures Ready(f, Replay(s, ms)) && Ready(f, Replay(s', ms))
    ensures Inner(f, Replay(s, ms)) == Inner(f, Replay(s', ms))
    ensures Outer(f, Replay(s, ms)) == Outer(f, s) && Outer(f, Replay(s', ms)) == Outer(f, s')
    ensures Kids(f, Replay(s, ms)) == Kids(f, s) + Gains(f, s, ms) && Gains(f, s, ms) == Gains(f, s', ms)
  {
    if ms != [] {
      var front, last := ms[..|ms| - 1], ms[|ms| - 1];
      ReplayPage(f, s, s', front);
      PageNext(f, s, s', Replay(s, front), Replay(s', front), last);
      PageNext(f, s', s, Replay(s', front), Replay(s, front), last);
    }
  }

  lemma {:induction false} ReplayRest(f: Page, s: Side, s': Side, ms: seq<Message>)
    requires Sane(f, s) && Sane(f, s') && Outer(f, s) == Outer(f, s')
    requires forall m | m in ms :: Foreign(f, m)
    ensures Sane(f, Replay(s, ms)) && Sane(f, Replay(s', ms)) && SameHold(f, s, Replay(s, ms))
    ensures Outer(f, Replay(s, ms)) == Outer(f, Replay(s', ms))
    ensures Inner(f, Replay(s, ms)) == Inner(f, s) && Kids(f, Replay(s, ms)) == Kids(f, s)
    ensures Replay(s, ms).conn.browsers * f.vias == s.conn.browsers * f.vias
  {
    if ms != [] {
      var front, last := ms[..|ms| - 1], ms[|ms| - 1];
      ReplayRest(f, s, s', front);
      AboutTheRest(f, Replay(s, front), Replay(s', front), last);
      AboutTheRest(f, Replay(s', front), Replay(s, front), last);
    }
  }

  // ---- settling ----

  lemma RestUnheld(f: Page, s: Side, t: TargetId)
    requires Sane(f, s) && t in s.conn.held && t != f.target
    ensures var c, o := s.conn, Outer(f, s).conn;
      && t in o.held && o.held[t] == c.held[t]
      && Agree(f, s, s.(conn := Unhold(c, t)), Outer(f, s).(conn := Unhold(o, t)))
  {
    var c, o := s.conn, Outer(f, s).conn;
    AgreeStart(f, s);
    var ids := Ids(c.held[t].sessions);
    assert forall x | x in c.held[t].sessions :: f.Elsewhere(x.0);
    assert ids !! f.sessions;
    WithoutCommutes(c.heldOrder, t, f.target);
    WithoutCommutes(o.heldOrder, t, f.target);
    WithoutTwice(c.heldOrder, f.target);
    MinusCommutes(c.held, {t}, {f.target});
    MinusCommutes(c.heldSessions, ids, f.sessions);
  }

  lemma {:induction false} WithoutCommutes(order: seq<TargetId>, t: TargetId, u: TargetId)
    ensures Without(Without(order, t), u) == Without(Without(order, u), t)
  {
    if order != [] {
      var front, last := order[..|order| - 1], order[|order| - 1];
      WithoutCommutes(front, t, u);
      WithoutAppend(Without(front, t), last, u);
      WithoutAppend(Without(front, u), last, t);
      assert Without(front, t) + [] == Without(front, t);
      assert Without(front, u) + [] == Without(front, u);
      assert Without(Without(front, t), u) + [] == Without(Without(front, t), u);
      assert Without(Without(front, u), t) + [] == Without(Without(front, u), t);
    }
  }

  lemma MinusCommutes<V>(m: map<nat, V>, a: set<nat>, b: set<nat>)
    ensures (m - a) - b == (m - b) - a
    ensures ((m - b) - a) - b == (m - b) - a
  {
  }

  lemma {:induction false} RestReleasedAll(f: Page, s: Side, r: Side, r': Side,
                                           xs: seq<(SessionId, Option<SessionId>)>)
    requires Agree(f, s, r, r')
    ensures Agree(f, s, r.(conn := ReleaseAll(r.conn, xs)), r'.(conn := ReleaseAll(r'.conn, xs)))
  {
    if xs != [] {
      var front, x := xs[..|xs| - 1], xs[|xs| - 1];
      RestReleasedAll(f, s, r, r', front);
      RestReleased(f, s, r.(conn := ReleaseAll(r.conn, front)),
                   r'.(conn := ReleaseAll(r'.conn, front)), x.0, x.1);
    }
  }

  lemma RestSettledOnce(f: Page, s: Side, t: TargetId)
    requires Sane(f, s) && t != f.target
    ensures Agree(f, s, SettleOne(s, t), SettleOne(Outer(f, s), t))
  {
    var o := Outer(f, s);
    AgreeStart(f, s);
    if t in s.conn.held {
      RestUnheld(f, s, t);
      assert s.own.Owns(t) == o.own.Owns(t);
      var entry := s.conn.held[t];
      var u, u' := s.(conn := Unhold(s.conn, t)), o.(conn := Unhold(o.conn, t));
      if s.own.Owns(t) {
        OuterTwice(f, u);
        OuterSane(f, s, u, u');
        ReplayRest(f, u, u', entry.messages);
      } else if s.own.pending == 0 {
        RestReleasedAll(f, s, u, u', entry.sessions);
      }
    }
  }

  lemma OuterSane(f: Page, s: Side, r: Side, r': Side)
    requires Agree(f, s, r, r') && r' == Outer(f, s).(conn := r'.conn)
    requires r'.conn.sessions == Outer(f, s).conn.sessions && r'.conn.browsers == s.conn.browsers
    requires r'.conn.held.Keys <= r.conn.held.Keys
    requires Sane(f, s) && (forall t | t in r'.conn.held :: r'.conn.held[t] == r.conn.held[t])
    requires r'.conn.heldSessions.Items <= Outer(f, s).conn.heldSessions.Items
    ensures Sane(f, r')
  {
    OuterTwice(f, s);
    forall k | k in r'.conn.heldSessions
      ensures k in Outer(f, s).conn.heldSessions
      ensures r'.conn.heldSessions[k] == Outer(f, s).conn.heldSessions[k]
    {
      assert (k, r'.conn.heldSessions[k]) in r'.conn.heldSessions.Items;
    }
  }

  /** Settling another target treats alike two states that agree on the rest. */
  lemma SettleRest(f: Page, s: Side, s': Side, t: TargetId)
    requires Sane(f, s) && Sane(f, s') && Outer(f, s) == Outer(f, s') && t != f.target
    ensures Sane(f, SettleOne(s, t)) && SameHold(f, s, SettleOne(s, t))
    ensures Outer(f, SettleOne(s, t)) == Outer(f, SettleOne(s', t))
    ensures Inner(f, SettleOne(s, t)) == Inner(f, s) && Kids(f, SettleOne(s, t)) == Kids(f, s)
    ensures SettleOne(s, t).conn.browsers * f.vias == s.conn.browsers * f.vias
  {
    RestSettledOnce(f, s, t);
    RestSettledOnce(f, s', t);
    SettleBrowsers(f, s, t);
  }

  lemma SettleBrowsers(f: Page, s: Side, t: TargetId)
    requires Sane(f, s) && t != f.target
    ensures SettleOne(s, t).conn.browsers * f.vias == s.conn.browsers * f.vias
  {
    if t in s.conn.held {
      var entry, u := s.conn.held[t], s.(conn := Unhold(s.conn, t));
      if s.own.Owns(t) {
        RestUnheld(f, s, t);
        ReplayRest(f, u, u, entry.messages);
      } else if s.own.pending == 0 {
        ReleasedBrowsers(u.conn, entry.sessions);
      }
    }
  }

  lemma {:induction false} ReleasedBrowsers(c: Conn, xs: seq<(SessionId, Option<SessionId>)>)
    ensures ReleaseAll(c, xs).browsers == c.browsers
  {
    if xs != [] { ReleasedBrowsers(c, xs[..|xs| - 1]); }
  }

  // ---- the simulation ----

  /** What is known of the page on one connection: its part as it was before anything was held, known
      to be owned; the children it gained since where it is known; and the messages that reached the
      client there and are lost where it is held. */
  datatype Entry = Entry(known: Side, gains: set<TargetId>, missed: set<Message>)

  /** How often the client was told of a message of the page. */
  ghost function Times(f: Page, s: Side, m: Message): nat {
    multiset(ToldInside(f, s.conn.client))[Forwarded(m)]
  }

  /** With nothing lost, q's page is what handling p's hold entry makes of it. */
  ghost predicate Caught(f: Page, e: Entry, ms: seq<Message>, q: Side) {
    && (e.missed == {} ==> Inner(f, q) == Inner(f, Replay(e.known, ms)) && e.gains == Gains(f, e.known, ms))
    && (forall m :: Times(f, e.known, m) <= Times(f, q, m))
    && forall m | m in e.missed :: Times(f, e.known, m) < Times(f, q, m)
  }

  /** p holds the page and q knows it is owned. They agree outside the page, and q has caught all that
      p holds. */
  ghost predicate Sim(f: Page, e: Entry, p: Side, q: Side) {
    && Unjudged(f, p) && Ready(f, q) && Kept(q.conn) && Outer(f, p) == Outer(f, q)
    && Ready(f, e.known) && f.vias <= e.known.conn.browsers
    && Inner(f, e.known) == Inner(f, p).(pages := Inner(f, p).pages + {f.target})
    && Inner(f, q).pages == Inner(f, p).pages + {f.target}
    && Caught(f, e, HeldMessages(f, p.conn), q)
  }

  ghost predicate Start(f: Page, s: Side) {
    Unjudged(f, s) && f.target !in s.conn.held
  }

  /** The page's part at the start, on a connection where all its browser-level sessions are up. */
  function Known(f: Page, s: Side): Side {
    Granted(f, s).(conn := s.conn.(browsers := s.conn.browsers + f.vias))
  }

  lemma KnownReady(f: Page, s: Side)
    requires Sane(f, s) && Kept(s.conn) && s.own.Owns(f.target) && f.target !in s.conn.held
    ensures Ready(f, s)
  {
  }

  lemma GrantedStart(f: Page, s: Side)
    requires Start(f, s)
    ensures Ready(f, Granted(f, s)) && Outer(f, Granted(f, s)) == Outer(f, s)
    ensures Sim(f, Entry(Known(f, s), {}, {}), s, Granted(f, s))
  {
    KnownReady(f, Granted(f, s));
    KnownReady(f, Known(f, s));
    assert Granted(f, s).own.pages * f.ids == s.own.pages * f.ids + {f.target};
  }

  /** Unjudged states stay so while only the rest changes and a creation is pending. */
  lemma StaysUnjudged(f: Page, p: Side, p': Side)
    requires Unjudged(f, p) && Sane(f, p') && Kept(p'.conn) && p'.own.pending > 0
    requires Inner(f, p') == Inner(f, p) && Kids(f, p') == Kids(f, p) && SameHold(f, p, p')
    requires p.conn.browsers * f.vias <= p'.conn.browsers
    ensures Unjudged(f, p') && HeldMessages(f, p'.conn) == HeldMessages(f, p.conn)
  {
    assert f.target in p.own.pages <==> f.target in Inner(f, p).pages;
    assert f.target in p'.own.pages <==> f.target in Inner(f, p').pages;
    assert f.target in p.own.children <==> f.target in Kids(f, p);
    assert f.target in p'.own.children <==> f.target in Kids(f, p');
  }

  lemma StaysReady(f: Page, q: Side, q': Side)
    requires Ready(f, q) && Sane(f, q') && Kept(q'.conn) && SameHold(f, q, q')
    requires Inner(f, q').pages == Inner(f, q).pages && Kids(f, q) <= Kids(f, q')
    ensures Ready(f, q')
  {
    assert f.target in q.own.pages <==> f.target in Inner(f, q).pages;
    assert f.target in q'.own.pages <==> f.target in Inner(f, q').pages;
    assert f.target in q.own.children ==> f.target in Kids(f, q');
    KnownReady(f, q');
  }

  /** Both sides change alike outside the page. */
  lemma SimRest(f: Page, e: Entry, p: Side, q: Side, p': Side, q': Side)
    requires Sim(f, e, p, q) && Outer(f, p') == Outer(f, q') && p'.own.pending > 0
    requires Sane(f, p') && Kept(p'.conn) && SameHold(f, p, p')
    requires Inner(f, p') == Inner(f, p) && Kids(f, p') == Kids(f, p)
    requires p.conn.browsers * f.vias <= p'.conn.browsers
    requires Sane(f, q') && Kept(q'.conn) && SameHold(f, q, q')
    requires Inner(f, q') == Inner(f, q) && Kids(f, q) <= Kids(f, q')
    ensures Sim(f, e, p', q') && HeldMessages(f, p'.conn) == HeldMessages(f, p.conn)
  {
    StaysUnjudged(f, p, p');
    StaysReady(f, q, q');
  }

  /** A message that is held for the page, and that the other side handles at once. */
  lemma SimRouted(f: Page, e: Entry, p: Side, q: Side, m: Message)
    requires Sim(f, e, p, q) && Routed(f, p, m)
    ensures Sim(f, e.(gains := e.gains + Gain(f, q, m)), Handle(p, m), Handle(q, m))
    ensures Kids(f, Handle(p, m)) == Kids(f, p) && Inner(f, Handle(p, m)).pages == Inner(f, p).pages
    ensures Kids(f, Handle(q, m)) == Kids(f, q) + Gain(f, q, m)
  {
    HandleKept(q, m);
    RoutedHeld(f, p, m);
    OfPageHandled(f, q, m);
    CaughtRouted(f, e, p, q, m);
  }

  lemma CaughtRouted(f: Page, e: Entry, p: Side, q: Side, m: Message)
    requires Sim(f, e, p, q) && Routed(f, p, m)
    ensures Caught(f, e.(gains := e.gains + Gain(f, q, m)), HeldMessages(f, p.conn) + [m], Handle(q, m))
  {
    TimesGrow(f, q, m);
    if e.missed == {} {
      BothArrive(f, p, q, m);
      ReplaysAlike(f, e.known, HeldMessages(f, p.conn), q, m);
    }
  }

  /** q, whose page is what the replay makes of it, handles one more message. */
  lemma ReplaysAlike(f: Page, known: Side, held: seq<Message>, q: Side, m: Message)
    requires Ready(f, known) && f.vias <= known.conn.browsers && Ready(f, q) && Belongs(f, m) && Arrives(f, q, m)
    requires forall x | x in held :: Belongs(f, x)
    requires Inner(f, q) == Inner(f, Replay(known, held))
    ensures Inner(f, Handle(q, m)) == Inner(f, Replay(known, held + [m]))
    ensures Gains(f, known, held + [m]) == Gains(f, known, held) + Gain(f, q, m)
  {
    ReplayPage(f, known, known, held);
    BothArrive(f, known, Replay(known, held), m);
    ViasArrive(f, known, m);
    AboutPage(f, q, Replay(known, held), m);
    assert (held + [m])[..|held|] == held;
  }

  /** Handling a message of the page tells the client of it or of nothing. */
  lemma TimesGrow(f: Page, q: Side, m: Message)
    requires Ready(f, q) && OfPage(f, m)
    ensures forall x :: Times(f, q, x) <= Times(f, Handle(q, m), x)
    ensures !Swallowed(f, q, m) ==> Times(f, Handle(q, m), m) == Times(f, q, m) + 1
  {
    OfPageHandled(f, q, m);
  }

  /** The holding side ignores the message of the page. */
  ghost predicate Ignored(f: Page, p: Side, m: Message) {
    OfPage(f, m) && Handle(p, m) == p
  }

  /** The entry once q handled a message of the page that is not held. */
  ghost function Missing(f: Page, e: Entry, q: Side, m: Message): Entry {
    Entry(e.known, e.gains + Gain(f, q, m), if Swallowed(f, q, m) then e.missed else e.missed + {m})
  }

  lemma CaughtIgnored(f: Page, e: Entry, ms: seq<Message>, q: Side, m: Message)
    requires Caught(f, e, ms, q) && Ready(f, q) && OfPage(f, m)
    ensures Caught(f, Missing(f, e, q, m), ms, Handle(q, m))
  {
    OfPageHandled(f, q, m);
    if Swallowed(f, q, m) {
      assert Missing(f, e, q, m) == e;
    } else {
      CaughtMissed(f, e, ms, q, m);
    }
  }

  lemma CaughtMissed(f: Page, e: Entry, ms: seq<Message>, q: Side, m: Message)
    requires Caught(f, e, ms, q) && Ready(f, q) && OfPage(f, m) && !Swallowed(f, q, m)
    ensures Caught(f, Missing(f, e, q, m), ms, Handle(q, m))
  {
    var r, after := Handle(q, m), Missing(f, e, q, m);
    TimesGrow(f, q, m);
    assert after.missed == e.missed + {m} && after.known == e.known;
    forall x ensures Times(f, e.known, x) <= Times(f, r, x) {}
    forall x | x in after.missed ensures Times(f, e.known, x) < Times(f, r, x) {}
  }

  /** A message of the page that is not held: the side that knows swallows it too, or it is lost. */
  lemma SimIgnored(f: Page, e: Entry, p: Side, q: Side, m: Message)
    requires Sim(f, e, p, q) && Ignored(f, p, m)
    ensures Sim(f, Missing(f, e, q, m), p, Handle(q, m))
    ensures Kids(f, Handle(q, m)) == Kids(f, q) + Gain(f, q, m)
  {
    HandleKept(q, m);
    OfPageHandled(f, q, m);
    CaughtIgnored(f, e, HeldMessages(f, p.conn), q, m);
  }

  lemma BothArrive(f: Page, s: Side, s': Side, m: Message)
    requires Outer(f, s) == Outer(f, s')
    ensures Arrives(f, s, m) <==> Arrives(f, s', m)
  {
    OuterFields(f, s);
    OuterFields(f, s');
  }

  lemma ViasArrive(f: Page, s: Side, m: Message)
    requires f.vias <= s.conn.browsers && Belongs(f, m)
    ensures Arrives(f, s, m)
  {}

  lemma SimForeign(f: Page, e: Entry, p: Side, q: Side, m: Message)
    requires Sim(f, e, p, q) && Foreign(f, m)
    ensures Sim(f, e, Handle(p, m), Handle(q, m))
    ensures HeldMessages(f, Handle(p, m).conn) == HeldMessages(f, p.conn)
    ensures Kids(f, Handle(p, m)) == Kids(f, p) && Kids(f, Handle(q, m)) == Kids(f, q)
    ensures Inner(f, Handle(p, m)).pages == Inner(f, p).pages
  {
    HandleKept(p, m);
    HandleKept(q, m);
    AboutTheRest(f, p, q, m);
    AboutTheRest(f, q, p, m);
    SimRest(f, e, p, q, Handle(p, m), Handle(q, m));
  }

  lemma SimOpensVia(f: Page, e: Entry, p: Side, q: Side, m: Message)
    requires Sim(f, e, p, q) && OpensVia(f, p, m)
    ensures Sim(f, e, Handle(p, m), Handle(q, m))
    ensures HeldMessages(f, Handle(p, m).conn) == HeldMessages(f, p.conn)
    ensures Kids(f, Handle(p, m)) == Kids(f, p) && Kids(f, Handle(q, m)) == Kids(f, q)
    ensures Inner(f, Handle(p, m)).pages == Inner(f, p).pages
  {
    OuterFields(f, p);
    OuterFields(f, q);
    SameHeldSessions(f, p, q, m);
    HandleKept(p, m);
    HandleKept(q, m);
    ViaOpened(f, p, m);
    ViaOpened(f, q, m);
    SimRest(f, e, p, q, Handle(p, m), Handle(q, m));
  }

  lemma SameHeldSessions(f: Page, p: Side, q: Side, m: Message)
    requires Sane(f, p) && Sane(f, q) && Outer(f, p) == Outer(f, q) && p.conn.browsers == q.conn.browsers
    requires OpensVia(f, p, m)
    ensures OpensVia(f, q, m)
  {
    if m.via.Some? {
      var k := m.via.value;
      assert k !in f.sessions;
      assert k in p.conn.heldSessions <==> k in Outer(f, p).conn.heldSessions;
      assert k in q.conn.heldSessions <==> k in Outer(f, q).conn.heldSessions;
    }
  }

  lemma SimSettleOne(f: Page, e: Entry, p: Side, q: Side, t: TargetId)
    requires Sim(f, e, p, q) && t != f.target
    ensures Sim(f, e, SettleOne(p, t), SettleOne(q, t))
    ensures SameStanding(f, p, SettleOne(p, t)) && SameStanding(f, q, SettleOne(q, t))
  {
    SettleRest(f, p, q, t);
    SettleRest(f, q, p, t);
    SettleOneKept(p, t);
    SettleOneKept(q, t);
    SimRest(f, e, p, q, SettleOne(p, t), SettleOne(q, t));
  }

  /** Nothing about the page's ownership or hold entry changed. */
  predicate SameStanding(f: Page, s: Side, s': Side) {
    && s'.own.pending == s.own.pending
    && Kids(f, s') == Kids(f, s) && Inner(f, s').pages == Inner(f, s).pages
    && HeldMessages(f, s'.conn) == HeldMessages(f, s.conn)
  }

  lemma {:induction false} SimSettleEach(f: Page, e: Entry, p: Side, q: Side, ts: seq<TargetId>)
    requires Sim(f, e, p, q)
    ensures Sim(f, e, SettleEach(p, ts), SettleEach(q, Without(ts, f.target)))
    ensures SameStanding(f, p, SettleEach(p, ts))
    ensures SameStanding(f, q, SettleEach(q, Without(ts, f.target)))
  {
    if ts != [] {
      var front, t := ts[..|ts| - 1], ts[|ts| - 1];
      SimSettleEach(f, e, p, q, front);
      var rest := Without(front, f.target);
      if t == f.target {
        assert rest + [] == rest;
      } else {
        SimSettleOne(f, e, SettleEach(p, front), SettleEach(q, rest), t);
        assert (rest + [t])[..|rest|] == rest;
      }
    }
  }

  /** A target that is not held is not settled. */
  lemma {:induction false} SettleSkips(f: Page, s: Side, ts: seq<TargetId>)
    requires Sane(f, s) && f.target !in s.conn.held
    ensures SettleEach(s, ts) == SettleEach(s, Without(ts, f.target))
    ensures Sane(f, SettleEach(s, ts)) && f.target !in SettleEach(s, ts).conn.held
  {
    if ts != [] {
      var front, t := ts[..|ts| - 1], ts[|ts| - 1];
      SettleSkips(f, s, front);
      var rest := Without(front, f.target);
      if t == f.target {
        assert rest + [] == rest;
      } else {
        SettleRest(f, SettleEach(s, front), SettleEach(s, front), t);
        assert (rest + [t])[..|rest|] == rest;
      }
    }
  }

  lemma SimSettle(f: Page, e: Entry, p: Side, q: Side)
    requires Sim(f, e, p, q)
    ensures Sim(f, e, SettleHeld(p), SettleHeld(q))
    ensures SameStanding(f, p, SettleHeld(p)) && SameStanding(f, q, SettleHeld(q))
  {
    assert Outer(f, p).conn.heldOrder == Outer(f, q).conn.heldOrder;
    SimSettleEach(f, e, p, q, p.conn.heldOrder);
    SettleSkips(f, q, q.conn.heldOrder);
  }

  // ---- the creation that owns the page finishes ----

  /** While the last settling runs: before p reaches the page its entry is intact, after it p's
      page is q's. */
  ghost predicate Final(f: Page, e: Entry, ms: seq<Message>, p: Side, q: Side) {
    && Sane(f, p) && Kept(p.conn) && f.target in p.own.pages
    && Ready(f, q) && Kept(q.conn) && Outer(f, p) == Outer(f, q)
    && Ready(f, e.known) && f.vias <= e.known.conn.browsers && Caught(f, e, ms, q)
    && f.target in Inner(f, e.known).pages && Inner(f, q).pages == Inner(f, e.known).pages
    && (forall m | m in ms :: Belongs(f, m) && Arrives(f, p, m))
    && if f.target in p.conn.held then
         p.conn.held[f.target].messages == ms && Inner(f, p) == Inner(f, e.known)
       else Inner(f, p) == Inner(f, Replay(e.known, ms))
  }

  lemma FinalStays(f: Page, e: Entry, ms: seq<Message>, p: Side, q: Side, p': Side, q': Side)
    requires Final(f, e, ms, p, q) && Outer(f, p') == Outer(f, q')
    requires Sane(f, p') && Kept(p'.conn) && SameHold(f, p, p') && Inner(f, p') == Inner(f, p)
    requires p'.conn.browsers * f.vias == p.conn.browsers * f.vias
    requires Sane(f, q') && Kept(q'.conn) && SameHold(f, q, q')
    requires Inner(f, q') == Inner(f, q) && Kids(f, q') == Kids(f, q)
    ensures Final(f, e, ms, p', q')
  {
    assert f.target in p.own.pages <==> f.target in Inner(f, p).pages;
    assert f.target in p'.own.pages <==> f.target in Inner(f, p').pages;
    StaysReady(f, q, q');
    forall m | m in ms ensures Belongs(f, m) && Arrives(f, p', m) {
      if !FromPage(f, m) && m.via.Some? {
        assert m.via.value in p.conn.browsers * f.vias;
        assert m.via.value in p'.conn.browsers * f.vias;
      }
    }
  }

  lemma FinalOther(f: Page, e: Entry, ms: seq<Message>, p: Side, q: Side, t: TargetId)
    requires Final(f, e, ms, p, q) && t != f.target
    ensures Final(f, e, ms, SettleOne(p, t), SettleOne(q, t))
    ensures SameHold(f, p, SettleOne(p, t))
    ensures Kids(f, SettleOne(p, t)) == Kids(f, p) && Kids(f, SettleOne(q, t)) == Kids(f, q)
  {
    SettleRest(f, p, q, t);
    SettleRest(f, q, p, t);
    SettleOneKept(p, t);
    SettleOneKept(q, t);
    FinalStays(f, e, ms, p, q, SettleOne(p, t), SettleOne(q, t));
  }

  lemma FinalPage(f: Page, e: Entry, ms: seq<Message>, p: Side, q: Side)
    requires Final(f, e, ms, p, q) && f.target in p.conn.held
    ensures Final(f, e, ms, SettleOne(p, f.target), q)
    ensures f.target !in SettleOne(p, f.target).conn.held
    ensures Kids(f, SettleOne(p, f.target)) == Kids(f, p) + Gains(f, e.known, ms)
  {
    var u := p.(conn := Unhold(p.conn, f.target));
    UnholdKept(p.conn, f.target);
    PageUnheld(f, p);
    ReplayPage(f, u, e.known, ms);
    SettleOneKept(p, f.target);
    OuterFields(f, u);
    OuterFields(f, Replay(u, ms));
    var r := Replay(u, ms);
    assert f.target in r.own.pages <==> f.target in Inner(f, r).pages;
    assert f.target in Inner(f, Replay(e.known, ms)).pages by { KnownStaysOwned(f, e.known, ms); }
  }

  lemma KnownStaysOwned(f: Page, known: Side, ms: seq<Message>)
    requires Ready(f, known) && f.target in Inner(f, known).pages
    requires forall m | m in ms :: Belongs(f, m)
    ensures Inner(f, Replay(known, ms)).pages == Inner(f, known).pages
  {
    ReplayPages(f, known, ms);
  }

  lemma {:induction false} ReplayPages(f: Page, s: Side, ms: seq<Message>)
    requires Ready(f, s) && forall m | m in ms :: Belongs(f, m)
    ensures Ready(f, Replay(s, ms)) && Inner(f, Replay(s, ms)).pages == Inner(f, s).pages
  {
    if ms != [] {
      var front, last := ms[..|ms| - 1], ms[|ms| - 1];
      ReplayPages(f, s, front);
      var r := Replay(s, front);
      AboutPage(f, r, r, last);
      PageHandled(f, r, last);
      ForwardViews(f, PageState(f, r, last), last);
    }
  }

  lemma PageUnheld(f: Page, p: Side)
    requires Sane(f, p) && Kept(p.conn) && p.own.Owns(f.target) && f.target in p.conn.held
    ensures var u := p.(conn := Unhold(p.conn, f.target));
      Ready(f, u) && Inner(f, u) == Inner(f, p) && Outer(f, u) == Outer(f, p)
  {
    var u := p.(conn := Unhold(p.conn, f.target));
    UnholdKept(p.conn, f.target);
    WithoutTwice(p.conn.heldOrder, f.target);
    UnholdMaps(f, p.conn);
    assert Sane(f, u);
    KnownReady(f, u);
  }

  lemma UnholdMaps(f: Page, c: Conn)
    requires f.target in c.held && HeldElsewhere(f, c.held)
    ensures var u := Unhold(c, f.target);
      u.held - {f.target} == c.held - {f.target}
      && u.heldSessions - f.sessions == c.heldSessions - f.sessions
      && HeldElsewhere(f, u.held)
  {
    assert Ids(c.held[f.target].sessions) <= f.sessions;
  }

  /** From p and q settling reached p' and q'; `page` says whether the page was among the targets. */
  ghost predicate Finished(f: Page, e: Entry, ms: seq<Message>, p: Side, q: Side, page: bool,
                           p': Side, q': Side)
  {
    && Final(f, e, ms, p', q')
    && (f.target in p'.conn.held <==> f.target in p.conn.held && !page)
    && Kids(f, p') == Kids(f, p) + (if f.target in p.conn.held && page then Gains(f, e.known, ms) else {})
    && Kids(f, q') == Kids(f, q)
  }

  /** Settling one target; q does not settle the page. */
  lemma FinalNext(f: Page, e: Entry, ms: seq<Message>, p: Side, q: Side, t: TargetId)
    requires Final(f, e, ms, p, q)
    ensures Finished(f, e, ms, p, q, t == f.target, SettleOne(p, t),
                     if t == f.target then q else SettleOne(q, t))
  {
    if t != f.target {
      FinalOther(f, e, ms, p, q, t);
    } else if f.target in p.conn.held {
      FinalPage(f, e, ms, p, q);
    }
  }

  lemma FinishedTwice(f: Page, e: Entry, ms: seq<Message>, p: Side, q: Side, a: bool, p': Side,
                      q': Side, b: bool, p'': Side, q'': Side)
    requires Finished(f, e, ms, p, q, a, p', q') && Finished(f, e, ms, p', q', b, p'', q'')
    ensures Finished(f, e, ms, p, q, a || b, p'', q'')
  {
  }

  ghost predicate FinishedEach(f: Page, e: Entry, ms: seq<Message>, p: Side, q: Side, ts: seq<TargetId>) {
    Finished(f, e, ms, p, q, f.target in ts, SettleEach(p, ts), SettleEach(q, Without(ts, f.target)))
  }

  lemma {:induction false} OneAfterAnother(holds: seq<TargetId> -> bool, ts: seq<TargetId>)
    requires holds([]) && forall front, t | holds(front) :: holds(front + [t])
    ensures holds(ts)
  {
    if ts != [] {
      var front := ts[..|ts| - 1];
      OneAfterAnother(holds, front);
      assert ts == front + [ts[|ts| - 1]];
    }
  }

  lemma FinalEach(f: Page, e: Entry, ms: seq<Message>, p: Side, q: Side, ts: seq<TargetId>)
    requires Final(f, e, ms, p, q)
    ensures FinishedEach(f, e, ms, p, q, ts)
  {
    FinishedStart(f, e, ms, p, q);
    FinishedNone(f, e, ms, p, q);
    forall front, t | FinishedEach(f, e, ms, p, q, front) ensures FinishedEach(f, e, ms, p, q, front + [t]) {
      FinalEachNext(f, e, ms, p, q, front, t);
    }
    OneAfterAnother(s => FinishedEach(f, e, ms, p, q, s), ts);
  }

  lemma FinishedNone(f: Page, e: Entry, ms: seq<Message>, p: Side, q: Side)
    requires Finished(f, e, ms, p, q, false, p, q)
    ensures FinishedEach(f, e, ms, p, q, [])
  {
    assert SettleEach(p, []) == p && SettleEach(q, Without([], f.target)) == q;
  }

  lemma FinalEachNext(f: Page, e: Entry, ms: seq<Message>, p: Side, q: Side, front: seq<TargetId>,
                      t: TargetId)
    requires FinishedEach(f, e, ms, p, q, front)
    ensures FinishedEach(f, e, ms, p, q, front + [t])
  {
    var p', q' := SettleEach(p, front), SettleEach(q, Without(front, f.target));
    FinishedNext(f, e, ms, p, q, f.target in front, p', q', t);
    SettleEachPast(f, q, front, t);
    assert (front + [t])[..|front|] == front;
    assert SettleEach(p, front + [t]) == SettleOne(p', t);
  }

  lemma FinishedStart(f: Page, e: Entry, ms: seq<Message>, p: Side, q: Side)
    requires Final(f, e, ms, p, q)
    ensures Finished(f, e, ms, p, q, false, p, q)
  {
  }

  /** Settling skips the page. */
  lemma SettleEachPast(f: Page, q: Side, front: seq<TargetId>, t: TargetId)
    ensures var q' := SettleEach(q, Without(front, f.target));
      SettleEach(q, Without(front + [t], f.target)) == if t == f.target then q' else SettleOne(q', t)
  {
    var rest := Without(front, f.target);
    WithoutAppend(front, t, f.target);
    assert rest + [] == rest && (rest + [t])[..|rest|] == rest;
  }

  lemma FinishedNext(f: Page, e: Entry, ms: seq<Message>, p: Side, q: Side, page: bool, p': Side,
                     q': Side, t: TargetId)
    requires Finished(f, e, ms, p, q, page, p', q')
    ensures Finished(f, e, ms, p, q, page || t == f.target, SettleOne(p', t),
                     if t == f.target then q' else SettleOne(q', t))
  {
    FinalNext(f, e, ms, p', q', t);
    FinishedTwice(f, e, ms, p, q, page, p', q', t == f.target, SettleOne(p', t),
                  if t == f.target then q' else SettleOne(q', t));
  }

  /** Settling a connection on which the page has become owned. */
  lemma FinalSettle(f: Page, e: Entry, ms: seq<Message>, p: Side, q: Side)
    requires Final(f, e, ms, p, q)
    ensures Finished(f, e, ms, p, q, true, SettleHeld(p), SettleHeld(q))
  {
    FinalEach(f, e, ms, p, q, p.conn.heldOrder);
    assert Outer(f, p).conn.heldOrder == Outer(f, q).conn.heldOrder;
    SettleSkips(f, q, q.conn.heldOrder);
  }

  lemma {:induction false} WithoutAbsent(order: seq<TargetId>, t: TargetId)
    requires t !in order
    ensures Without(order, t) == order
  {
    if order != [] {
      WithoutAbsent(order[..|order| - 1], t);
      assert order == order[..|order| - 1] + [order[|order| - 1]];
    }
  }

  /** Two connections that differ only in how messages about the page are interleaved with the
      others in what the client was told. */
  predicate SameUpToInterleaving(f: Page, c: Conn, d: Conn) {
    && c.(client := []) == d.(client := [])
    && ToldInside(f, c.client) == ToldInside(f, d.client)
    && ToldOutside(f, c.client) == ToldOutside(f, d.client)
  }

  lemma JoinSessions(f: Page, m: map<SessionId, SessionId>, m': map<SessionId, SessionId>)
    requires Restrict(m, f.sessions) == Restrict(m', f.sessions)
    requires m - f.sessions == m' - f.sessions
    ensures m == m'
  {
    SameRestriction(f, m, m');
    forall k | k !in f.sessions ensures (k in m <==> k in m') && (k in m ==> m[k] == m'[k]) {
      assert k in m <==> k in m - f.sessions;
      assert k in m' <==> k in m' - f.sessions;
      if k in m { assert (m - f.sessions)[k] == (m' - f.sessions)[k]; }
    }
  }

  lemma JoinHolds(f: Page, p: Side, q: Side)
    requires Ready(f, p) && Ready(f, q) && Kept(p.conn) && Kept(q.conn)
    requires Outer(f, p) == Outer(f, q)
    ensures p.conn.held == q.conn.held && p.conn.heldOrder == q.conn.heldOrder
    ensures p.conn.heldSessions == q.conn.heldSessions
  {
    HoldsOutside(f, p);
    HoldsOutside(f, q);
  }

  lemma HoldsOutside(f: Page, s: Side)
    requires Ready(f, s) && Kept(s.conn)
    ensures Outer(f, s).conn.held == s.conn.held && Outer(f, s).conn.heldOrder == s.conn.heldOrder
    ensures Outer(f, s).conn.heldSessions == s.conn.heldSessions
  {
    assert s.conn.held == s.conn.held - {f.target};
    WithoutAbsent(s.conn.heldOrder, f.target);
    assert s.conn.heldSessions == s.conn.heldSessions - f.sessions;
  }

  lemma ViewsDecide(f: Page, p: Side, q: Side)
    requires Ready(f, p) && Ready(f, q) && Kept(p.conn) && Kept(q.conn)
    requires Inner(f, p) == Inner(f, q) && Outer(f, p) == Outer(f, q)
    ensures SameUpToInterleaving(f, p.conn, q.conn) && p.own.pages == q.own.pages
  {
    Rejoin(p.own.pages, q.own.pages, f.ids);
    Rejoin(p.conn.frames, q.conn.frames, f.ids);
    Rejoin(p.conn.downloads, q.conn.downloads, f.guids);
    JoinSessions(f, p.conn.sessions, q.conn.sessions);
    JoinHolds(f, p, q);
    OuterFields(f, p);
    OuterFields(f, q);
  }

  lemma Rejoin(a: set<nat>, b: set<nat>, ids: set<nat>)
    requires a * ids == b * ids && a - ids == b - ids
    ensures a == b
  {
    assert a == (a * ids) + (a - ids);
    assert b == (b * ids) + (b - ids);
  }

  lemma OuterFields(f: Page, s: Side)
    ensures Outer(f, s).conn.browsers == s.conn.browsers
    ensures Outer(f, s).conn.windows == s.conn.windows
    ensures Outer(f, s).conn.autoAttach == s.conn.autoAttach
    ensures Outer(f, s).conn.inflight == s.conn.inflight
    ensures Outer(f, s).conn.nextId == s.conn.nextId
    ensures Outer(f, s).conn.upstream == s.conn.upstream
  {
  }

  // ---- which held messages reach the client ----

  function Frames(ms: seq<Message>): seq<ClientFrame> {
    seq(|ms|, i requires 0 <= i < |ms| => Forwarded(ms[i]))
  }

  predicate Attaches(m: Message, k: SessionId) {
    m.event.Attached? && m.event.session == Some(k)
  }

  /** By message i, session k was attached and not detached since. */
  predicate Live(ms: seq<Message>, i: nat, k: SessionId)
    requires i <= |ms|
  {
    exists j :: 0 <= j < i && Attaches(ms[j], k)
                && forall l | j < l < i :: ms[l].event != Detached(Some(k))
  }

  predicate InTurn(f: Page, ms: seq<Message>, i: nat)
    requires i < |ms|
  {
    if FromPage(f, ms[i]) then
      !ms[i].event.ReceivedMessage? && Live(ms, i, ms[i].via.value)
    else
      ms[i].event.Detached? && ms[i].event.session.Some? ==> Live(ms, i, ms[i].event.session.value)
  }

  /** Every message of a session comes between its attach and its detach. */
  predicate Orderly(f: Page, ms: seq<Message>) {
    forall i | 0 <= i < |ms| :: InTurn(f, ms, i)
  }

  predicate IsChild(f: Page, ms: seq<Message>, k: SessionId) {
    exists i :: 0 <= i < |ms| && FromPage(f, ms[i]) && Attaches(ms[i], k)
  }

  /** The messages of a hold entry: sessions attached on the browser level and sessions attached
      inside the page do not mix, and only the former are routed. */
  predicate HoldEntry(f: Page, ms: seq<Message>) {
    forall i | 0 <= i < |ms| ::
      && Belongs(f, ms[i])
      && (FromPage(f, ms[i]) ==> !IsChild(f, ms, ms[i].via.value))
      && (!FromPage(f, ms[i]) && ms[i].event.Attached? ==> !IsChild(f, ms, ms[i].event.session.value))
      && (!FromPage(f, ms[i]) && ms[i].event.Detached? ==> !IsChild(f, ms, ms[i].event.session.value))
  }

  /** After a prefix of the replay, the page's own sessions are exactly the live ones. */
  ghost predicate SessionsAre(f: Page, ms: seq<Message>, i: nat, sessions: map<SessionId, SessionId>)
    requires i <= |ms|
  {
    forall k | k in f.sessions && !IsChild(f, ms, k) ::
      (k in sessions <==> Live(ms, i, k)) && (k in sessions ==> sessions[k] !in f.sessions)
  }

  lemma TopNotUnder(f: Page, m: map<SessionId, SessionId>, k: SessionId, s: SessionId)
    requires Split(f, m) && k in f.sessions && s in f.sessions && k != s
    requires k in m ==> m[k] !in f.sessions
    ensures !Under(m, k, s)
  {
    if Under(m, k, s) {
      var n: nat :| Above(m, k, s, n);
      NotUnderInside(f, m, m[k], s, n - 1);
    }
  }

  lemma LiveNext(ms: seq<Message>, i: nat, k: SessionId)
    requires i < |ms|
    ensures Live(ms, i + 1, k) <==>
      Attaches(ms[i], k) || (Live(ms, i, k) && ms[i].event != Detached(Some(k)))
  {
    if Live(ms, i + 1, k) && !Attaches(ms[i], k) {
      var j :| 0 <= j < i + 1 && Attaches(ms[j], k)
               && forall l | j < l < i + 1 :: ms[l].event != Detached(Some(k));
      assert j < i;
    }
  }

  /** The page's sessions after one of its messages. */
  ghost function Linked(f: Page, m: Message, sessions: map<SessionId, SessionId>)
    : map<SessionId, SessionId>
  {
    match m.event
    case Attached(Some(child), Some(_)) =>
      sessions[child := if m.via.Some? then m.via.value else BROWSER_SOCKET]
    case Detached(Some(child)) => DropTree(sessions, child)
    case _ => sessions
  }

  lemma LinkedStep(f: Page, ms: seq<Message>, i: nat, m: Message, sessions: map<SessionId, SessionId>,
                   k: SessionId)
    requires HoldEntry(f, ms) && i < |ms| && m == ms[i] && Split(f, sessions)
    requires k in f.sessions && !IsChild(f, ms, k)
    requires (k in sessions <==> Live(ms, i, k)) && (k in sessions ==> sessions[k] !in f.sessions)
    ensures var r := Linked(f, m, sessions);
      (k in r <==> Live(ms, i + 1, k)) && (k in r ==> r[k] !in f.sessions)
  {
    LiveNext(ms, i, k);
    match m.event
    case Attached(Some(child), Some(_)) =>
      if child == k { assert !FromPage(f, m); }
    case Detached(Some(child)) =>
      if child == k {
        assert Above(sessions, k, k, 0);
      } else {
        TopNotUnder(f, sessions, k, child);
      }
    case _ =>
  }

  lemma LinkedHandled(f: Page, s: Side, m: Message)
    requires Ready(f, s) && Belongs(f, m) && !Swallowed(f, s, m)
    ensures Handle(s, m).conn.sessions == Linked(f, m, s.conn.sessions)
    ensures ToldInside(f, Handle(s, m).conn.client) == ToldInside(f, s.conn.client) + [Forwarded(m)]
  {
    PageHandled(f, s, m);
    Told(f, PageState(f, s, m).conn.client, m);
  }

  /** Message i reaches the client when the entry is replayed from s. */
  predicate Comes(f: Page, s: Side, ms: seq<Message>, i: nat)
    requires i < |ms|
  {
    InTurn(f, ms, i) && Arrives(f, s, ms[i])
  }

  lemma ComesIsHeard(f: Page, s: Side, r: Side, ms: seq<Message>, i: nat)
    requires Ready(f, r) && HoldEntry(f, ms) && i < |ms| && SessionsAre(f, ms, i, r.conn.sessions)
    requires r.conn.browsers == s.conn.browsers
    ensures Comes(f, s, ms, i) <==> !Swallowed(f, r, ms[i])
  {
  }

  predicate AllComeUpTo(f: Page, s: Side, ms: seq<Message>, i: nat)
    requires i <= |ms|
  {
    forall j | 0 <= j < i :: Comes(f, s, ms, j)
  }

  lemma ToldGrows(f: Page, s: Side, m: Message)
    requires Ready(f, s) && Belongs(f, m)
    ensures |ToldInside(f, Handle(s, m).conn.client)|
      == |ToldInside(f, s.conn.client)| + (if Swallowed(f, s, m) then 0 else 1)
  {
    PageHandled(f, s, m);
    if !Swallowed(f, s, m) { LinkedHandled(f, s, m); }
  }

  /** What replaying the first i held messages from s, reaching r, told the client. */
  ghost predicate Delivered(f: Page, s: Side, r: Side, ms: seq<Message>, i: nat)
    requires i <= |ms|
  {
    var told, before := ToldInside(f, r.conn.client), ToldInside(f, s.conn.client);
    && Ready(f, r) && r.conn.browsers == s.conn.browsers && |told| <= |before| + i
    && if AllComeUpTo(f, s, ms, i) then
         SessionsAre(f, ms, i, r.conn.sessions) && told == before + Frames(ms[..i])
       else |told| < |before| + i
  }

  lemma DeliveredStep(f: Page, s: Side, r: Side, ms: seq<Message>, i: nat)
    requires HoldEntry(f, ms) && i < |ms| && Delivered(f, s, r, ms, i)
    ensures Delivered(f, s, Handle(r, ms[i]), ms, i + 1)
  {
    AboutPage(f, r, r, ms[i]);
    OuterFields(f, r);
    OuterFields(f, Handle(r, ms[i]));
    ToldGrows(f, r, ms[i]);
    if AllComeUpTo(f, s, ms, i) {
      ComesIsHeard(f, s, r, ms, i);
      if Comes(f, s, ms, i) { DeliveredNext(f, s, r, ms, i); }
    }
  }

  lemma {:induction false} DeliveredUpTo(f: Page, s: Side, ms: seq<Message>, i: nat)
    requires Ready(f, s) && HoldEntry(f, ms) && i <= |ms|
    requires NoneAttached(f, s)
    ensures Delivered(f, s, Replay(s, ms[..i]), ms, i)
  {
    if i == 0 {
      assert ms[..0] == [] && Frames([]) == [];
      assert forall k :: !Live(ms, 0, k);
    } else {
      DeliveredUpTo(f, s, ms, i - 1);
      assert ms[..i][..i - 1] == ms[..i - 1] && ms[..i][i - 1] == ms[i - 1];
      DeliveredStep(f, s, Replay(s, ms[..i - 1]), ms, i - 1);
    }
  }

  lemma DeliveredNext(f: Page, s: Side, r: Side, ms: seq<Message>, i: nat)
    requires Ready(f, r) && HoldEntry(f, ms) && i < |ms| && SessionsAre(f, ms, i, r.conn.sessions)
    requires !Swallowed(f, r, ms[i])
    requires ToldInside(f, r.conn.client) == ToldInside(f, s.conn.client) + Frames(ms[..i])
    ensures SessionsAre(f, ms, i + 1, Handle(r, ms[i]).conn.sessions)
    ensures ToldInside(f, Handle(r, ms[i]).conn.client)
         == ToldInside(f, s.conn.client) + Frames(ms[..i + 1])
  {
    LinkedHandled(f, r, ms[i]);
    FramesNext(ms, i);
    SessionsNext(f, ms, i, r.conn.sessions);
  }

  lemma FramesNext(ms: seq<Message>, i: nat)
    requires i < |ms|
    ensures Frames(ms[..i + 1]) == Frames(ms[..i]) + [Forwarded(ms[i])]
  {
  }

  lemma SessionsNext(f: Page, ms: seq<Message>, i: nat, sessions: map<SessionId, SessionId>)
    requires HoldEntry(f, ms) && i < |ms| && SessionsAre(f, ms, i, sessions) && Split(f, sessions)
    ensures SessionsAre(f, ms, i + 1, Linked(f, ms[i], sessions))
  {
    forall k | k in f.sessions && !IsChild(f, ms, k)
      ensures var l := Linked(f, ms[i], sessions);
        (k in l <==> Live(ms, i + 1, k)) && (k in l ==> l[k] !in f.sessions)
    {
      LinkedStep(f, ms, i, ms[i], sessions, k);
    }
  }

  /** No session of the page is attached: they are held, or gone. */
  predicate NoneAttached(f: Page, s: Side) {
    f.sessions !! s.conn.sessions.Keys
  }

  /** Every browser-level session that the entry's messages came on is still attached. */
  predicate AllArrive(f: Page, s: Side, ms: seq<Message>) {
    forall i | 0 <= i < |ms| :: Arrives(f, s, ms[i])
  }

  /** Settling from s reached r and told the client all of the entry exactly when it could. */
  ghost predicate Settling(f: Page, s: Side, ms: seq<Message>, r: Side) {
    && Sane(f, r) && Kept(r.conn)
    && if f.target in r.conn.held then
         && Inner(f, r) == Inner(f, s) && Kids(f, r) == Kids(f, s)
         && r.conn.held[f.target].messages == ms
         && r.conn.browsers * f.vias == s.conn.browsers * f.vias
       else
         (ToldInside(f, r.conn.client) == ToldInside(f, s.conn.client) + Frames(ms))
         <==> (Orderly(f, ms) && AllArrive(f, s, ms))
  }

  lemma SettlingOther(f: Page, s: Side, ms: seq<Message>, r: Side, t: TargetId)
    requires Settling(f, s, ms, r) && t != f.target
    ensures Settling(f, s, ms, SettleOne(r, t))
    ensures f.target in SettleOne(r, t).conn.held <==> f.target in r.conn.held
  {
    SettleRest(f, r, r, t);
    SettleOneKept(r, t);
    assert Inner(f, SettleOne(r, t)).told == Inner(f, r).told;
  }

  lemma SettlingPage(f: Page, s: Side, ms: seq<Message>, r: Side)
    requires Settling(f, s, ms, r) && f.target in r.conn.held && s.own.Owns(f.target)
    requires HoldEntry(f, ms) && NoneAttached(f, s) && Sane(f, s)
    ensures Settling(f, s, ms, SettleOne(r, f.target))
    ensures f.target !in SettleOne(r, f.target).conn.held
  {
    StillOwned(f, s, r);
    var u := r.(conn := Unhold(r.conn, f.target));
    PageUnheld(f, r);
    NoneAttachedStays(f, s, u);
    DeliveredUpTo(f, u, ms, |ms|);
    assert ms[..|ms|] == ms;
    SettleOneKept(r, f.target);
    AllComes(f, u, ms);
    forall i | 0 <= i < |ms| ensures Arrives(f, u, ms[i]) <==> Arrives(f, s, ms[i]) {
      assert Belongs(f, ms[i]);
      if !FromPage(f, ms[i]) && ms[i].via.Some? {
        assert ms[i].via.value in u.conn.browsers * f.vias <==> ms[i].via.value in s.conn.browsers * f.vias;
      }
    }
    assert |Frames(ms)| == |ms|;
  }

  lemma AllComes(f: Page, s: Side, ms: seq<Message>)
    ensures AllComeUpTo(f, s, ms, |ms|) <==> Orderly(f, ms) && AllArrive(f, s, ms)
  {
    if AllComeUpTo(f, s, ms, |ms|) {
      forall i | 0 <= i < |ms| ensures InTurn(f, ms, i) && Arrives(f, s, ms[i]) {
        assert Comes(f, s, ms, i);
      }
    }
  }

  lemma StillOwned(f: Page, s: Side, r: Side)
    requires f.Valid() && s.own.Owns(f.target) && Inner(f, r) == Inner(f, s) && Kids(f, r) == Kids(f, s)
    ensures r.own.Owns(f.target)
  {
    assert f.target in s.own.pages <==> f.target in Inner(f, s).pages;
    assert f.target in s.own.children <==> f.target in Kids(f, s);
    assert f.target in r.own.pages <==> f.target in Inner(f, r).pages;
    assert f.target in r.own.children <==> f.target in Kids(f, r);
  }

  lemma NoneAttachedStays(f: Page, s: Side, r: Side)
    requires NoneAttached(f, s) && Inner(f, r).sessions == Inner(f, s).sessions
    ensures NoneAttached(f, r)
  {
    SameRestriction(f, s.conn.sessions, r.conn.sessions);
  }

  lemma {:induction false} SettlingEach(f: Page, s: Side, ms: seq<Message>, ts: seq<TargetId>)
    requires Settling(f, s, ms, s) && f.target in s.conn.held && s.own.Owns(f.target)
    requires HoldEntry(f, ms) && NoneAttached(f, s) && Sane(f, s)
    ensures Settling(f, s, ms, SettleEach(s, ts))
    ensures f.target in SettleEach(s, ts).conn.held <==> f.target !in ts
  {
    if ts != [] {
      var front, t := ts[..|ts| - 1], ts[|ts| - 1];
      SettlingEach(f, s, ms, front);
      assert ts == front + [t];
      var r := SettleEach(s, front);
      if t != f.target {
        SettlingOther(f, s, ms, r, t);
      } else if f.target in r.conn.held {
        SettlingPage(f, s, ms, r);
      }
    }
  }

  /** Settling a held target that is owned tells the client every message of its entry, once and in
      arrival order, exactly when the entry is orderly and every browser-level session its messages
      came on is still attached. */
  lemma DeliveredExactlyWhenOrderly(f: Page, s: Side)
    requires Sane(f, s) && Kept(s.conn) && s.own.Owns(f.target) && f.target in s.conn.held
    requires HoldEntry(f, s.conn.held[f.target].messages) && NoneAttached(f, s)
    ensures var ms := s.conn.held[f.target].messages;
      (ToldInside(f, SettleHeld(s).conn.client) == ToldInside(f, s.conn.client) + Frames(ms))
      <==> (Orderly(f, ms) && AllArrive(f, s, ms))
  {
    SettlingEach(f, s, s.conn.held[f.target].messages, s.conn.heldOrder);
  }

  /** The holding side treats the message as one of an owned page: its opener is owned, or the
      download is of a frame, or is itself, already known. */
  predicate KnownAlready(f: Page, p: Side, m: Message) {
    && !FromPage(f, m) && Arrives(f, p, m)
    && match m.event
       case Attached(_, info) => info.Some? && Opened(p.own, info.value)
       case Announced(info) => info.Some? && Opened(p.own, info.value)
       case DownloadBegin(_, _) => DownloadKnown(p, m.event)
       case DownloadProgress(_, _) => DownloadKnown(p, m.event)
       case _ => false
  }

  /** While the page is held its messages are held, or ignored, or concern what is known already. */
  lemma IgnoredExactlyWhenNotHeld(f: Page, p: Side, m: Message)
    requires Unjudged(f, p) && NoneAttached(f, p) && OfPage(f, m)
    ensures Ignored(f, p, m) <==> !Routed(f, p, m) && !KnownAlready(f, p, m)
  {
    if Routed(f, p, m) {
      RoutedHeld(f, p, m);
    } else if KnownAlready(f, p, m) {
      assert m.via.Some? ==> m.via.value !in p.conn.heldSessions;
      assert |Handle(p, m).conn.client| > |p.conn.client|;
    } else if Arrives(f, p, m) && !FromPage(f, m) && m.event.Detached? {
      assert m.event.session.value !in p.conn.browsers && m.event.session.value !in p.conn.sessions;
    }
  }

  /** A message of the page on the side that holds it: it is held or ignored. */
  lemma HeldOrIgnored(f: Page, p: Side, m: Message)
    requires Unjudged(f, p) && NoneAttached(f, p) && OfPage(f, m) && !KnownAlready(f, p, m)
    ensures if Routed(f, p, m) then HeldMessages(f, Handle(p, m).conn) == HeldMessages(f, p.conn) + [m]
            else Ignored(f, p, m)
  {
    if Routed(f, p, m) { RoutedHeld(f, p, m); } else { IgnoredExactlyWhenNotHeld(f, p, m); }
  }

  /** The same beside the side that knows, which forwards it or swallows it. */
  lemma PageTraffic(f: Page, e: Entry, p: Side, q: Side, m: Message)
    requires Sim(f, e, p, q) && NoneAttached(f, e.known) && OfPage(f, m) && !KnownAlready(f, p, m)
    ensures if Routed(f, p, m) then HeldMessages(f, Handle(p, m).conn) == HeldMessages(f, p.conn) + [m]
            else Ignored(f, p, m)
    ensures ToldInside(f, Handle(q, m).conn.client)
         == ToldInside(f, q.conn.client) + (if Swallowed(f, q, m) then [] else [Forwarded(m)])
  {
    NoneAttachedStays(f, e.known, p);
    HeldOrIgnored(f, p, m);
    ToldOfPage(f, q, m);
  }

  lemma ToldOfPage(f: Page, q: Side, m: Message)
    requires Ready(f, q) && OfPage(f, m)
    ensures ToldInside(f, Handle(q, m).conn.client)
         == ToldInside(f, q.conn.client) + (if Swallowed(f, q, m) then [] else [Forwarded(m)])
  {
    OfPageHandled(f, q, m);
  }

  // ---- where holding falls short of foresight ----

  const EMPTY := Conn(map[], {}, map[], [], map[], {}, {}, {}, false, map[], 1, [], [])

  /** A page held on an extra browser-level session that is detached before the creation finishes
      is never announced to the client, although the proxy that knows announces it. */
  lemma DetachedViaLosesHeldPage()
    ensures var start := Side(Ownership({}, {}, 1, []), EMPTY.(browsers := {5}));
      var attach := Message(Some(5), Attached(Some(7), Some(TargetInfo(3, PageTarget, None))), 0);
      var detach := Message(None, Detached(Some(5)), 1);
      var known := start.(own := start.own.(pages := {3}));
      var credit := (s: Side) => s.(own := s.own.(pages := s.own.pages + {3}, pending := 0));
      && SettleHeld(credit(Replay(start, [attach, detach]))).conn.client == [Forwarded(detach)]
      && Replay(known, [attach, detach]).conn.client == [Forwarded(attach), Forwarded(detach)]
  {
    var start := Side(Ownership({}, {}, 1, []), EMPTY.(browsers := {5}));
    var attach := Message(Some(5), Attached(Some(7), Some(TargetInfo(3, PageTarget, None))), 0);
    var detach := Message(None, Detached(Some(5)), 1);
    var held := Handle(start, attach);
    ReplayTwo(start, attach, detach);
    assert held.conn.heldOrder == [3] && held.conn.held[3].messages == [attach];
    var p := Handle(held, detach);
    assert p.conn.client == [Forwarded(detach)] && p.conn.browsers == {} && p.conn.sessions == map[];
    var c := p.(own := p.own.(pages := p.own.pages + {3}, pending := 0));
    assert c.conn.heldOrder[..0] == [] && c.conn.held[3].messages[..0] == [];
    var u := c.(conn := Unhold(c.conn, 3));
    assert Replay(u, [attach]) == Handle(u, attach);
    assert SettleEach(c, []) == c && c.conn.heldOrder[0] == 3;
    assert SettleHeld(c) == SettleOne(c, 3);
    var known := start.(own := start.own.(pages := {3}));
    ReplayTwo(known, attach, detach);
  }

  lemma ReplayTwo(s: Side, a: Message, b: Message)
    ensures Replay(s, [a, b]) == Handle(Handle(s, a), b)
  {
    assert [a, b][..1] == [a] && [a][..0] == [];
    assert Replay(s, [a]) == Handle(Replay(s, []), a);
  }

  /** Traffic of a session nested in a held page is not routed to the hold entry and is lost. */
  lemma NestedSessionOfHeldPageIsLost()
    ensures var start := Side(Ownership({}, {}, 1, []), EMPTY);
      var attach := Message(None, Attached(Some(7), Some(TargetInfo(3, PageTarget, None))), 0);
      var nested := Message(Some(7), Attached(Some(8), Some(TargetInfo(4, PageTarget, None))), 1);
      var traffic := Message(Some(8), OtherDomain, 2);
      var held := Replay(start, [attach, nested]);
      var known := Replay(start.(own := start.own.(pages := {3})), [attach, nested]);
      && Handle(held, traffic) == held
      && Handle(known, traffic) == Forward(known, traffic)
  {
    var start := Side(Ownership({}, {}, 1, []), EMPTY);
    var attach := Message(None, Attached(Some(7), Some(TargetInfo(3, PageTarget, None))), 0);
    var nested := Message(Some(7), Attached(Some(8), Some(TargetInfo(4, PageTarget, None))), 1);
    ReplayTwo(start, attach, nested);
    ReplayTwo(start.(own := start.own.(pages := {3})), attach, nested);
    var held := Handle(start, attach);
    assert held.conn.heldSessions == map[7 := 3];
  }

  /** A download that a held page begins is not announced, and is not held either. */
  lemma DownloadOfHeldPageIsLost()
    ensures var start := Side(Ownership({}, {}, 1, []), EMPTY);
      var attach := Message(None, Attached(Some(7), Some(TargetInfo(3, PageTarget, None))), 0);
      var begin := Message(None, DownloadBegin(Some(3), Some(9)), 1);
      var held, known := Handle(start, attach), Handle(start.(own := start.own.(pages := {3})), attach);
      && Handle(held, begin) == held
      && Handle(known, begin) == Forward(known.(conn := known.conn.(downloads := {9})), begin)
  {
  }
}
