/** Two whole sessions side by side: one holds a page, the other knows that the page is owned. Every
    action that names nothing of the page, and every message that is held for it, keeps them
    alike. */
module ProxyWorldSim {
  import opened Wrappers
  import opened ProxyModel
  import opened ProxyWorld
  import opened ProxyHolds
  import opened ProxyForesight
  import opened ProxyReplay

  /** The ownership of both sessions: they differ in the page, and in whether it is remembered as a
      tab that might be adopted. */
  ghost predicate OwnSim(f: Page, own: Ownership, own': Ownership) {
    && f.Valid() && OuterOwn(f, own) == OuterOwn(f, own')
    && own'.pages * f.ids == own.pages * f.ids + {f.target}
    && !own.Owns(f.target) && own.pending > 0
    && f.target !in own'.tabs && TabsElsewhere(f, own.tabs)
  }

  ghost predicate TabsElsewhere(f: Page, tabs: seq<TargetId>) {
    forall t | t in tabs :: t in f.ids ==> t == f.target
  }

  function GainedBy(book: seq<Entry>, n: nat): set<TargetId>
    requires n <= |book|
  {
    if n == 0 then {} else GainedBy(book, n - 1) + book[n - 1].gains
  }

  ghost predicate SimAt(f: Page, book: seq<Entry>, w: World, v: World, i: nat) {
    && i < |book| && i < |w.conns| && i < |v.conns| && Sim(f, book[i], At(w, i), At(v, i))
  }

  ghost predicate ConnsSim(f: Page, book: seq<Entry>, w: World, v: World) {
    && |book| == |w.conns| == |v.conns|
    && forall i: nat | i < |w.conns| :: SimAt(f, book, w, v, i)
  }

  /** w holds the page and v knows it is owned; `lost` are the children that hold entries of
      connections closed since would have added. */
  ghost predicate WorldSim(f: Page, book: seq<Entry>, lost: set<TargetId>, w: World, v: World) {
    && w.http == v.http && OwnSim(f, w.own, v.own) && ConnsSim(f, book, w, v)
    && v.own.children * f.ids
       == w.own.children * f.ids + GainedBy(book, |book|) + lost
  }

  // ---- ownership and one connection ----

  /** A connection is indifferent to what the others do to the shared ownership. */
  lemma SimShared(f: Page, e: Entry, p: Side, q: Side, own: Ownership, own': Ownership)
    requires Sim(f, e, p, q) && OwnSim(f, own, own')
    requires own.pages * f.ids == p.own.pages * f.ids
    ensures Sim(f, e, Side(own, p.conn), Side(own', q.conn))
  {
    SimPages(f, e, p, q);
    assert f.target in own'.pages * f.ids;
    assert Inner(f, Side(own', q.conn)) == Inner(f, q);
  }

  lemma SimPages(f: Page, e: Entry, p: Side, q: Side)
    requires Sim(f, e, p, q)
    ensures q.own.pages * f.ids == p.own.pages * f.ids + {f.target}
  {
  }

  lemma SimOwn(f: Page, e: Entry, p: Side, q: Side)
    requires Sim(f, e, p, q) && f.target !in q.own.tabs && TabsElsewhere(f, p.own.tabs)
    ensures OwnSim(f, p.own, q.own)
  {
    SimPages(f, e, p, q);
  }

  // ---- one connection of the world changes ----

  lemma {:induction false} GainedMore(book: seq<Entry>, i: nat, e: Entry, more: set<TargetId>, n: nat)
    requires i < |book| && n <= |book| && e.gains == book[i].gains + more
    ensures GainedBy(book[i := e], n) == GainedBy(book, n) + (if i < n then more else {})
  {
    if n > 0 { GainedMore(book, i, e, more, n - 1); }
  }

  lemma {:induction false} GainedAlike(a: seq<Entry>, b: seq<Entry>, n: nat)
    requires n <= |a| && n <= |b| && forall i | 0 <= i < n :: a[i] == b[i]
    ensures GainedBy(a, n) == GainedBy(b, n)
  {
    if n > 0 { GainedAlike(a, b, n - 1); }
  }

  lemma {:induction false} GainedGone(book: seq<Entry>, i: nat, n: nat)
    requires i <= n < |book|
    ensures GainedBy(book[..i] + book[i + 1..], n) + book[i].gains == GainedBy(book, n + 1)
  {
    var rest := book[..i] + book[i + 1..];
    if n == i {
      GainedAlike(rest, book, i);
    } else {
      GainedGone(book, i, n - 1);
      assert rest[n - 1] == book[n];
    }
  }

  /** Connection i moved to p' and q', where it gained more. */
  lemma PutSim(f: Page, book: seq<Entry>, lost: set<TargetId>, w: World, v: World, i: nat,
               e: Entry, p': Side, q': Side, more: set<TargetId>)
    requires WorldSim(f, book, lost, w, v) && i < |w.conns|
    requires Sim(f, e, p', q') && OwnSim(f, p'.own, q'.own) && e.gains == book[i].gains + more
    requires p'.own.pages * f.ids == w.own.pages * f.ids
    requires Kids(f, p') == w.own.children * f.ids && Kids(f, q') == v.own.children * f.ids + more
    ensures WorldSim(f, book[i := e], lost, Put(w, i, p'), Put(v, i, q'))
  {
    PutConns(f, book, w, v, i, e, p', q');
    GainedMore(book, i, e, more, |book|);
  }

  lemma PutConns(f: Page, book: seq<Entry>, w: World, v: World, i: nat, e: Entry, p': Side, q': Side)
    requires ConnsSim(f, book, w, v) && i < |w.conns|
    requires Sim(f, e, p', q') && OwnSim(f, p'.own, q'.own)
    requires p'.own.pages * f.ids == w.own.pages * f.ids
    ensures ConnsSim(f, book[i := e], Put(w, i, p'), Put(v, i, q'))
  {
    var after, r, r' := book[i := e], Put(w, i, p'), Put(v, i, q');
    forall j: nat | j < |r.conns| ensures SimAt(f, after, r, r', j) {
      assert SimAt(f, book, w, v, j);
      if j != i { SimShared(f, book[j], At(w, j), At(v, j), p'.own, q'.own); }
    }
  }

  /** Connection i moved to p' and q', and its hold entry stayed as it was. */
  lemma PutAlike(f: Page, book: seq<Entry>, lost: set<TargetId>, w: World, v: World, i: nat,
                 p': Side, q': Side)
    requires WorldSim(f, book, lost, w, v) && i < |w.conns|
    requires Sim(f, book[i], p', q') && OwnSim(f, p'.own, q'.own)
    requires p'.own.pages * f.ids == w.own.pages * f.ids
    requires Kids(f, p') == w.own.children * f.ids && Kids(f, q') == v.own.children * f.ids
    ensures WorldSim(f, book, lost, Put(w, i, p'), Put(v, i, q'))
  {
    PutSim(f, book, lost, w, v, i, book[i], p', q', {});
    assert book[i := book[i]] == book;
  }

  // ---- remembered tabs ----

  /** The message announces target t on the browser level, and t is not owned. */
  predicate Announces(s: Side, m: Message, t: TargetId) {
    && (m.via.None? || m.via.value in s.conn.browsers) && !s.own.Owns(t)
    && match m.event
       case Attached(_, info) =>
         info.Some? && info.value.target == t && info.value.kind != BrowserTarget
       case Announced(info) => info.Some? && info.value.target == t
       case _ => false
  }

  lemma HandleTabs(s: Side, m: Message, t: TargetId)
    requires t in Handle(s, m).own.tabs
    ensures t in s.own.tabs || Announces(s, m, t)
  {
  }

  /** From s to r, tabs are remembered only outside the page. */
  ghost predicate TabsOutside(f: Page, s: Side, r: Side) {
    forall t | t in r.own.tabs :: t in s.own.tabs || t !in f.ids
  }

  lemma ForeignTabs(f: Page, s: Side, m: Message)
    requires Foreign(f, m)
    ensures TabsOutside(f, s, Handle(s, m))
  {
    forall t | t in Handle(s, m).own.tabs ensures t in s.own.tabs || t !in f.ids {
      HandleTabs(s, m, t);
    }
  }

  lemma {:induction false} ReplayTabs(f: Page, s: Side, ms: seq<Message>)
    requires forall m | m in ms :: Foreign(f, m)
    ensures TabsOutside(f, s, Replay(s, ms))
  {
    if ms != [] {
      ReplayTabs(f, s, ms[..|ms| - 1]);
      ForeignTabs(f, Replay(s, ms[..|ms| - 1]), ms[|ms| - 1]);
    }
  }

  lemma SettleOneTabs(f: Page, s: Side, t: TargetId)
    requires Sane(f, s) && t != f.target
    ensures TabsOutside(f, s, SettleOne(s, t))
  {
    if t in s.conn.held && s.own.Owns(t) {
      ReplayTabs(f, s.(conn := Unhold(s.conn, t)), s.conn.held[t].messages);
    }
  }

  lemma {:induction false} SettleEachTabs(f: Page, e: Entry, p: Side, q: Side, ts: seq<TargetId>)
    requires Sim(f, e, p, q)
    ensures TabsOutside(f, p, SettleEach(p, ts))
    ensures TabsOutside(f, q, SettleEach(q, Without(ts, f.target)))
  {
    if ts != [] {
      var front, t := ts[..|ts| - 1], ts[|ts| - 1];
      var rest := Without(front, f.target);
      SettleEachTabs(f, e, p, q, front);
      SimSettleEach(f, e, p, q, front);
      assert rest + [] == rest && (rest + [t])[..|rest|] == rest;
      if t != f.target {
        SettleOneTabs(f, SettleEach(p, front), t);
        SettleOneTabs(f, SettleEach(q, rest), t);
      }
    }
  }

  // ---- a message from Chromium ----

  lemma RoutedTabs(f: Page, s: Side, m: Message)
    requires Routed(f, s, m) && Sane(f, s)
    ensures forall t | t in Handle(s, m).own.tabs :: t in s.own.tabs || (t == f.target && !s.own.Owns(t))
  {
    forall t | t in Handle(s, m).own.tabs ensures t in s.own.tabs || (t == f.target && !s.own.Owns(t)) {
      HandleTabs(s, m, t);
    }
  }

  lemma KnownTabs(f: Page, s: Side, m: Message)
    requires Ready(f, s) && Belongs(f, m) && f.target !in s.own.tabs
    ensures f.target !in Handle(s, m).own.tabs
  {
    if f.target in Handle(s, m).own.tabs { HandleTabs(s, m, f.target); }
  }

  /** A message that is held for the page or ignored, names nothing of it, or attaches a
      browser-level session of it. */
  ghost predicate Expected(f: Page, s: Side, m: Message) {
    Routed(f, s, m) || Ignored(f, s, m) || Foreign(f, m) || OpensVia(f, s, m)
  }

  ghost function GainOf(f: Page, p: Side, q: Side, m: Message): set<TargetId> {
    if Routed(f, p, m) || Ignored(f, p, m) then Gain(f, q, m) else {}
  }

  ghost function EntryAfter(f: Page, e: Entry, p: Side, q: Side, m: Message): Entry {
    if Ignored(f, p, m) then Missing(f, e, q, m)
    else if Routed(f, p, m) then e.(gains := e.gains + Gain(f, q, m))
    else e
  }

  /** From p and q handling the message keeps the sides alike, with what it gains. */
  ghost predicate Handled(f: Page, e: Entry, p: Side, q: Side, m: Message, after: Entry) {
    && Sim(f, after, Handle(p, m), Handle(q, m))
    && Kids(f, Handle(p, m)) == Kids(f, p) && Inner(f, Handle(p, m)).pages == Inner(f, p).pages
    && Kids(f, Handle(q, m)) == Kids(f, q) + GainOf(f, p, q, m)
    && after.gains == e.gains + GainOf(f, p, q, m)
  }

  lemma HandledInside(f: Page, e: Entry, p: Side, q: Side, m: Message)
    requires Sim(f, e, p, q) && (Routed(f, p, m) || Ignored(f, p, m))
    ensures Handled(f, e, p, q, m, EntryAfter(f, e, p, q, m))
  {
    if Ignored(f, p, m) { SimIgnored(f, e, p, q, m); } else { SimRouted(f, e, p, q, m); }
  }

  lemma HandledOutside(f: Page, e: Entry, p: Side, q: Side, m: Message)
    requires Sim(f, e, p, q) && (Foreign(f, m) || OpensVia(f, p, m)) && GainOf(f, p, q, m) == {}
    ensures Handled(f, e, p, q, m, e)
  {
    assert e.gains + {} == e.gains && Kids(f, q) + {} == Kids(f, q);
    if Foreign(f, m) { SimForeign(f, e, p, q, m); } else { SimOpensVia(f, e, p, q, m); }
  }

  lemma SimExpected(f: Page, e: Entry, p: Side, q: Side, m: Message)
    requires Sim(f, e, p, q) && Expected(f, p, m)
    ensures Handled(f, e, p, q, m, EntryAfter(f, e, p, q, m))
  {
    if Routed(f, p, m) || Ignored(f, p, m) {
      HandledInside(f, e, p, q, m);
    } else {
      HandledOutside(f, e, p, q, m);
    }
  }

  lemma OfPageTabs(f: Page, s: Side, m: Message)
    requires Ready(f, s) && OfPage(f, m) && f.target !in s.own.tabs
    ensures f.target !in Handle(s, m).own.tabs
  {
    if Belongs(f, m) { KnownTabs(f, s, m); } else { DownloadHandled(f, s, m); }
  }

  lemma ExpectedTabs(f: Page, e: Entry, p: Side, q: Side, m: Message)
    requires Sim(f, e, p, q) && Expected(f, p, m)
    requires f.target !in q.own.tabs && TabsElsewhere(f, p.own.tabs)
    ensures f.target !in Handle(q, m).own.tabs && TabsElsewhere(f, Handle(p, m).own.tabs)
  {
    if Routed(f, p, m) {
      RoutedTabs(f, p, m);
      KnownTabs(f, q, m);
    } else if Ignored(f, p, m) {
      OfPageTabs(f, q, m);
    } else if Foreign(f, m) {
      ForeignTabs(f, p, m);
      ForeignTabs(f, q, m);
    } else {
      OuterFields(f, p);
      OuterFields(f, q);
      SameHeldSessions(f, p, q, m);
      ViaOpened(f, p, m);
      ViaOpened(f, q, m);
    }
  }

  lemma MessageSim(f: Page, book: seq<Entry>, lost: set<TargetId>, w: World, v: World, i: nat,
                   m: Message)
    requires WorldSim(f, book, lost, w, v) && i < |w.conns| && Expected(f, At(w, i), m)
    ensures WorldSim(f, book[i := EntryAfter(f, book[i], At(w, i), At(v, i), m)], lost,
                     Next(w, FromChromium(i, m)), Next(v, FromChromium(i, m)))
  {
    var p, q := At(w, i), At(v, i);
    assert SimAt(f, book, w, v, i);
    SimExpected(f, book[i], p, q, m);
    ExpectedTabs(f, book[i], p, q, m);
    var e := EntryAfter(f, book[i], p, q, m);
    SimOwn(f, e, Handle(p, m), Handle(q, m));
    PutSim(f, book, lost, w, v, i, e, Handle(p, m), Handle(q, m), GainOf(f, p, q, m));
  }

  // ---- client commands and replies that name nothing of the page ----

  /** From s to r, and alike from s' to r', only the rest of one connection and the pending count
      changed. */
  ghost predicate Besides(f: Page, s: Side, r: Side) {
    && r.own.(pending := s.own.pending) == s.own && s.own.pending <= r.own.pending
    && r.conn.sessions == s.conn.sessions && r.conn.browsers == s.conn.browsers
    && r.conn.held == s.conn.held && r.conn.heldOrder == s.conn.heldOrder
    && r.conn.heldSessions == s.conn.heldSessions && r.conn.frames * f.ids == s.conn.frames * f.ids
    && r.conn.downloads == s.conn.downloads
    && ToldInside(f, r.conn.client) == ToldInside(f, s.conn.client)
  }

  lemma BesidesSim(f: Page, e: Entry, p: Side, q: Side, p': Side, q': Side)
    requires Sim(f, e, p, q) && OwnSim(f, p.own, q.own)
    requires Besides(f, p, p') && Besides(f, q, q') && Outer(f, p') == Outer(f, q')
    ensures Sim(f, e, p', q') && OwnSim(f, p'.own, q'.own)
    ensures HeldMessages(f, p'.conn) == HeldMessages(f, p.conn)
    ensures Kids(f, p') == Kids(f, p) && Kids(f, q') == Kids(f, q)
  {
    BesidesViews(f, p, p');
    BesidesViews(f, q, q');
    SimRest(f, e, p, q, p', q');
    SimOwn(f, e, p', q');
  }

  lemma BesidesViews(f: Page, s: Side, r: Side)
    requires Besides(f, s, r)
    ensures Inner(f, r) == Inner(f, s) && Kids(f, r) == Kids(f, s) && SameHold(f, s, r)
    ensures Sane(f, s) ==> Sane(f, r)
    ensures Kept(s.conn) ==> Kept(r.conn)
  {
  }

  lemma LogSaid(f: Page, log: seq<ClientFrame>, x: ClientFrame)
    requires !x.Forwarded?
    ensures ToldInside(f, log + [x]) == ToldInside(f, log)
    ensures ToldOutside(f, log + [x]) == ToldOutside(f, log) + [x]
  {
    assert (log + [x])[..|log|] == log;
    assert ToldInside(f, log) + [] == ToldInside(f, log);
  }

  /** The command names neither the page nor a session of it. */
  predicate CommandElsewhere(f: Page, session: Option<SessionId>, p: Params) {
    && (session.Some? ==> session.value !in f.sessions)
    && (p.session.Some? ==> p.session.value !in f.sessions)
    && (p.target.Some? ==> p.target.value !in f.ids)
  }

  /** All that a denial depends on. */
  lemma DenialReads(s: Side, s': Side, session: Option<SessionId>, verb: Method, p: Params)
    requires s.conn.browsers == s'.conn.browsers && s.conn.windows == s'.conn.windows
    requires session.Some? ==> (session.value in s.conn.sessions <==> session.value in s'.conn.sessions)
    requires p.session.Some? ==>
      (p.session.value in s.conn.sessions <==> p.session.value in s'.conn.sessions)
    requires p.target.Some? ==> (s.own.Owns(p.target.value) <==> s'.own.Owns(p.target.value))
    ensures Denial(s, session, verb, p) == Denial(s', session, verb, p)
  {
    CommandDenialReads(s, s', verb, p, session.None? || session.value in s.conn.browsers);
  }

  lemma CommandDenialReads(s: Side, s': Side, verb: Method, p: Params, browserLevel: bool)
    requires s.conn.browsers == s'.conn.browsers && s.conn.windows == s'.conn.windows
    requires p.session.Some? ==>
      (p.session.value in s.conn.sessions <==> p.session.value in s'.conn.sessions)
    requires p.target.Some? ==> (s.own.Owns(p.target.value) <==> s'.own.Owns(p.target.value))
    ensures CommandDenial(s, verb, p, browserLevel) == CommandDenial(s', verb, p, browserLevel)
  {
  }

  lemma SameDenial(f: Page, s: Side, s': Side, session: Option<SessionId>, verb: Method, p: Params)
    requires Outer(f, s) == Outer(f, s') && CommandElsewhere(f, session, p)
    ensures Denial(s, session, verb, p) == Denial(s', session, verb, p)
  {
    OuterFields(f, s);
    OuterFields(f, s');
    SameAttached(f, s, s', session);
    SameAttached(f, s, s', p.session);
    if p.target.Some? { SameOwner(f, s.own, s'.own, p.target.value); }
    DenialReads(s, s', session, verb, p);
  }

  lemma SameOwner(f: Page, own: Ownership, own': Ownership, t: TargetId)
    requires OuterOwn(f, own) == OuterOwn(f, own') && t !in f.ids
    ensures own.Owns(t) <==> own'.Owns(t)
  {
    assert own.Owns(t) <==> OuterOwn(f, own).Owns(t);
    assert own'.Owns(t) <==> OuterOwn(f, own').Owns(t);
  }

  lemma SameAttached(f: Page, s: Side, s': Side, session: Option<SessionId>)
    requires Outer(f, s) == Outer(f, s') && (session.Some? ==> session.value !in f.sessions)
    ensures session.Some? ==> (session.value in s.conn.sessions <==> session.value in s'.conn.sessions)
  {
    if session.Some? {
      assert session.value in s.conn.sessions <==> session.value in Outer(f, s).conn.sessions;
      assert session.value in s'.conn.sessions <==> session.value in Outer(f, s').conn.sessions;
    }
  }

  lemma CommandElsewhereSim(f: Page, p: Side, q: Side, id: int, session: Option<SessionId>,
                            verb: Method, params: Params)
    requires Outer(f, p) == Outer(f, q) && CommandElsewhere(f, session, params)
    ensures var p', q' := ClientCommand(p, id, session, verb, params), ClientCommand(q, id, session, verb, params);
      Besides(f, p, p') && Besides(f, q, q') && Outer(f, p') == Outer(f, q')
  {
    SameDenial(f, p, q, session, verb, params);
    OuterFields(f, p);
    OuterFields(f, q);
    var denial := Denial(p, session, verb, params);
    if denial.Some? {
      LogSaid(f, p.conn.client, Refused(id, session, denial.value));
      LogSaid(f, q.conn.client, Refused(id, session, denial.value));
    } else {
      RelayedAlike(f, p, q, id, session, verb, params);
    }
  }

  lemma RelayedAlike(f: Page, p: Side, q: Side, id: int, session: Option<SessionId>, verb: Method,
                     params: Params)
    requires Outer(f, p) == Outer(f, q)
    ensures var p', q' := Relay(p, id, session, verb, params), Relay(q, id, session, verb, params);
      Besides(f, p, p') && Besides(f, q, q') && Outer(f, p') == Outer(f, q')
  {
    OuterFields(f, p);
    OuterFields(f, q);
    var p', q' := Relay(p, id, session, verb, params), Relay(q, id, session, verb, params);
    assert p'.conn.upstream == q'.conn.upstream && p'.conn.inflight == q'.conn.inflight;
    assert Outer(f, p').own == Outer(f, q').own;
  }

  lemma CommandSim(f: Page, book: seq<Entry>, lost: set<TargetId>, w: World, v: World, a: Action)
    requires WorldSim(f, book, lost, w, v) && a.FromClient? && a.i < |w.conns|
    requires CommandElsewhere(f, a.session, a.params)
    ensures WorldSim(f, book, lost, Next(w, a), Next(v, a))
  {
    var p, q := At(w, a.i), At(v, a.i);
    assert SimAt(f, book, w, v, a.i);
    var p' := ClientCommand(p, a.client, a.session, a.verb, a.params);
    var q' := ClientCommand(q, a.client, a.session, a.verb, a.params);
    CommandElsewhereSim(f, p, q, a.client, a.session, a.verb, a.params);
    BesidesSim(f, book[a.i], p, q, p', q');
    PutAlike(f, book, lost, w, v, a.i, p', q');
  }

  /** The reply lists no target or frame of the page. */
  predicate AnswerElsewhere(f: Page, answer: Option<Answer>) {
    answer.Some? ==>
      && answer.value.frames !! f.ids
      && (answer.value.infos.Some? ==>
            forall t | t in answer.value.infos.value :: t.Some? ==> t.value !in f.ids)
  }

  lemma {:induction false} SameOwnedOnly(f: Page, own: Ownership, own': Ownership,
                                         infos: seq<Option<TargetId>>)
    requires OuterOwn(f, own) == OuterOwn(f, own')
    requires forall t | t in infos :: t.Some? ==> t.value !in f.ids
    ensures OwnedOnly(own, infos) == OwnedOnly(own', infos)
  {
    if infos != [] {
      var last := infos[|infos| - 1];
      SameOwnedOnly(f, own, own', infos[..|infos| - 1]);
      if last.Some? { SameOwner(f, own, own', last.value); }
    }
  }

  /** What a reply shows the client. */
  function Said(s: Side, command: Inflight, answer: Option<Answer>): ClientFrame
    requires command.client.Some?
  {
    if answer.None? then Answered(command.client.value, None)
    else
      var a := answer.value;
      var shown := if command.verb == GetTargets && a.infos.Some? then
                     a.(infos := Some(OwnedOnly(s.own, a.infos.value)))
                   else a;
      Answered(command.client.value, Some(shown))
  }

  function WindowsOf(command: Inflight, answer: Option<Answer>): set<int> {
    if command.verb == WindowForTarget && answer.Some? && answer.value.window.Some?
    then {answer.value.window.value} else {}
  }

  function FramesOf(command: Inflight, answer: Option<Answer>): set<TargetId> {
    if command.verb == GetFrameTree && answer.Some? then answer.value.frames else {}
  }

  /** The client was told, and the connection knows more windows and frames. */
  function Telling(s: Side, said: ClientFrame, windows: set<int>, frames: set<TargetId>): Side {
    s.(conn := s.conn.(windows := s.conn.windows + windows, frames := s.conn.frames + frames,
                       client := s.conn.client + [said]))
  }

  lemma AnswerTells(s: Side, command: Inflight, answer: Option<Answer>)
    requires command.client.Some?
    ensures AnswerClient(s, command, answer)
         == Telling(s, Said(s, command, answer), WindowsOf(command, answer), FramesOf(command, answer))
  {
    assert s.conn.windows + {} == s.conn.windows && s.conn.frames + {} == s.conn.frames;
  }

  lemma TellingOuter(f: Page, s: Side, said: ClientFrame, windows: set<int>, frames: set<TargetId>)
    requires !said.Forwarded? && frames !! f.ids
    ensures Besides(f, s, Telling(s, said, windows, frames))
    ensures Outer(f, Telling(s, said, windows, frames)) == Telling(Outer(f, s), said, windows, frames)
  {
    LogSaid(f, s.conn.client, said);
    Added(f.ids, s.conn.frames, s.conn.frames, frames);
    assert (s.conn.frames + frames) - f.ids == (s.conn.frames - f.ids) + frames;
  }

  lemma SameSaid(f: Page, p: Side, q: Side, command: Inflight, answer: Option<Answer>)
    requires Outer(f, p) == Outer(f, q) && AnswerElsewhere(f, answer) && command.client.Some?
    ensures Said(p, command, answer) == Said(q, command, answer)
  {
    if answer.Some? && answer.value.infos.Some? {
      SameOwnedOnly(f, p.own, q.own, answer.value.infos.value);
    }
  }

  lemma AnswerElsewhereSim(f: Page, p: Side, q: Side, command: Inflight, answer: Option<Answer>)
    requires Outer(f, p) == Outer(f, q) && AnswerElsewhere(f, answer)
    ensures var p', q' := AnswerClient(p, command, answer), AnswerClient(q, command, answer);
      Besides(f, p, p') && Besides(f, q, q') && Outer(f, p') == Outer(f, q')
  {
    if command.client.Some? {
      var windows, frames := WindowsOf(command, answer), FramesOf(command, answer);
      AnswerTells(p, command, answer);
      AnswerTells(q, command, answer);
      SameSaid(f, p, q, command, answer);
      TellingOuter(f, p, Said(p, command, answer), windows, frames);
      TellingOuter(f, q, Said(q, command, answer), windows, frames);
    }
  }
}
