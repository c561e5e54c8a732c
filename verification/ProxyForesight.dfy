/** Holding a target and replaying it later equals having known all along that it is owned.

    The proof splits a connection's state into what belongs to the held page (Inner) and the rest
    (Outer). Messages of the page read and write only the inner part; every other message reads
    and writes only the outer part, so the two kinds commute. */
module ProxyForesight {
  import opened Wrappers
  import opened ProxyModel
  import opened ProxyHolds

  /** A page that is held: its target, every id (target or frame) and session that belongs to it,
      the extra browser-level sessions its events may arrive on, and its downloads. */
  datatype Page = Page(target: TargetId, ids: set<TargetId>, sessions: set<SessionId>,
                       vias: set<SessionId>, guids: set<nat>)
  {
    predicate Valid() {
      target in ids && sessions !! vias && BROWSER_SOCKET !in sessions + vias
    }

    /** The session id names nothing of the page and none of the sessions its events use. */
    predicate Elsewhere(s: SessionId) {
      s !in sessions && s !in vias && s != BROWSER_SOCKET
    }
  }

  predicate InfoElsewhere(f: Page, info: TargetInfo) {
    info.target !in f.ids && (info.opener.Some? ==> info.opener.value !in f.ids)
  }

  /** A message that names nothing of the page. */
  predicate Foreign(f: Page, m: Message) {
    && (m.via.Some? ==> m.via.value !in f.sessions)
    && match m.event
       case Attached(session, info) =>
         (session.Some? ==> f.Elsewhere(session.value)) && (info.Some? ==> InfoElsewhere(f, info.value))
       case Detached(session) => session.Some? ==> f.Elsewhere(session.value)
       case Announced(info) => info.Some? ==> InfoElsewhere(f, info.value)
       case Gone(target, _) => target.Some? ==> target.value !in f.ids
       case FrameSeen(frame) => frame.Some? ==> frame.value !in f.ids
       case DownloadBegin(frame, guid) =>
         frame.Some? && guid.Some? ==> frame.value !in f.ids && guid.value !in f.guids
       case DownloadProgress(guid, _) => guid.Some? ==> guid.value !in f.guids
       case _ => true
  }

  /** A message about the page: from one of its sessions, or a browser-level event naming it.
      Its destruction is not among them. */
  predicate Belongs(f: Page, m: Message) {
    if m.via.Some? && m.via.value in f.sessions then
      match m.event
      case Attached(session, info) =>
        session.Some? && session.value in f.sessions && info.Some? && info.value.target in f.ids
      case Detached(session) => session.Some? ==> session.value in f.sessions
      case FrameSeen(frame) => frame.Some? ==> frame.value in f.ids
      case _ => true
    else
      && (m.via.Some? ==> m.via.value in f.vias)
      && match m.event
         case Attached(session, info) =>
           session.Some? && session.value in f.sessions && info.Some?
           && info.value.target == f.target && info.value.kind != BrowserTarget
         case Detached(session) => session.Some? && session.value in f.sessions
         case Announced(info) => info.Some? && info.value.target == f.target
         case Gone(target, destroyed) => target == Some(f.target) && !destroyed
         case _ => false
  }

  /** A browser-level event about a download that one of the page's frames begins. */
  predicate Downloads(f: Page, m: Message) {
    && (m.via.Some? ==> m.via.value in f.vias)
    && match m.event
       case DownloadBegin(frame, guid) =>
         frame.Some? && frame.value in f.ids && guid.Some? && guid.value in f.guids
       case DownloadProgress(guid, _) => guid.Some? && guid.value in f.guids
       case _ => false
  }

  /** Every message of the page. Downloads are never held. */
  predicate OfPage(f: Page, m: Message) {
    Belongs(f, m) || Downloads(f, m)
  }

  function Restrict<V>(m: map<nat, V>, keep: set<nat>): map<nat, V> {
    map k | k in m && k in keep :: m[k]
  }

  /** What the client was told about the page. */
  function ToldInside(f: Page, log: seq<ClientFrame>): seq<ClientFrame> {
    if log == [] then []
    else
      var last := log[|log| - 1];
      ToldInside(f, log[..|log| - 1])
      + (if last.Forwarded? && OfPage(f, last.message) then [last] else [])
  }

  function ToldOutside(f: Page, log: seq<ClientFrame>): seq<ClientFrame> {
    if log == [] then []
    else
      var last := log[|log| - 1];
      ToldOutside(f, log[..|log| - 1])
      + (if last.Forwarded? && OfPage(f, last.message) then [] else [last])
  }

  /** What handling the page's messages reads of it. */
  datatype InnerView = InnerView(pages: set<TargetId>, frames: set<TargetId>, downloads: set<nat>,
                                 sessions: map<SessionId, SessionId>, told: seq<ClientFrame>)

  function Inner(f: Page, s: Side): InnerView {
    InnerView(s.own.pages * f.ids, s.conn.frames * f.ids, s.conn.downloads * f.guids,
              Restrict(s.conn.sessions, f.sessions), ToldInside(f, s.conn.client))
  }

  /** The targets attached inside the page. They are shared by every connection. */
  function Kids(f: Page, s: Side): set<TargetId> {
    s.own.children * f.ids
  }

  function OuterOwn(f: Page, own: Ownership): Ownership {
    Ownership(own.pages - f.ids, own.children - f.ids, own.pending, Without(own.tabs, f.target))
  }

  /** Everything else the handlers read or write: a whole Side with the page's part taken out. */
  function Outer(f: Page, s: Side): Side {
    Side(OuterOwn(f, s.own),
         s.conn.(frames := s.conn.frames - f.ids, downloads := s.conn.downloads - f.guids,
                 sessions := s.conn.sessions - f.sessions,
                 held := s.conn.held - {f.target}, heldOrder := Without(s.conn.heldOrder, f.target),
                 heldSessions := s.conn.heldSessions - f.sessions,
                 client := ToldOutside(f, s.conn.client)))
  }

  // ---- what every state of the run satisfies ----

  /** The page is held with its own sessions, and other targets hold only foreign messages. */
  ghost predicate HeldElsewhere(f: Page, held: map<TargetId, HeldTarget>) {
    && (f.target in held ==> forall x | x in held[f.target].sessions :: x.0 in f.sessions)
    && forall t | t in held && t != f.target ::
      t !in f.ids
      && (forall m | m in held[t].messages :: Foreign(f, m))
      && (forall x | x in held[t].sessions :: f.Elsewhere(x.0))
  }

  /** No parent link crosses from the page to the rest or back. */
  ghost predicate Split(f: Page, m: map<SessionId, SessionId>) {
    && f.Valid() && BROWSER_SOCKET !in m && m.Keys !! f.vias
    && (forall k | k in m :: k in f.sessions ==>
          m[k] in f.sessions || m[k] in f.vias || m[k] == BROWSER_SOCKET)
    && (forall k | k in m :: k !in f.sessions ==> m[k] !in f.sessions)
  }

  ghost predicate Sane(f: Page, s: Side) {
    && Split(f, s.conn.sessions)
    && f.sessions !! s.conn.browsers
    && s.conn.heldSessions.Keys !! f.vias
    && (forall k | k in s.conn.heldSessions ::
          s.conn.heldSessions[k] == f.target <==> k in f.sessions)
    && HeldElsewhere(f, s.conn.held)
  }

  /** The proxy that knows: the page is owned and nothing of it is held. */
  ghost predicate Ready(f: Page, s: Side) {
    && Sane(f, s) && s.own.Owns(f.target)
    && f.target !in s.conn.held && s.conn.heldSessions.Keys !! f.sessions
  }

  // ---- the session forest splits along the page ----

  lemma {:induction false} NotUnderElsewhere(f: Page, m: map<SessionId, SessionId>, k: SessionId, s: SessionId,
                          n: nat)
    requires Split(f, m) && f.Elsewhere(s) && k in f.sessions + f.vias + {BROWSER_SOCKET}
    ensures !Above(m, k, s, n)
    decreases n
  {
    if n > 0 && k in m { NotUnderElsewhere(f, m, m[k], s, n - 1); }
  }

  lemma {:induction false} NotUnderInside(f: Page, m: map<SessionId, SessionId>, k: SessionId, s: SessionId,
                       n: nat)
    requires Split(f, m) && k !in f.sessions && s in f.sessions
    ensures !Above(m, k, s, n)
    decreases n
  {
    if n > 0 && k in m { NotUnderInside(f, m, m[k], s, n - 1); }
  }

  lemma {:induction false} SameChainInside(f: Page, m: map<SessionId, SessionId>, m': map<SessionId, SessionId>,
                        k: SessionId, s: SessionId, n: nat)
    requires Split(f, m) && k in f.sessions && s in f.sessions && Above(m, k, s, n)
    requires Restrict(m, f.sessions) == Restrict(m', f.sessions)
    ensures Above(m', k, s, n)
    decreases n
  {
    if n > 0 {
      assert k in Restrict(m, f.sessions);
      assert k in Restrict(m', f.sessions);
      SameChainInside(f, m, m', m[k], s, n - 1);
    }
  }

  lemma {:induction false} SameChainOutside(f: Page, m: map<SessionId, SessionId>, m': map<SessionId, SessionId>,
                         k: SessionId, s: SessionId, n: nat)
    requires Split(f, m) && k !in f.sessions && Above(m, k, s, n)
    requires m - f.sessions == m' - f.sessions
    ensures Above(m', k, s, n)
    decreases n
  {
    if n > 0 {
      assert k in m - f.sessions;
      assert k in m' - f.sessions;
      SameChainOutside(f, m, m', m[k], s, n - 1);
    }
  }

  lemma DropInside(f: Page, m: map<SessionId, SessionId>, m': map<SessionId, SessionId>, s: SessionId)
    requires Split(f, m) && Split(f, m') && s in f.sessions
    requires Restrict(m, f.sessions) == Restrict(m', f.sessions)
    ensures Restrict(DropTree(m, s), f.sessions) == Restrict(DropTree(m', s), f.sessions)
    ensures DropTree(m, s) - f.sessions == m - f.sessions
    ensures Split(f, DropTree(m, s))
  {
    forall k | k in m && k !in f.sessions ensures !Under(m, k, s) {
      if Under(m, k, s) {
        var n: nat :| Above(m, k, s, n);
        NotUnderInside(f, m, k, s, n);
      }
    }
    forall k | k in f.sessions ensures Under(m, k, s) <==> Under(m', k, s) {
      if Under(m, k, s) {
        var n: nat :| Above(m, k, s, n);
        SameChainInside(f, m, m', k, s, n);
      }
      if Under(m', k, s) {
        var n: nat :| Above(m', k, s, n);
        SameChainInside(f, m', m, k, s, n);
      }
    }
    SameRestriction(f, m, m');
  }

  lemma SameRestriction(f: Page, m: map<SessionId, SessionId>, m': map<SessionId, SessionId>)
    requires Restrict(m, f.sessions) == Restrict(m', f.sessions)
    ensures forall k | k in f.sessions :: (k in m <==> k in m') && (k in m ==> m[k] == m'[k])
  {
    forall k | k in f.sessions ensures (k in m <==> k in m') && (k in m ==> m[k] == m'[k]) {
      assert k in m <==> k in Restrict(m, f.sessions);
      assert k in m' <==> k in Restrict(m', f.sessions);
      if k in m { assert Restrict(m, f.sessions)[k] == m[k]; }
      if k in m' { assert Restrict(m', f.sessions)[k] == m'[k]; }
    }
  }

  lemma DropOutside(f: Page, m: map<SessionId, SessionId>, m': map<SessionId, SessionId>, s: SessionId)
    requires Split(f, m) && Split(f, m') && f.Elsewhere(s)
    requires m - f.sessions == m' - f.sessions
    ensures Restrict(DropTree(m, s), f.sessions) == Restrict(m, f.sessions)
    ensures DropTree(m, s) - f.sessions == DropTree(m', s) - f.sessions
    ensures Split(f, DropTree(m, s))
  {
    forall k | k in m && k in f.sessions ensures !Under(m, k, s) {
      if Under(m, k, s) {
        var n: nat :| Above(m, k, s, n);
        NotUnderElsewhere(f, m, k, s, n);
      }
    }
    forall k | k !in f.sessions ensures Under(m, k, s) <==> Under(m', k, s) {
      if Under(m, k, s) {
        var n: nat :| Above(m, k, s, n);
        SameChainOutside(f, m, m', k, s, n);
      }
      if Under(m', k, s) {
        var n: nat :| Above(m', k, s, n);
        SameChainOutside(f, m', m, k, s, n);
      }
    }
    assert forall k | k !in f.sessions ::
      (k in m <==> k in m - f.sessions) && (k in m' <==> k in m' - f.sessions);
    assert forall k | k in m - f.sessions :: m[k] == (m - f.sessions)[k] == (m' - f.sessions)[k];
  }

  // ---- one message ----

  lemma Told(f: Page, log: seq<ClientFrame>, m: Message)
    ensures ToldInside(f, log + [Forwarded(m)])
         == ToldInside(f, log) + (if OfPage(f, m) then [Forwarded(m)] else [])
    ensures ToldOutside(f, log + [Forwarded(m)])
         == ToldOutside(f, log) + (if OfPage(f, m) then [] else [Forwarded(m)])
  {
    assert (log + [Forwarded(m)])[..|log|] == log;
  }

  lemma {:induction false} WithoutAppend(order: seq<TargetId>, x: TargetId, t: TargetId)
    ensures Without(order + [x], t) == Without(order, t) + (if x == t then [] else [x])
  {
    assert (order + [x])[..|order|] == order;
  }

  lemma ForwardViews(f: Page, s: Side, m: Message)
    ensures OfPage(f, m) ==> Outer(f, Forward(s, m)) == Outer(f, s)
    ensures OfPage(f, m) ==>
      Inner(f, Forward(s, m)) == Inner(f, s).(told := Inner(f, s).told + [Forwarded(m)])
    ensures !OfPage(f, m) ==> Inner(f, Forward(s, m)) == Inner(f, s)
    ensures !OfPage(f, m) ==> Outer(f, Forward(s, m)) == Forward(Outer(f, s), m)
  {
    Told(f, s.conn.client, m);
  }

  lemma LinkViews(f: Page, m: map<SessionId, SessionId>, k: SessionId, parent: SessionId)
    ensures k in f.sessions ==> Restrict(m[k := parent], f.sessions) == Restrict(m, f.sessions)[k := parent]
    ensures k in f.sessions ==> m[k := parent] - f.sessions == m - f.sessions
    ensures k !in f.sessions ==> Restrict(m[k := parent], f.sessions) == Restrict(m, f.sessions)
    ensures k !in f.sessions ==> m[k := parent] - f.sessions == (m - f.sessions)[k := parent]
  {
  }

  predicate FromPage(f: Page, m: Message) {
    m.via.Some? && m.via.value in f.sessions
  }

  /** The state a message about the page leaves before it is forwarded. */
  ghost function PageState(f: Page, s: Side, m: Message): Side {
    match m.event
    case Attached(Some(child), Some(info)) =>
      var own := if !FromPage(f, m) || info.target in s.own.pages then s.own
                 else s.own.(children := s.own.children + {info.target});
      var parent := if m.via.Some? then m.via.value else BROWSER_SOCKET;
      Side(own, s.conn.(sessions := s.conn.sessions[child := parent]))
    case Detached(Some(child)) =>
      s.(conn := s.conn.(sessions := DropTree(s.conn.sessions, child)))
    case FrameSeen(Some(frame)) => s.(conn := s.conn.(frames := s.conn.frames + {frame}))
    case _ => s
  }

  lemma PageStates(f: Page, s: Side, s': Side, m: Message)
    requires Ready(f, s) && Ready(f, s') && Inner(f, s) == Inner(f, s') && Belongs(f, m)
    ensures Ready(f, PageState(f, s, m))
    ensures Inner(f, PageState(f, s, m)) == Inner(f, PageState(f, s', m))
    ensures Outer(f, PageState(f, s, m)) == Outer(f, s)
  {
    var v, v' := Inner(f, s), Inner(f, s');
    match m.event
    case Attached(Some(child), Some(info)) =>
      var parent := if m.via.Some? then m.via.value else BROWSER_SOCKET;
      LinkViews(f, s.conn.sessions, child, parent);
      LinkViews(f, s'.conn.sessions, child, parent);
      var r := PageState(f, s, m);
      assert r.own.children - f.ids == s.own.children - f.ids;
      assert Outer(f, r).own == Outer(f, s).own;
    case Detached(Some(child)) =>
      DropInside(f, s.conn.sessions, s'.conn.sessions, child);
    case FrameSeen(Some(frame)) =>
      var r, r' := PageState(f, s, m), PageState(f, s', m);
      assert Inner(f, r).frames == v.frames + {frame};
      assert Inner(f, r').frames == v'.frames + {frame};
      assert Outer(f, r).conn.frames == Outer(f, s).conn.frames;
    case _ =>
  }

  /** The browser-level session a message about the page came on, if any, is attached. */
  predicate Arrives(f: Page, s: Side, m: Message) {
    FromPage(f, m) || m.via.None? || m.via.value in s.conn.browsers
  }

  /** The download event is about a frame, or a download, that the connection knows. */
  predicate DownloadKnown(s: Side, e: Event) {
    match e
    case DownloadBegin(frame, guid) =>
      frame.Some? && guid.Some? && (s.own.Owns(frame.value) || frame.value in s.conn.frames)
    case DownloadProgress(guid, _) => guid.Some? && guid.value in s.conn.downloads
    case _ => true
  }

  /** The page's own messages that even the proxy that knows swallows: traffic of a session that
      is not attached, non-flattened traffic, and downloads of frames it has not seen. */
  predicate Swallowed(f: Page, s: Side, m: Message) {
    if FromPage(f, m) then m.via.value !in s.conn.sessions || m.event.ReceivedMessage?
    else
      || !Arrives(f, s, m)
      || (m.event.Detached? && m.event.session.Some? && m.event.session.value !in s.conn.sessions)
      || !DownloadKnown(s, m.event)
  }

  /** The target a message makes a child of the page. */
  function Gain(f: Page, s: Side, m: Message): set<TargetId> {
    if FromPage(f, m) && !Swallowed(f, s, m) && m.event.Attached? && m.event.session.Some?
       && m.event.info.Some? && m.event.info.value.target !in s.own.pages
    then {m.event.info.value.target} else {}
  }

  lemma PageHandled(f: Page, s: Side, m: Message)
    requires Ready(f, s) && Belongs(f, m)
    ensures Handle(s, m) == if Swallowed(f, s, m) then s else Forward(PageState(f, s, m), m)
  {
    if FromPage(f, m) {
      assert m.via.value !in s.conn.heldSessions && m.via.value !in s.conn.browsers;
    } else {
      assert m.via.Some? ==> m.via.value !in s.conn.heldSessions && m.via.value !in s.conn.sessions;
      if Arrives(f, s, m) && m.event.Detached? {
        assert m.event.session.value !in s.conn.heldSessions && m.event.session.value !in s.conn.browsers;
      }
    }
  }

  lemma ForwardReady(f: Page, s: Side, m: Message)
    requires Ready(f, s)
    ensures Ready(f, Forward(s, m))
  {
  }

  lemma PageGains(f: Page, s: Side, m: Message)
    requires Ready(f, s) && Belongs(f, m) && !Swallowed(f, s, m)
    ensures Kids(f, PageState(f, s, m)) == Kids(f, s) + Gain(f, s, m)
  {
    if FromPage(f, m) && m.event.Attached? {
      var t := m.event.info.value.target;
      assert t in f.ids;
      assert (s.own.children + {t}) * f.ids == Kids(f, s) + {t};
    }
  }

  /** A message about the page, handled by the proxy that knows, changes only the page's part, and
      does so the same whatever the rest of the state is. */
  lemma AboutPage(f: Page, s: Side, s': Side, m: Message)
    requires Ready(f, s) && Ready(f, s') && Inner(f, s) == Inner(f, s') && Belongs(f, m)
    requires Arrives(f, s, m) <==> Arrives(f, s', m)
    ensures Ready(f, Handle(s, m))
    ensures Inner(f, Handle(s, m)) == Inner(f, Handle(s', m))
    ensures Outer(f, Handle(s, m)) == Outer(f, s)
    ensures Kids(f, Handle(s, m)) == Kids(f, s) + Gain(f, s, m) && Gain(f, s, m) == Gain(f, s', m)
  {
    SameGain(f, s, s', m);
    if !Swallowed(f, s, m) { PageGains(f, s, m); }
    SameRestriction(f, s.conn.sessions, s'.conn.sessions);
    PageHandled(f, s, m);
    PageHandled(f, s', m);
    PageStates(f, s, s', m);
    var r, r' := PageState(f, s, m), PageState(f, s', m);
    ForwardViews(f, r, m);
    ForwardViews(f, r', m);
    ForwardReady(f, r, m);
  }

  lemma SameGain(f: Page, s: Side, s': Side, m: Message)
    requires Inner(f, s) == Inner(f, s') && Belongs(f, m) && (Arrives(f, s, m) <==> Arrives(f, s', m))
    ensures Swallowed(f, s, m) <==> Swallowed(f, s', m)
    ensures Gain(f, s, m) == Gain(f, s', m)
  {
    SameRestriction(f, s.conn.sessions, s'.conn.sessions);
    if FromPage(f, m) && m.event.Attached? {
      var t := m.event.info.value.target;
      assert t in s.own.pages <==> t in Inner(f, s).pages;
      assert t in s'.own.pages <==> t in Inner(f, s').pages;
    }
  }

  lemma DownloadHandled(f: Page, s: Side, m: Message)
    requires Ready(f, s) && Downloads(f, m)
    ensures var r := Handle(s, m);
      && Ready(f, r) && Outer(f, r) == Outer(f, s) && r.own == s.own
      && r.conn.heldSessions == s.conn.heldSessions && r.conn.held == s.conn.held
      && r.conn.sessions == s.conn.sessions && r.conn.frames == s.conn.frames
    ensures if Swallowed(f, s, m) then Handle(s, m) == s
            else ToldInside(f, Handle(s, m).conn.client) == ToldInside(f, s.conn.client) + [Forwarded(m)]
  {
    assert m.via.Some? ==> m.via.value !in s.conn.heldSessions && m.via.value !in s.conn.sessions;
    if !Swallowed(f, s, m) {
      var guid := m.event.guid.value;
      var downloads := if m.event.DownloadBegin? then s.conn.downloads + {guid}
                       else if m.event.ended then s.conn.downloads - {guid} else s.conn.downloads;
      var r := s.(conn := s.conn.(downloads := downloads));
      assert Handle(s, m) == Forward(r, m);
      assert downloads - f.guids == s.conn.downloads - f.guids;
      ForwardViews(f, r, m);
      Told(f, s.conn.client, m);
    }
  }

  /** Any message of the page, handled by the proxy that knows: it is swallowed, or forwarded. */
  lemma OfPageHandled(f: Page, s: Side, m: Message)
    requires Ready(f, s) && OfPage(f, m)
    ensures var r := Handle(s, m);
      && Ready(f, r) && Outer(f, r) == Outer(f, s) && Inner(f, r).pages == Inner(f, s).pages
      && Kids(f, r) == Kids(f, s) + Gain(f, s, m)
    ensures if Swallowed(f, s, m) then Handle(s, m) == s && Gain(f, s, m) == {}
            else ToldInside(f, Handle(s, m).conn.client) == ToldInside(f, s.conn.client) + [Forwarded(m)]
  {
    if Belongs(f, m) {
      AboutPage(f, s, s, m);
      PageHandled(f, s, m);
      if !Swallowed(f, s, m) {
        Told(f, PageState(f, s, m).conn.client, m);
        ForwardViews(f, PageState(f, s, m), m);
      }
    } else {
      DownloadHandled(f, s, m);
    }
  }

  // ---- any other message ----

  /** Handling r (from s) and r' (from s without the page's part) agree on the rest, and r left the
      page's part and hold alone. */
  ghost predicate Agree(f: Page, s: Side, r: Side, r': Side) {
    && Sane(f, r) && Outer(f, r) == Outer(f, r')
    && Inner(f, r) == Inner(f, s) && Kids(f, r) == Kids(f, s) && SameHold(f, r, s)
  }

  ghost predicate SameHold(f: Page, s: Side, s': Side) {
    && (f.target in s.conn.held <==> f.target in s'.conn.held)
    && (f.target in s.conn.held ==> s.conn.held[f.target] == s'.conn.held[f.target])
  }

  lemma {:induction false} WithoutTwice(order: seq<TargetId>, t: TargetId)
    ensures Without(Without(order, t), t) == Without(order, t)
  {
    if order != [] {
      var rest, last := Without(order[..|order| - 1], t), order[|order| - 1];
      WithoutTwice(order[..|order| - 1], t);
      WithoutAppend(rest, last, t);
      assert rest + [] == rest;
    }
  }

  lemma {:induction false} ToldOutsideTwice(f: Page, log: seq<ClientFrame>)
    ensures ToldOutside(f, ToldOutside(f, log)) == ToldOutside(f, log)
  {
    if log != [] {
      var last := log[|log| - 1];
      var rest := ToldOutside(f, log[..|log| - 1]);
      ToldOutsideTwice(f, log[..|log| - 1]);
      assert (rest + [last])[..|rest|] == rest;
      assert rest + [] == rest;
    }
  }

  lemma OuterTwice(f: Page, s: Side)
    requires Sane(f, s)
    ensures Outer(f, Outer(f, s)) == Outer(f, s)
    ensures Sane(f, Outer(f, s))
  {
    WithoutTwice(s.conn.heldOrder, f.target);
    WithoutTwice(s.own.tabs, f.target);
    ToldOutsideTwice(f, s.conn.client);
  }

  lemma RestForwarded(f: Page, s: Side, r: Side, r': Side, m: Message)
    requires Agree(f, s, r, r') && Foreign(f, m)
    ensures Agree(f, s, Forward(r, m), Forward(r', m))
  {
    ForwardViews(f, r, m);
    ForwardViews(f, r', m);
  }

  lemma {:induction false} PutSessionMembers(xs: seq<(SessionId, Option<SessionId>)>, id: SessionId,
                                             via: Option<SessionId>)
    ensures forall y | y in PutSession(xs, id, via) :: y in xs || y == (id, via)
  {
    if xs != [] && xs[0].0 != id {
      PutSessionMembers(xs[1..], id, via);
      forall y | y in PutSession(xs, id, via) ensures y in xs || y == (id, via) {
        if y != xs[0] { assert y in PutSession(xs[1..], id, via); }
      }
    }
  }

  lemma HoldSane(f: Page, s: Side, m: Message, t: TargetId,
                 session: Option<(SessionId, Option<SessionId>)>)
    requires Sane(f, s) && Foreign(f, m) && t !in f.ids
    requires session.Some? ==> f.Elsewhere(session.value.0)
    ensures Sane(f, s.(conn := Hold(s.conn, t, m, session)))
  {
    var h := Hold(s.conn, t, m, session);
    var old_ := if t in s.conn.held then s.conn.held[t] else HeldTarget([], []);
    assert forall x | x in old_.sessions :: f.Elsewhere(x.0);
    if session.Some? { PutSessionMembers(old_.sessions, session.value.0, session.value.1); }
    assert forall x | x in h.held[t].sessions :: f.Elsewhere(x.0);
    assert forall x | x in h.held[t].messages :: Foreign(f, x);
    assert HeldElsewhere(f, h.held);
  }

  lemma PutMinus<V>(m: map<nat, V>, k: nat, v: V, gone: set<nat>)
    requires k !in gone
    ensures m[k := v] - gone == (m - gone)[k := v]
    ensures (m - gone)[k := v] - gone == (m - gone)[k := v]
  {
  }

  lemma HoldOrderOuter(f: Page, c: Conn, o: Conn, m: Message, t: TargetId,
                       session: Option<(SessionId, Option<SessionId>)>)
    requires t != f.target && o.held == c.held - {f.target}
    requires o.heldOrder == Without(c.heldOrder, f.target)
    ensures Without(Hold(c, t, m, session).heldOrder, f.target)
         == Without(Hold(o, t, m, session).heldOrder, f.target)
  {
    WithoutTwice(c.heldOrder, f.target);
    WithoutAppend(c.heldOrder, t, f.target);
    WithoutAppend(o.heldOrder, t, f.target);
    assert t in c.held <==> t in o.held;
  }

  lemma HoldEntryOuter(f: Page, c: Conn, o: Conn, m: Message, t: TargetId,
                       session: Option<(SessionId, Option<SessionId>)>)
    requires t != f.target && o.held == c.held - {f.target}
    ensures Hold(c, t, m, session).held - {f.target} == Hold(o, t, m, session).held - {f.target}
  {
    assert t in c.held <==> t in o.held;
    var entry := Hold(c, t, m, session).held[t];
    assert Hold(c, t, m, session).held == c.held[t := entry];
    assert Hold(o, t, m, session).held == o.held[t := entry];
    PutMinus(c.held, t, entry, {f.target});
  }

  lemma HoldSessionsOuter(f: Page, c: Conn, o: Conn, m: Message, t: TargetId,
                          session: Option<(SessionId, Option<SessionId>)>)
    requires session.Some? ==> session.value.0 !in f.sessions
    requires o.heldSessions == c.heldSessions - f.sessions
    ensures Hold(c, t, m, session).heldSessions - f.sessions
         == Hold(o, t, m, session).heldSessions - f.sessions
  {
    if session.Some? { PutMinus(c.heldSessions, session.value.0, t, f.sessions); }
  }

  lemma RestHeld(f: Page, s: Side, m: Message, t: TargetId,
                 session: Option<(SessionId, Option<SessionId>)>)
    requires Sane(f, s) && Foreign(f, m) && t !in f.ids
    requires session.Some? ==> f.Elsewhere(session.value.0)
    ensures Agree(f, s, s.(conn := Hold(s.conn, t, m, session)),
                  Outer(f, s).(conn := Hold(Outer(f, s).conn, t, m, session)))
  {
    OuterTwice(f, s);
    HoldSane(f, s, m, t, session);
    HoldOrderOuter(f, s.conn, Outer(f, s).conn, m, t, session);
    HoldEntryOuter(f, s.conn, Outer(f, s).conn, m, t, session);
    HoldSessionsOuter(f, s.conn, Outer(f, s).conn, m, t, session);
  }

  lemma RestPushed(f: Page, s: Side, m: Message, k: SessionId)
    requires Sane(f, s) && Foreign(f, m) && k in s.conn.heldSessions && k !in f.sessions
    ensures k in Outer(f, s).conn.heldSessions
    ensures var t := s.conn.heldSessions[k];
      Agree(f, s, s.(conn := s.conn.(held := PushTo(s.conn.held, t, m))),
            Outer(f, s).(conn := Outer(f, s).conn.(held := PushTo(Outer(f, s).conn.held, t, m))))
  {
    var t := s.conn.heldSessions[k];
    OuterTwice(f, s);
    assert PushTo(s.conn.held, t, m) - {f.target}
        == PushTo(s.conn.held - {f.target}, t, m) - {f.target};
  }

  lemma AgreeStart(f: Page, s: Side)
    requires Sane(f, s)
    ensures Agree(f, s, s, Outer(f, s))
  {
    OuterTwice(f, s);
  }

  lemma RestClaims(f: Page, s: Side, info: TargetInfo)
    requires Sane(f, s) && InfoElsewhere(f, info)
    ensures var (own, mine) := Claims(s.own, info);
      var (own', mine') := Claims(Outer(f, s).own, info);
      && mine == mine' && own.pending == s.own.pending == own'.pending
      && Agree(f, s, s.(own := own), Outer(f, s).(own := own'))
      && Agree(f, s, s.(own := NoteTab(own, info)), Outer(f, s).(own := NoteTab(own', info)))
  {
    var o := Outer(f, s).own;
    AgreeStart(f, s);
    SameClaims(f, s, info);
    var own, own' := Claims(s.own, info).0, Claims(o, info).0;
    RestNoted(f, s, own, own', info);
  }

  lemma SameClaims(f: Page, s: Side, info: TargetInfo)
    requires Sane(f, s) && InfoElsewhere(f, info)
    ensures var (own, mine) := Claims(s.own, info);
      var (own', mine') := Claims(Outer(f, s).own, info);
      && mine == mine' && own.(pages := s.own.pages) == s.own && own'.(pages := Outer(f, s).own.pages) == Outer(f, s).own
      && own.pages - f.ids == own'.pages - f.ids && own.pages * f.ids == s.own.pages * f.ids
      && own'.pages - f.ids == own'.pages
  {
    var o := Outer(f, s).own;
    assert forall t | t !in f.ids :: s.own.Owns(t) == o.Owns(t);
  }

  /** Ownership that changed alike outside the page, noting the same tab. */
  lemma RestNoted(f: Page, s: Side, own: Ownership, own': Ownership, info: TargetInfo)
    requires Sane(f, s) && info.target !in f.ids && Outer(f, Outer(f, s)) == Outer(f, s)
    requires own.(pages := s.own.pages) == s.own && own'.(pages := Outer(f, s).own.pages) == Outer(f, s).own
    requires own.pages - f.ids == own'.pages - f.ids && own.pages * f.ids == s.own.pages * f.ids
    ensures Agree(f, s, s.(own := own), Outer(f, s).(own := own'))
    ensures Agree(f, s, s.(own := NoteTab(own, info)), Outer(f, s).(own := NoteTab(own', info)))
  {
    TabsNoted(f, s.own.tabs, info.target);
    WithoutTwice(s.own.tabs, f.target);
    AgreeOwn(f, s, own, own');
    AgreeOwn(f, s, NoteTab(own, info), NoteTab(own', info));
  }

  lemma AgreeOwn(f: Page, s: Side, own: Ownership, own': Ownership)
    requires Sane(f, s) && Outer(f, Outer(f, s)) == Outer(f, s) && OuterOwn(f, own) == OuterOwn(f, own')
    requires own.pages * f.ids == s.own.pages * f.ids && own.children * f.ids == s.own.children * f.ids
    ensures Agree(f, s, s.(own := own), Outer(f, s).(own := own'))
  {
    assert Outer(f, Outer(f, s)).conn == Outer(f, s).conn;
  }

  lemma TabsNoted(f: Page, tabs: seq<TargetId>, t: TargetId)
    requires t != f.target
    ensures t in tabs <==> t in Without(tabs, f.target)
    ensures Without(tabs + [t], f.target) == Without(tabs, f.target) + [t]
    ensures Without(Without(tabs, f.target) + [t], f.target) == Without(tabs, f.target) + [t]
  {
    WithoutMembers(tabs, f.target);
    WithoutAppend(tabs, t, f.target);
    WithoutAppend(Without(tabs, f.target), t, f.target);
    WithoutTwice(tabs, f.target);
  }

  /** The ownership of one and the connection of another state, when both only changed elsewhere. */
  lemma AgreeJoin(f: Page, s: Side, own: Ownership, own': Ownership, c: Conn, c': Conn)
    requires Agree(f, s, s.(own := own), Outer(f, s).(own := own'))
    requires Agree(f, s, s.(conn := c), Outer(f, s).(conn := c'))
    ensures Agree(f, s, Side(own, c), Side(own', c'))
  {
  }

  lemma RestLinked(f: Page, s: Side, k: SessionId, parent: SessionId)
    requires Sane(f, s) && f.Elsewhere(k) && parent !in f.sessions
    ensures Agree(f, s, s.(conn := s.conn.(sessions := s.conn.sessions[k := parent])),
                  Outer(f, s).(conn := Outer(f, s).conn.(sessions := Outer(f, s).conn.sessions[k := parent])))
  {
    AgreeStart(f, s);
    LinkViews(f, s.conn.sessions, k, parent);
    LinkViews(f, Outer(f, s).conn.sessions, k, parent);
  }

  lemma RestDropped(f: Page, s: Side, k: SessionId, browsers: set<SessionId>)
    requires Sane(f, s) && f.Elsewhere(k)
    requires f.sessions !! browsers
    ensures Agree(f, s,
      s.(conn := s.conn.(browsers := browsers, sessions := DropTree(s.conn.sessions, k))),
      Outer(f, s).(conn := Outer(f, s).conn.(browsers := browsers,
                                             sessions := DropTree(Outer(f, s).conn.sessions, k))))
  {
    OuterTwice(f, s);
    DropOutside(f, s.conn.sessions, Outer(f, s).conn.sessions, k);
  }

  lemma RestReleased(f: Page, s: Side, r: Side, r': Side, k: SessionId, via: Option<SessionId>)
    requires Agree(f, s, r, r')
    ensures Agree(f, s, r.(conn := ReleaseForeign(r.conn, k, via)),
                  r'.(conn := ReleaseForeign(r'.conn, k, via)))
  {
    var o, o' := Outer(f, r), Outer(f, r');
    assert r.conn.nextId == o.conn.nextId && r'.conn.nextId == o'.conn.nextId;
    assert r.conn.inflight == o.conn.inflight && r'.conn.inflight == o'.conn.inflight;
    assert r.conn.upstream == o.conn.upstream && r'.conn.upstream == o'.conn.upstream;
    assert ReleaseForeign(r.conn, k, via).inflight == ReleaseForeign(r'.conn, k, via).inflight;
    assert ReleaseForeign(r.conn, k, via).upstream == ReleaseForeign(r'.conn, k, via).upstream;
  }

  lemma RestAttached(f: Page, s: Side, m: Message, k: SessionId, info: TargetInfo)
    requires Sane(f, s) && Foreign(f, m) && m.event == Attached(Some(k), Some(info))
    ensures Agree(f, s, AttachedEvent(s, m, k, info), AttachedEvent(Outer(f, s), m, k, info))
  {
    var o := Outer(f, s);
    AgreeStart(f, s);
    if info.kind == BrowserTarget {
      var r := s.(conn := s.conn.(browsers := s.conn.browsers + {k}));
      var r' := o.(conn := o.conn.(browsers := o.conn.browsers + {k}));
      assert Agree(f, s, r, r');
      RestForwarded(f, s, r, r', m);
    } else {
      RestClaims(f, s, info);
      var (own, mine) := Claims(s.own, info);
      var (own', mine') := Claims(o.own, info);
      var parent := if m.via.Some? then m.via.value else BROWSER_SOCKET;
      if mine {
        RestLinked(f, s, k, parent);
        var c := s.conn.(sessions := s.conn.sessions[k := parent]);
        var c' := o.conn.(sessions := o.conn.sessions[k := parent]);
        AgreeJoin(f, s, own, own', c, c');
        RestForwarded(f, s, Side(own, c), Side(own', c'), m);
      } else if own.pending > 0 {
        RestHeld(f, s, m, info.target, Some((k, m.via)));
        AgreeJoin(f, s, NoteTab(own, info), NoteTab(own', info),
                  Hold(s.conn, info.target, m, Some((k, m.via))),
                  Hold(o.conn, info.target, m, Some((k, m.via))));
      } else {
        RestReleased(f, s, s, o, k, m.via);
      }
    }
  }

  lemma RestDetached(f: Page, s: Side, m: Message, k: SessionId)
    requires Sane(f, s) && Foreign(f, m) && m.event == Detached(Some(k))
    ensures Agree(f, s, DetachedEvent(s, m, k), DetachedEvent(Outer(f, s), m, k))
  {
    var o := Outer(f, s);
    AgreeStart(f, s);
    if k in s.conn.heldSessions {
      RestPushed(f, s, m, k);
    } else if k in s.conn.browsers || k in s.conn.sessions {
      var browsers := s.conn.browsers - {k};
      RestDropped(f, s, k, browsers);
      var r := s.(conn := s.conn.(browsers := browsers, sessions := DropTree(s.conn.sessions, k)));
      var r' := o.(conn := o.conn.(browsers := browsers, sessions := DropTree(o.conn.sessions, k)));
      RestForwarded(f, s, r, r', m);
      assert k !in s.conn.browsers ==> browsers == s.conn.browsers;
    }
  }

  lemma RestGone(f: Page, s: Side, m: Message, t: TargetId, destroyed: bool)
    requires Sane(f, s) && Foreign(f, m) && m.event == Gone(Some(t), destroyed)
    ensures Agree(f, s, GoneEvent(s, m, t, destroyed), GoneEvent(Outer(f, s), m, t, destroyed))
  {
    var o := Outer(f, s);
    AgreeStart(f, s);
    assert s.own.Owns(t) == o.own.Owns(t);
    if t in s.conn.held {
      RestHeld(f, s, m, t, None);
    } else if s.own.Owns(t) {
      var own := s.own.(pages := s.own.pages - {t}, children := s.own.children - {t});
      var own' := o.own.(pages := o.own.pages - {t}, children := o.own.children - {t});
      assert own.pages - f.ids == own'.pages - f.ids && own.children - f.ids == own'.children - f.ids;
      assert own.pages * f.ids == s.own.pages * f.ids && own.children * f.ids == s.own.children * f.ids;
      assert Agree(f, s, s.(own := own), o.(own := own'));
      RestForwarded(f, s, s.(own := own), o.(own := own'), m);
      RestForwarded(f, s, s, o, m);
    }
  }

  lemma RestTarget(f: Page, s: Side, m: Message)
    requires Sane(f, s) && Foreign(f, m) && m.event.IsTarget()
    ensures Agree(f, s, TargetEvent(s, m), TargetEvent(Outer(f, s), m))
  {
    var o := Outer(f, s);
    AgreeStart(f, s);
    match m.event
    case Attached(Some(k), Some(info)) => RestAttached(f, s, m, k, info);
    case Detached(Some(k)) => RestDetached(f, s, m, k);
    case Announced(Some(info)) =>
      RestClaims(f, s, info);
      var (own, mine) := Claims(s.own, info);
      var (own', mine') := Claims(o.own, info);
      if mine {
        RestForwarded(f, s, s.(own := own), o.(own := own'), m);
      } else if own.pending > 0 {
        RestHeld(f, s, m, info.target, None);
        AgreeJoin(f, s, NoteTab(own, info), NoteTab(own', info),
                  Hold(s.conn, info.target, m, None), Hold(o.conn, info.target, m, None));
      }
    case Gone(Some(t), destroyed) => RestGone(f, s, m, t, destroyed);
    case _ =>
  }

  lemma RestDownloads(f: Page, s: Side, m: Message, downloads: set<nat>, downloads': set<nat>)
    requires Sane(f, s) && Foreign(f, m) && downloads - f.guids == downloads' - f.guids
    requires downloads * f.guids == s.conn.downloads * f.guids
    ensures Agree(f, s, Forward(s.(conn := s.conn.(downloads := downloads)), m),
                  Forward(Outer(f, s).(conn := Outer(f, s).conn.(downloads := downloads')), m))
  {
    AgreeStart(f, s);
    var r := s.(conn := s.conn.(downloads := downloads));
    var r' := Outer(f, s).(conn := Outer(f, s).conn.(downloads := downloads'));
    assert Agree(f, s, r, r');
    RestForwarded(f, s, r, r', m);
  }

  lemma RestDownloadBegin(f: Page, s: Side, m: Message)
    requires Sane(f, s) && Foreign(f, m) && m.event.DownloadBegin?
    ensures Agree(f, s, BrowserLevelEvent(s, m), BrowserLevelEvent(Outer(f, s), m))
  {
    var o, frame, guid := Outer(f, s), m.event.frame, m.event.guid;
    AgreeStart(f, s);
    if frame.Some? && guid.Some? {
      assert s.own.Owns(frame.value) == o.own.Owns(frame.value);
      Added(f.guids, s.conn.downloads, o.conn.downloads, {guid.value});
      RestDownloads(f, s, m, s.conn.downloads + {guid.value}, o.conn.downloads + {guid.value});
    }
  }

  lemma RestDownloadProgress(f: Page, s: Side, m: Message)
    requires Sane(f, s) && Foreign(f, m) && m.event.DownloadProgress?
    ensures Agree(f, s, BrowserLevelEvent(s, m), BrowserLevelEvent(Outer(f, s), m))
  {
    var o, guid := Outer(f, s), m.event.guid;
    AgreeStart(f, s);
    if guid.Some? && guid.value in s.conn.downloads {
      var gone := if m.event.ended then {guid.value} else {};
      assert s.conn.downloads - {} == s.conn.downloads && o.conn.downloads - {} == o.conn.downloads;
      assert (s.conn.downloads - gone) - f.guids == (o.conn.downloads - gone) - f.guids;
      assert (s.conn.downloads - gone) * f.guids == s.conn.downloads * f.guids;
      RestDownloads(f, s, m, s.conn.downloads - gone, o.conn.downloads - gone);
    }
  }

  lemma Added(ids: set<nat>, a: set<nat>, b: set<nat>, more: set<nat>)
    requires a - ids == b - ids && more !! ids
    ensures (a + more) - ids == (b + more) - ids
    ensures (a + more) * ids == a * ids && (b + more) * ids == b * ids
  {
    assert (a + more) - ids == (a - ids) + more;
    assert (b + more) - ids == (b - ids) + more;
  }

  lemma RestBrowserLevel(f: Page, s: Side, m: Message)
    requires Sane(f, s) && Foreign(f, m)
    ensures Agree(f, s, BrowserLevelEvent(s, m), BrowserLevelEvent(Outer(f, s), m))
  {
    match m.event
    case DownloadBegin(_, _) => RestDownloadBegin(f, s, m);
    case DownloadProgress(_, _) => RestDownloadProgress(f, s, m);
    case _ =>
      if m.event.IsTarget() {
        RestTarget(f, s, m);
      } else {
        AgreeStart(f, s);
        RestForwarded(f, s, s, Outer(f, s), m);
      }
  }

  lemma RestPage(f: Page, s: Side, m: Message, page: SessionId)
    requires Sane(f, s) && Foreign(f, m) && m.event.IsTarget() && page !in f.sessions
    ensures Agree(f, s, PageEvent(s, m, page), PageEvent(Outer(f, s), m, page))
  {
    var o := Outer(f, s);
    AgreeStart(f, s);
    match m.event
    case Attached(Some(k), Some(info)) =>
      var t := info.target;
      var own := if t in s.own.pages then s.own else s.own.(children := s.own.children + {t});
      var own' := if t in o.own.pages then o.own else o.own.(children := o.own.children + {t});
      assert own.children - f.ids == own'.children - f.ids;
      assert own.children * f.ids == s.own.children * f.ids;
      assert Agree(f, s, s.(own := own), o.(own := own'));
      RestLinked(f, s, k, page);
      var c := s.conn.(sessions := s.conn.sessions[k := page]);
      var c' := o.conn.(sessions := o.conn.sessions[k := page]);
      AgreeJoin(f, s, own, own', c, c');
      RestForwarded(f, s, Side(own, c), Side(own', c'), m);
    case Detached(Some(k)) =>
      RestDropped(f, s, k, s.conn.browsers);
      var r := s.(conn := s.conn.(sessions := DropTree(s.conn.sessions, k)));
      var r' := o.(conn := o.conn.(sessions := DropTree(o.conn.sessions, k)));
      RestForwarded(f, s, r, r', m);
    case _ => RestForwarded(f, s, s, o, m);
  }

  lemma RestHandled(f: Page, s: Side, m: Message)
    requires Sane(f, s) && Foreign(f, m)
    ensures Agree(f, s, Handle(s, m), Handle(Outer(f, s), m))
  {
    var o := Outer(f, s);
    AgreeStart(f, s);
    match m.via
    case None => RestBrowserLevel(f, s, m);
    case Some(k) =>
      assert k in s.conn.heldSessions <==> k in o.conn.heldSessions;
      assert k in s.conn.sessions <==> k in o.conn.sessions;
      if k in s.conn.heldSessions {
        RestPushed(f, s, m, k);
      } else if k in s.conn.browsers {
        RestBrowserLevel(f, s, m);
      } else if k in s.conn.sessions {
        if m.event.IsTarget() {
          RestPage(f, s, m, k);
        } else if m.event.FrameSeen? && m.event.frame.Some? {
          var r := s.(conn := s.conn.(frames := s.conn.frames + {m.event.frame.value}));
          var r' := o.(conn := o.conn.(frames := o.conn.frames + {m.event.frame.value}));
          assert r.conn.frames - f.ids == r'.conn.frames - f.ids;
          assert r.conn.frames * f.ids == s.conn.frames * f.ids;
          assert Agree(f, s, r, r');
          RestForwarded(f, s, r, r', m);
        } else {
          RestForwarded(f, s, s, o, m);
        }
      }
  }

  /** No browser-level session of the page comes or goes with a message that names nothing of it. */
  lemma BrowsersStay(f: Page, s: Side, m: Message)
    requires Foreign(f, m)
    ensures Handle(s, m).conn.browsers * f.vias == s.conn.browsers * f.vias
  {
    if m.via.None? || (m.via.value !in s.conn.heldSessions && m.via.value in s.conn.browsers) {
      if m.event.IsTarget() { BrowsersStayInTarget(f, s, m); }
    } else if m.event.IsTarget() {
      assert PageEvent(s, m, m.via.value).conn.browsers == s.conn.browsers;
    }
  }

  lemma BrowsersStayInTarget(f: Page, s: Side, m: Message)
    requires Foreign(f, m) && m.event.IsTarget()
    ensures TargetEvent(s, m).conn.browsers * f.vias == s.conn.browsers * f.vias
  {
    match m.event
    case Attached(Some(k), Some(info)) =>
      assert s.conn.browsers <= AttachedEvent(s, m, k, info).conn.browsers <= s.conn.browsers + {k};
    case Detached(Some(k)) =>
      assert s.conn.browsers - {k} <= DetachedEvent(s, m, k).conn.browsers <= s.conn.browsers;
    case Gone(Some(t), destroyed) =>
      assert GoneEvent(s, m, t, destroyed).conn.browsers == s.conn.browsers;
    case _ =>
  }

  /** The message attaches one of the browser-level sessions the page's events may come on. */
  predicate OpensVia(f: Page, s: Side, m: Message) {
    && m.event.Attached? && m.event.session.Some? && m.event.session.value in f.vias
    && m.event.info.Some? && m.event.info.value.kind == BrowserTarget
    && (m.via.Some? ==> m.via.value in s.conn.browsers && m.via.value !in s.conn.heldSessions)
  }

  lemma ViaOpened(f: Page, s: Side, m: Message)
    requires Sane(f, s) && OpensVia(f, s, m)
    ensures var r := Handle(s, m);
      && Sane(f, r) && Inner(f, r) == Inner(f, s) && Kids(f, r) == Kids(f, s) && SameHold(f, s, r)
      && r.own == s.own && r.conn.heldSessions == s.conn.heldSessions
      && s.conn.browsers <= r.conn.browsers
      && Outer(f, r) == Forward(Outer(f, s).(conn := Outer(f, s).conn.(browsers :=
                                  Outer(f, s).conn.browsers + {m.event.session.value})), m)
  {
    assert !OfPage(f, m);
    var r := s.(conn := s.conn.(browsers := s.conn.browsers + {m.event.session.value}));
    assert Handle(s, m) == Forward(r, m);
    ForwardViews(f, r, m);
  }

  /** Any other message changes only the rest, and does so the same whatever the page's part is. */
  lemma AboutTheRest(f: Page, s: Side, s': Side, m: Message)
    requires Sane(f, s) && Sane(f, s') && Outer(f, s) == Outer(f, s') && Foreign(f, m)
    ensures Sane(f, Handle(s, m)) && SameHold(f, s, Handle(s, m))
    ensures Outer(f, Handle(s, m)) == Outer(f, Handle(s', m))
    ensures Inner(f, Handle(s, m)) == Inner(f, s) && Kids(f, Handle(s, m)) == Kids(f, s)
    ensures Handle(s, m).conn.browsers * f.vias == s.conn.browsers * f.vias
  {
    BrowsersStay(f, s, m);
    RestHandled(f, s, m);
    RestHandled(f, s', m);
  }
}
