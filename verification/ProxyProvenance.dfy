/** Why a target is owned: a finite chain of openers and parents back to a grant or a creation, each
    link with the messages of the run that made it. And what clients hear and ask for is confined to
    targets that were acquired so. */
module ProxyProvenance {
  import opened Wrappers
  import opened ProxyModel
  import opened ProxyWorld

  /** Why a target came to be owned, and at which step of the run. A link also names the connection,
      by its place after that step. */
  datatype Cause =
    | Initial
    | Granted(at: nat)
    | Created(at: nat)
    | Adopted(at: nat)
    | OpenedBy(opener: TargetId, at: nat, conn: nat)
    | AttachedUnder(parent: TargetId, at: nat, conn: nat)
  {
    predicate IsRoot() { !OpenedBy? && !AttachedUnder? }
    function Link(): TargetId
      requires !IsRoot()
    {
      if OpenedBy? then opener else parent
    }
    function Step(): nat { if Initial? then 0 else at }
  }

  datatype Acquisition = Acquisition(target: TargetId, cause: Cause)

  predicate Acquired(log: seq<Acquisition>, t: TargetId) {
    exists i :: 0 <= i < |log| && log[i].target == t
  }

  /** Every link of the log points to an earlier acquisition. */
  predicate Linked(log: seq<Acquisition>) {
    forall i | 0 <= i < |log| && !log[i].cause.IsRoot() :: Acquired(log[..i], log[i].cause.Link())
  }

  ghost predicate Explains(log: seq<Acquisition>, own: Ownership) {
    Linked(log) && forall t | own.Owns(t) :: Acquired(log, t)
  }

  // ---- the messages of the run ----

  /** What the connections, by their place, have received after these actions. */
  function Heard(actions: seq<Action>): seq<set<Message>> {
    if actions == [] then [] else HeardAfter(Heard(actions[..|actions| - 1]), actions[|actions| - 1])
  }

  function HeardAfter(heard: seq<set<Message>>, a: Action): seq<set<Message>> {
    match a
    case Open => heard + [{}]
    case FromChromium(i, m) => if i < |heard| then heard[i := heard[i] + {m}] else heard
    case Close(i) => if i < |heard| then heard[..i] + heard[i + 1..] else heard
    case _ => heard
  }

  function HeldOf(c: Conn): set<Message> {
    set t, m | t in c.held && m in c.held[t].messages :: m
  }

  /** What each connection, by its place after the step, judges in it: a message that arrives, or
      those in its hold when a creation ends. */
  function Judged(w: World, a: Action): seq<set<Message>>
    requires Enabled(w, a)
  {
    match a
    case FromChromium(i, m) => seq(|w.conns|, j => if j == i then {m} else {})
    case Reply(_, _, _) => HeldByEach(w.conns)
    case NewFinished(_) => HeldByEach(w.conns)
    case Close(i) => HeldByEach(Removed(w, i).conns)
    case _ => []
  }

  function HeldByEach(conns: seq<Conn>): seq<set<Message>> {
    seq(|conns|, i requires 0 <= i < |conns| => HeldOf(conns[i]))
  }

  /** The step, what each connection judges in it and what it has received by then. */
  datatype Past = Past(at: nat, judged: seq<set<Message>>, heard: seq<set<Message>>)

  /** Connection i judges the message now, and has received it. */
  predicate JudgedBy(past: Past, i: nat, m: Message) {
    i < |past.judged| && i < |past.heard| && m in past.judged[i] && m in past.heard[i]
  }

  predicate Opens(m: Message, t: TargetId, opener: TargetId) {
    match m.event
    case Attached(_, Some(info)) => info.target == t && info.opener == Some(opener)
    case Announced(Some(info)) => info.target == t && info.opener == Some(opener)
    case _ => false
  }

  predicate Attaches(m: Message, k: SessionId, t: TargetId) {
    m.event.Attached? && m.event.session == Some(k) && m.event.info.Some? && m.event.info.value.target == t
  }

  predicate AnnouncesTab(m: Message, t: TargetId) {
    match m.event
    case Attached(_, Some(info)) => info.target == t && info.kind == TabTarget
    case Announced(Some(info)) => info.target == t && info.kind == TabTarget
    case _ => false
  }

  /** Among the messages, one attached page session k to target t: on the browser level with a target
      that is not the browser's, or inside a page. */
  predicate ShownBy(heard: set<Message>, k: SessionId, t: TargetId) {
    exists e :: e in heard && Attaches(e, k, t) && (e.via.Some? || e.event.info.value.kind != BrowserTarget)
  }

  /** What the run shows for a link: a message the connection judges then that names the opener, or
      one that came on a session which the connection was told shows the parent. */
  ghost predicate Supports(x: Acquisition, past: Past) {
    match x.cause
    case OpenedBy(o, at, i) => at == past.at && exists m :: JudgedBy(past, i, m) && Opens(m, x.target, o)
    case AttachedUnder(u, at, i) => at == past.at && exists m :: AttachesUnder(past, i, m, x.target, u)
    case _ => false
  }

  ghost predicate AttachesUnder(past: Past, i: nat, m: Message, t: TargetId, u: TargetId) {
    && JudgedBy(past, i, m) && m.via.Some? && m.event.Attached? && m.event.session.Some?
    && Attaches(m, m.event.session.value, t) && ShownBy(past.heard[i], m.via.value, u)
  }

  /** The later log adds only links that the step supports. */
  ghost predicate GrowsByLinks(log: seq<Acquisition>, log': seq<Acquisition>, past: Past) {
    log <= log' && forall i | |log| <= i < |log'| :: Supports(log'[i], past)
  }

  // ---- what a connection shows, hears and asks ----

  /** Every page session shows a target that was acquired, as a received message says. */
  predicate Shows(log: seq<Acquisition>, c: Conn, shown: map<SessionId, TargetId>, heard: set<Message>) {
    forall k | k in c.sessions :: k in shown && Acquired(log, shown[k]) && ShownBy(heard, k, shown[k])
  }

  predicate Introduced(heard: set<Message>, k: SessionId) {
    exists e :: e in heard && e.event.Attached? && e.event.session == Some(k)
  }

  /** The message came on the browser socket, or on a session that only ever was a browser-level one. */
  ghost predicate BrowserLevel(heard: set<Message>, m: Message) {
    m.via.Some? ==> !exists t :: ShownBy(heard, m.via.value, t)
  }

  /** The target a browser-level Target event is about; the browser target itself is exempt. */
  function Named(e: Event): Option<TargetId> {
    match e
    case Attached(_, Some(info)) => if info.kind == BrowserTarget then None else Some(info.target)
    case Announced(Some(info)) => Some(info.target)
    case Gone(target, _) => target
    case _ => None
  }

  ghost predicate Tellable(log: seq<Acquisition>, heard: set<Message>, m: Message) {
    && m in heard
    && (BrowserLevel(heard, m) && Named(m.event).Some? ==> Acquired(log, Named(m.event).value))
  }

  predicate NamesTarget(verb: Method) {
    verb in {AttachToTarget, GetTargetInfo, WindowForTarget, TargetScoped, DetachFromTarget}
  }

  predicate Askable(log: seq<Acquisition>, heard: set<Message>, x: UpstreamFrame) {
    match x
    case Relayed(verb, p, session) =>
      && (session.Some? ==> Introduced(heard, session.value))
      && (NamesTarget(verb) && p.target.Some? ==> Acquired(log, p.target.value))
    case AttachGranted(t) => Acquired(log, t)
    case _ => true
  }

  /** All the client was ever told of browser-level targets, and all that was ever sent to Chromium,
      concerns acquired targets and sessions that Chromium announced. */
  ghost predicate Confined(log: seq<Acquisition>, c: Conn, heard: set<Message>) {
    && (forall j | 0 <= j < |c.client| && c.client[j].Forwarded? :: Tellable(log, heard, c.client[j].message))
    && (forall j | 0 <= j < |c.upstream| :: Askable(log, heard, c.upstream[j]))
    && (forall k | k in c.browsers :: Introduced(heard, k))
  }

  ghost predicate Explained(s: Side, log: seq<Acquisition>, shown: map<SessionId, TargetId>,
                            heard: set<Message>)
  {
    Explains(log, s.own) && Shows(log, s.conn, shown, heard) && Confined(log, s.conn, heard)
  }

  // ---- growing the log ----

  lemma StillAcquired(log: seq<Acquisition>, log': seq<Acquisition>, t: TargetId)
    requires Acquired(log, t) && log <= log'
    ensures Acquired(log', t)
  {
    var i :| 0 <= i < |log| && log[i].target == t;
    assert log'[i].target == t;
  }

  lemma AppendLinked(log: seq<Acquisition>, a: Acquisition)
    requires Linked(log) && (a.cause.IsRoot() || Acquired(log, a.cause.Link()))
    ensures Linked(log + [a]) && Acquired(log + [a], a.target)
  {
    var log' := log + [a];
    assert log'[|log|] == a;
    forall i | 0 <= i < |log'| && !log'[i].cause.IsRoot() ensures Acquired(log'[..i], log'[i].cause.Link()) {
      if i < |log| { assert log'[..i] == log[..i]; } else { assert log'[..i] == log; }
    }
  }

  lemma AppendExplains(log: seq<Acquisition>, a: Acquisition, own: Ownership, own': Ownership)
    requires Explains(log, own) && (a.cause.IsRoot() || Acquired(log, a.cause.Link()))
    requires forall t | own'.Owns(t) :: own.Owns(t) || t == a.target
    ensures Explains(log + [a], own')
  {
    AppendLinked(log, a);
    forall t | own'.Owns(t) ensures Acquired(log + [a], t) {
      if own.Owns(t) { StillAcquired(log, log + [a], t); }
    }
  }

  lemma ShownByMore(heard: set<Message>, heard': set<Message>, k: SessionId, t: TargetId)
    requires ShownBy(heard, k, t) && heard <= heard'
    ensures ShownBy(heard', k, t)
  {
    var e :| e in heard && Attaches(e, k, t) && (e.via.Some? || e.event.info.value.kind != BrowserTarget);
    assert e in heard';
  }

  lemma ShowsMore(log: seq<Acquisition>, log': seq<Acquisition>, c: Conn, shown: map<SessionId, TargetId>,
                  heard: set<Message>, heard': set<Message>)
    requires Shows(log, c, shown, heard) && log <= log' && heard <= heard'
    ensures Shows(log', c, shown, heard')
  {
    forall k | k in c.sessions ensures Acquired(log', shown[k]) && ShownBy(heard', k, shown[k]) {
      StillAcquired(log, log', shown[k]);
      ShownByMore(heard, heard', k, shown[k]);
    }
  }

  lemma IntroducedMore(heard: set<Message>, heard': set<Message>, k: SessionId)
    requires Introduced(heard, k) && heard <= heard'
    ensures Introduced(heard', k)
  {
    var e :| e in heard && e.event.Attached? && e.event.session == Some(k);
    assert e in heard';
  }

  lemma TellableMore(log: seq<Acquisition>, log': seq<Acquisition>, heard: set<Message>, heard': set<Message>,
                     m: Message)
    requires Tellable(log, heard, m) && log <= log' && heard <= heard'
    ensures Tellable(log', heard', m)
  {
    if BrowserLevel(heard', m) && Named(m.event).Some? {
      if m.via.Some? && !BrowserLevel(heard, m) {
        var t :| ShownBy(heard, m.via.value, t);
        ShownByMore(heard, heard', m.via.value, t);
      }
      StillAcquired(log, log', Named(m.event).value);
    }
  }

  lemma AskableMore(log: seq<Acquisition>, log': seq<Acquisition>, heard: set<Message>, heard': set<Message>,
                    x: UpstreamFrame)
    requires Askable(log, heard, x) && log <= log' && heard <= heard'
    ensures Askable(log', heard', x)
  {
    match x
    case Relayed(verb, p, session) =>
      if session.Some? { IntroducedMore(heard, heard', session.value); }
      if NamesTarget(verb) && p.target.Some? { StillAcquired(log, log', p.target.value); }
    case AttachGranted(t) => StillAcquired(log, log', t);
    case _ =>
  }

  lemma ConfinedMore(log: seq<Acquisition>, log': seq<Acquisition>, c: Conn, heard: set<Message>,
                     heard': set<Message>)
    requires Confined(log, c, heard) && log <= log' && heard <= heard'
    ensures Confined(log', c, heard')
  {
    forall j | 0 <= j < |c.client| && c.client[j].Forwarded? ensures Tellable(log', heard', c.client[j].message) {
      TellableMore(log, log', heard, heard', c.client[j].message);
    }
    forall j | 0 <= j < |c.upstream| ensures Askable(log', heard', c.upstream[j]) {
      AskableMore(log, log', heard, heard', c.upstream[j]);
    }
    forall k | k in c.browsers ensures Introduced(heard', k) { IntroducedMore(heard, heard', k); }
  }

  // ---- what the client may hear of ----

  /** What may be forwarded of a browser-level Target event, when s becomes r. */
  predicate MayHear(s: Side, r: Side, e: Event) {
    match e
    case Detached(session) =>
      session.Some? && (session.value in s.conn.sessions || session.value in s.conn.browsers)
    case Gone(target, _) => target.Some? && s.own.Owns(target.value)
    case _ => Named(e).Some? ==> r.own.Owns(Named(e).value)
  }

  lemma TargetForwards(s: Side, m: Message)
    requires m.event.IsTarget()
    ensures var r := TargetEvent(s, m);
      r.conn.client == s.conn.client
      || (r.conn.client == s.conn.client + [Forwarded(m)] && MayHear(s, r, m.event))
  {
    match m.event
    case Attached(Some(k), Some(info)) =>
    case Detached(Some(k)) =>
    case Announced(Some(info)) =>
    case Gone(Some(t), _) =>
    case _ =>
  }

  /** Handling a message forwards it or nothing. A browser-level Target event is forwarded only if
      the target it names is owned then: once judged for an attach or announcement, and still for
      an event about its end; a detach only for a session the client has. */
  lemma OnlyOwnedTargetsAreForwarded(s: Side, m: Message)
    ensures var r := Handle(s, m);
      && (r.conn.client == s.conn.client || r.conn.client == s.conn.client + [Forwarded(m)])
      && (m.event.IsTarget() && (m.via.None? || m.via.value in s.conn.browsers) ==>
            r.conn.client == s.conn.client || MayHear(s, r, m.event))
  {
    if m.event.IsTarget() { TargetForwards(s, m); }
  }

  /** The client has the session, and the command names only what the session owns. */
  predicate NamesOnlyOwned(s: Side, session: Option<SessionId>, verb: Method, p: Params) {
    && (session.Some? ==> session.value in s.conn.sessions || session.value in s.conn.browsers)
    && (NamesTarget(verb) ==> (p.target.Some? ==> s.own.Owns(p.target.value)))
    && (verb == DetachFromTarget && p.session.Some? ==>
          p.session.value in s.conn.sessions || p.session.value in s.conn.browsers)
    && (verb == WindowBounds ==> p.window.Some? && p.window.value in s.conn.windows)
  }

  /** Either the client is told of a refusal and nothing else changes, or just this command goes to
      Chromium, and then it names only what the session owns. */
  lemma CommandsReachOnlyOwned(s: Side, id: int, session: Option<SessionId>, verb: Method, p: Params)
    ensures var r := ClientCommand(s, id, session, verb, p);
      if r.conn.upstream == s.conn.upstream then
        && |r.conn.client| == |s.conn.client| + 1 && r.conn.client[|s.conn.client|].Refused?
        && r.conn.client[|s.conn.client|].id == id && r == s.(conn := s.conn.(client := r.conn.client))
      else
        && r.conn.upstream == s.conn.upstream + [Relayed(verb, p, session)]
        && r.conn.client == s.conn.client && NamesOnlyOwned(s, session, verb, p)
  {
  }

  // ---- one message ----

  ghost predicate Acquires(s: Side, r: Side, log: seq<Acquisition>, log': seq<Acquisition>,
                           shown': map<SessionId, TargetId>, past: Past, i: nat)
  {
    && GrowsByLinks(log, log', past) && Explains(log', r.own)
    && i < |past.heard| && Shows(log', r.conn, shown', past.heard[i])
  }

  lemma ClaimExplained(s: Side, m: Message, info: TargetInfo, log: seq<Acquisition>, past: Past, i: nat)
    returns (log': seq<Acquisition>)
    requires Explains(log, s.own) && JudgedBy(past, i, m)
    requires m.event.Announced? || m.event.Attached?
    requires m.event.info == Some(info)
    ensures GrowsByLinks(log, log', past) && Explains(log', Claims(s.own, info).0)
    ensures Claims(s.own, info).1 ==> Acquired(log', info.target)
  {
    log' := log;
    if !s.own.Owns(info.target) && Claims(s.own, info).1 {
      var a := Acquisition(info.target, OpenedBy(info.opener.value, past.at, i));
      AppendExplains(log, a, s.own, Claims(s.own, info).0);
      assert Opens(m, a.target, info.opener.value);
      log' := log + [a];
    }
  }

  lemma TargetExplained(s: Side, m: Message, log: seq<Acquisition>, shown: map<SessionId, TargetId>,
                        past: Past, i: nat)
    returns (log': seq<Acquisition>, shown': map<SessionId, TargetId>)
    requires JudgedBy(past, i, m) && m.event.IsTarget()
    requires Explains(log, s.own) && Shows(log, s.conn, shown, past.heard[i])
    ensures Acquires(s, TargetEvent(s, m), log, log', shown', past, i)
  {
    log', shown' := log, shown;
    match m.event
    case Attached(Some(k), Some(info)) =>
      if info.kind != BrowserTarget {
        log' := ClaimExplained(s, m, info, log, past, i);
        ShowsMore(log, log', s.conn, shown, past.heard[i], past.heard[i]);
        if Claims(s.own, info).1 {
          assert Attaches(m, k, info.target);
          shown' := shown[k := info.target];
        }
      }
    case Announced(Some(info)) =>
      log' := ClaimExplained(s, m, info, log, past, i);
      ShowsMore(log, log', s.conn, shown, past.heard[i], past.heard[i]);
    case _ =>
  }

  lemma PageExplained(s: Side, m: Message, page: SessionId, log: seq<Acquisition>,
                      shown: map<SessionId, TargetId>, past: Past, i: nat)
    returns (log': seq<Acquisition>, shown': map<SessionId, TargetId>)
    requires JudgedBy(past, i, m) && m.event.IsTarget() && m.via == Some(page) && page in s.conn.sessions
    requires Explains(log, s.own) && Shows(log, s.conn, shown, past.heard[i])
    ensures Acquires(s, PageEvent(s, m, page), log, log', shown', past, i)
  {
    log', shown' := log, shown;
    match m.event
    case Attached(Some(k), Some(info)) =>
      var a := Acquisition(info.target, AttachedUnder(shown[page], past.at, i));
      AppendExplains(log, a, s.own, PageEvent(s, m, page).own);
      assert AttachesUnder(past, i, m, a.target, shown[page]);
      log', shown' := log + [a], shown[k := info.target];
      ShowsMore(log, log', s.conn, shown, past.heard[i], past.heard[i]);
      AppendLinked(log, a);
      assert Attaches(m, k, info.target);
    case _ =>
  }

  lemma HandleAcquires(s: Side, m: Message, log: seq<Acquisition>, shown: map<SessionId, TargetId>,
                       past: Past, i: nat)
    returns (log': seq<Acquisition>, shown': map<SessionId, TargetId>)
    requires JudgedBy(past, i, m)
    requires Explains(log, s.own) && Shows(log, s.conn, shown, past.heard[i])
    ensures Acquires(s, Handle(s, m), log, log', shown', past, i)
  {
    log', shown' := log, shown;
    if m.via.Some? && m.via.value in s.conn.heldSessions {
    } else if m.via.None? || m.via.value in s.conn.browsers {
      if m.event.IsTarget() { log', shown' := TargetExplained(s, m, log, shown, past, i); }
    } else if m.via.value in s.conn.sessions && m.event.IsTarget() {
      log', shown' := PageExplained(s, m, m.via.value, log, shown, past, i);
    }
  }

  /** From c to d only releases went upstream, and no browser-level session came but the message's. */
  predicate Sends(c: Conn, d: Conn, m: Message) {
    && c.upstream <= d.upstream
    && (forall j | |c.upstream| <= j < |d.upstream| :: d.upstream[j].Resume? || d.upstream[j].Detach?)
    && forall k | k in d.browsers :: k in c.browsers || (m.event.Attached? && m.event.session == Some(k))
  }

  lemma TargetSends(s: Side, m: Message)
    requires m.event.IsTarget()
    ensures Sends(s.conn, TargetEvent(s, m).conn, m)
  {
    match m.event
    case Attached(Some(k), Some(info)) =>
      assert info.kind == BrowserTarget || AttachedEvent(s, m, k, info).conn.browsers == s.conn.browsers;
    case Detached(Some(k)) => assert DetachedEvent(s, m, k).conn.upstream == s.conn.upstream;
    case Announced(Some(info)) =>
    case Gone(Some(t), destroyed) => assert GoneEvent(s, m, t, destroyed).conn.upstream == s.conn.upstream;
    case _ =>
  }

  lemma PageSends(s: Side, m: Message, page: SessionId)
    requires m.event.IsTarget()
    ensures Sends(s.conn, PageEvent(s, m, page).conn, m)
  {
  }

  lemma HandleSends(s: Side, m: Message)
    ensures Sends(s.conn, Handle(s, m).conn, m)
  {
    if m.via.Some? && m.via.value in s.conn.heldSessions {
    } else if m.via.None? || m.via.value in s.conn.browsers {
      BrowserLevelSends(s, m);
    } else if m.event.IsTarget() {
      PageSends(s, m, m.via.value);
    }
  }

  lemma BrowserLevelSends(s: Side, m: Message)
    ensures Sends(s.conn, BrowserLevelEvent(s, m).conn, m)
  {
    if m.event.IsTarget() { TargetSends(s, m); }
  }

  lemma HandleTellable(s: Side, m: Message, log: seq<Acquisition>, log': seq<Acquisition>,
                       shown: map<SessionId, TargetId>, heard: set<Message>)
    requires Explained(s, log, shown, heard) && m in heard && log <= log' && Explains(log', Handle(s, m).own)
    requires Handle(s, m).conn.client != s.conn.client
    ensures Tellable(log', heard, m)
  {
    OnlyOwnedTargetsAreForwarded(s, m);
    if BrowserLevel(heard, m) && Named(m.event).Some? {
      if m.event.Gone? && s.own.Owns(m.event.target.value) { StillAcquired(log, log', m.event.target.value); }
    }
  }

  lemma HandleConfined(s: Side, m: Message, log: seq<Acquisition>, log': seq<Acquisition>,
                       shown: map<SessionId, TargetId>, heard: set<Message>)
    requires Explained(s, log, shown, heard) && m in heard && log <= log' && Explains(log', Handle(s, m).own)
    ensures Confined(log', Handle(s, m).conn, heard)
  {
    var r := Handle(s, m);
    ConfinedMore(log, log', s.conn, heard, heard);
    OnlyOwnedTargetsAreForwarded(s, m);
    HandleSends(s, m);
    if r.conn.client != s.conn.client { HandleTellable(s, m, log, log', shown, heard); }
  }

  /** Handling a message acquires targets only through an opener, or a parent session, whose target
      was acquired before. */
  lemma HandleExplained(s: Side, m: Message, log: seq<Acquisition>, shown: map<SessionId, TargetId>,
                        past: Past, i: nat)
    returns (log': seq<Acquisition>, shown': map<SessionId, TargetId>)
    requires JudgedBy(past, i, m) && Explained(s, log, shown, past.heard[i])
    ensures GrowsByLinks(log, log', past) && Explained(Handle(s, m), log', shown', past.heard[i])
  {
    log', shown' := HandleAcquires(s, m, log, shown, past, i);
    HandleConfined(s, m, log, log', shown, past.heard[i]);
  }
}
