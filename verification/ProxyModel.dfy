/** The session CDP proxy (src/browser/session-cdp-proxy.ts) as functions on values.

    Chromium's ids are opaque strings that the proxy only compares; natural numbers stand for
    them, and 0 for the empty string. A message keeps only what the proxy reads of it; `payload`
    tells otherwise equal messages apart. */
module ProxyModel {
  import opened Wrappers

  type TargetId = nat  // also frame ids: a main frame has its target's id
  type SessionId = nat

  /** The parent of a session attached on the browser socket itself. */
  const BROWSER_SOCKET: SessionId := 0

  datatype TargetKind = BrowserTarget | TabTarget | PageTarget

  datatype TargetInfo = TargetInfo(target: TargetId, kind: TargetKind, opener: Option<TargetId>)

  /** Upstream events by method. A missing or ill-typed parameter is None. */
  datatype Event =
    | Attached(session: Option<SessionId>, info: Option<TargetInfo>)
    | Detached(session: Option<SessionId>)
    | Announced(info: Option<TargetInfo>)  // targetCreated, targetInfoChanged
    | Gone(target: Option<TargetId>, destroyed: bool)  // targetDestroyed, targetCrashed
    | ReceivedMessage
    | OtherTarget
    | FrameSeen(frame: Option<TargetId>)
    | DownloadBegin(frame: Option<TargetId>, guid: Option<nat>)
    | DownloadProgress(guid: Option<nat>, ended: bool)
    | OtherDomain
  {
    predicate IsTarget() {
      Attached? || Detached? || Announced? || Gone? || ReceivedMessage? || OtherTarget?
    }
  }

  datatype Message = Message(via: Option<SessionId>, event: Event, payload: nat)

  datatype Ownership = Ownership(pages: set<TargetId>, children: set<TargetId>, pending: nat,
                                 tabs: seq<TargetId>)
  {
    predicate Owns(t: TargetId) { t in pages || t in children }
  }

  /** A held target's sessions keep the order they arrived in, with the browser-level session
      each arrived on. */
  datatype HeldTarget = HeldTarget(sessions: seq<(SessionId, Option<SessionId>)>,
                                   messages: seq<Message>)

  datatype Method =
    | CreateTarget | Navigate | AttachToTarget | GetTargetInfo | WindowForTarget | TargetScoped
    | DetachFromTarget | SetAutoAttach | WindowBounds | GetTargets | GetFrameTree
    | DeniedMethod | DeniedAtBrowserLevel | OtherMethod

  /** What a client command says, after URL and file-path checks that are not modelled here. */
  datatype Params = Params(target: Option<TargetId>, session: Option<SessionId>, flatten: bool,
                           autoAttach: bool, window: Option<int>, webUrl: bool, deniedPath: bool)

  datatype Inflight = Inflight(client: Option<int>, verb: Method)
  {
    predicate CreatesTarget() { client.Some? && verb == CreateTarget }
  }

  datatype Refusal =
    SessionUnavailable | TargetUnavailable | CommandUnavailable | NavigationUnavailable

  datatype Answer = Answer(created: Option<TargetId>, infos: Option<seq<Option<TargetId>>>,
                           window: Option<int>, frames: set<TargetId>)

  datatype ClientFrame =
    | Forwarded(message: Message)
    | Refused(id: int, session: Option<SessionId>, refusal: Refusal)
    | Answered(id: int, answer: Option<Answer>)

  datatype UpstreamFrame =
    | Relayed(verb: Method, params: Params, session: Option<SessionId>)
    | Resume(released: SessionId)
    | Detach(detached: SessionId, through: Option<SessionId>)
    | AttachGranted(target: TargetId)

  /** One client socket and its own upstream socket. `client` and `upstream` are what was sent;
      `heldOrder` is the insertion order of the keys of `held`. */
  datatype Conn = Conn(sessions: map<SessionId, SessionId>, browsers: set<SessionId>,
                       held: map<TargetId, HeldTarget>, heldOrder: seq<TargetId>,
                       heldSessions: map<SessionId, TargetId>,
                       frames: set<TargetId>, downloads: set<nat>, windows: set<int>,
                       autoAttach: bool, inflight: map<nat, Inflight>, nextId: nat,
                       client: seq<ClientFrame>, upstream: seq<UpstreamFrame>)

  /** One connection with the ownership it shares. */
  datatype Side = Side(own: Ownership, conn: Conn)

  // ---- sockets ----

  function Forward(s: Side, m: Message): Side {
    s.(conn := s.conn.(client := s.conn.client + [Forwarded(m)]))
  }

  function SendUpstream(c: Conn, frame: UpstreamFrame, command: Inflight): Conn {
    c.(upstream := c.upstream + [frame], inflight := c.inflight[c.nextId := command],
       nextId := c.nextId + 1)
  }

  function ReleaseForeign(c: Conn, session: SessionId, via: Option<SessionId>): Conn {
    var own := Inflight(None, OtherMethod);
    SendUpstream(SendUpstream(c, Resume(session), own), Detach(session, via), own)
  }

  // ---- the session forest ----

  /** Session s is n links above session k. */
  ghost predicate Above(m: map<SessionId, SessionId>, k: SessionId, s: SessionId, n: nat)
    decreases n
  {
    if n == 0 then k == s else k in m && Above(m, m[k], s, n - 1)
  }

  /** Session k is s or attached, directly or not, under s. */
  ghost predicate Under(m: map<SessionId, SessionId>, k: SessionId, s: SessionId) {
    exists n: nat :: Above(m, k, s, n)
  }

  /** What dropSessionTree leaves: every session that is neither s nor under it. */
  ghost function DropTree(m: map<SessionId, SessionId>, s: SessionId): map<SessionId, SessionId> {
    map k | k in m && !Under(m, k, s) :: m[k]
  }

  // ---- held targets ----

  /** Map.set on a held target's sessions: a known id keeps its place. */
  function PutSession(xs: seq<(SessionId, Option<SessionId>)>, id: SessionId,
                      via: Option<SessionId>): seq<(SessionId, Option<SessionId>)>
  {
    if xs == [] then [(id, via)]
    else if xs[0].0 == id then [(id, via)] + xs[1..]
    else [xs[0]] + PutSession(xs[1..], id, via)
  }

  function Ids(xs: seq<(SessionId, Option<SessionId>)>): set<SessionId> {
    set x | x in xs :: x.0
  }

  function Without(order: seq<TargetId>, t: TargetId): seq<TargetId> {
    if order == [] then []
    else
      var last := order[|order| - 1];
      Without(order[..|order| - 1], t) + (if last == t then [] else [last])
  }

  /** A message pushed to a target that is already held. */
  function PushTo(held: map<TargetId, HeldTarget>, t: TargetId, m: Message): map<TargetId, HeldTarget> {
    if t in held then held[t := held[t].(messages := held[t].messages + [m])] else held
  }

  function Hold(c: Conn, t: TargetId, m: Message, session: Option<(SessionId, Option<SessionId>)>): Conn
  {
    var entry := if t in c.held then c.held[t] else HeldTarget([], []);
    var sessions := if session.None? then entry.sessions
                    else PutSession(entry.sessions, session.value.0, session.value.1);
    c.(held := c.held[t := HeldTarget(sessions, entry.messages + [m])],
       heldOrder := if t in c.held then c.heldOrder else c.heldOrder + [t],
       heldSessions := if session.None? then c.heldSessions
                       else c.heldSessions[session.value.0 := t])
  }

  // ---- events ----

  /** Whether an announced target is owned, adding it when its opener is. */
  function Claims(own: Ownership, info: TargetInfo): (Ownership, bool) {
    if own.Owns(info.target) then (own, true)
    else if info.opener.Some? && own.Owns(info.opener.value) then
      (own.(pages := own.pages + {info.target}), true)
    else (own, false)
  }

  function NoteTab(own: Ownership, info: TargetInfo): Ownership {
    if info.kind != TabTarget || own.pending == 0 || info.target in own.tabs then own
    else own.(tabs := own.tabs + [info.target])
  }

  ghost function Handle(s: Side, m: Message): Side {
    match m.via
    case None => BrowserLevelEvent(s, m)
    case Some(session) =>
      if session in s.conn.heldSessions then
        s.(conn := s.conn.(held := PushTo(s.conn.held, s.conn.heldSessions[session], m)))
      else if session in s.conn.browsers then BrowserLevelEvent(s, m)
      else if session !in s.conn.sessions then s
      else if m.event.IsTarget() then PageEvent(s, m, session)
      else if m.event.FrameSeen? && m.event.frame.Some? then
        Forward(s.(conn := s.conn.(frames := s.conn.frames + {m.event.frame.value})), m)
      else Forward(s, m)
  }

  ghost function BrowserLevelEvent(s: Side, m: Message): Side {
    match m.event
    case DownloadBegin(frame, guid) =>
      if frame.Some? && guid.Some? && (s.own.Owns(frame.value) || frame.value in s.conn.frames)
      then Forward(s.(conn := s.conn.(downloads := s.conn.downloads + {guid.value})), m)
      else s
    case DownloadProgress(guid, ended) =>
      if guid.Some? && guid.value in s.conn.downloads then
        var left := if ended then s.conn.downloads - {guid.value} else s.conn.downloads;
        Forward(s.(conn := s.conn.(downloads := left)), m)
      else s
    case _ => if m.event.IsTarget() then TargetEvent(s, m) else Forward(s, m)
  }

  /** Target events inside an owned page session. */
  ghost function PageEvent(s: Side, m: Message, page: SessionId): Side
    requires m.event.IsTarget()
  {
    match m.event
    case Attached(session, info) =>
      if session.None? || info.None? then s
      else
        var t := info.value.target;
        var own := if t in s.own.pages then s.own
                   else s.own.(children := s.own.children + {t});
        Forward(Side(own, s.conn.(sessions := s.conn.sessions[session.value := page])), m)
    case Detached(session) =>
      if session.None? then Forward(s, m)
      else Forward(s.(conn := s.conn.(sessions := DropTree(s.conn.sessions, session.value))), m)
    case ReceivedMessage => s
    case _ => Forward(s, m)
  }

  /** Target events on the browser socket or an extra browser-level session. */
  ghost function TargetEvent(s: Side, m: Message): Side
    requires m.event.IsTarget()
  {
    match m.event
    case Attached(session, info) =>
      if session.None? || info.None? then s else AttachedEvent(s, m, session.value, info.value)
    case Detached(session) => if session.None? then s else DetachedEvent(s, m, session.value)
    case Announced(info) =>
      if info.None? then s
      else
        var (own, mine) := Claims(s.own, info.value);
        if mine then Forward(s.(own := own), m)
        else if own.pending > 0 then
          Side(NoteTab(own, info.value), Hold(s.conn, info.value.target, m, None))
        else s
    case Gone(target, destroyed) => if target.None? then s else GoneEvent(s, m, target.value, destroyed)
    case _ => s
  }

  function AttachedEvent(s: Side, m: Message, session: SessionId, info: TargetInfo): Side {
    if info.kind == BrowserTarget then
      Forward(s.(conn := s.conn.(browsers := s.conn.browsers + {session})), m)
    else
      var (own, mine) := Claims(s.own, info);
      var parent := if m.via.Some? then m.via.value else BROWSER_SOCKET;
      if mine then
        Forward(Side(own, s.conn.(sessions := s.conn.sessions[session := parent])), m)
      else if own.pending > 0 then
        Side(NoteTab(own, info), Hold(s.conn, info.target, m, Some((session, m.via))))
      else
        s.(conn := ReleaseForeign(s.conn, session, m.via))
  }

  ghost function DetachedEvent(s: Side, m: Message, session: SessionId): Side {
    if session in s.conn.heldSessions then
      s.(conn := s.conn.(held := PushTo(s.conn.held, s.conn.heldSessions[session], m)))
    else if session in s.conn.browsers then
      Forward(s.(conn := s.conn.(browsers := s.conn.browsers - {session},
                                 sessions := DropTree(s.conn.sessions, session))), m)
    else if session in s.conn.sessions then
      Forward(s.(conn := s.conn.(sessions := DropTree(s.conn.sessions, session))), m)
    else s
  }

  function GoneEvent(s: Side, m: Message, target: TargetId, destroyed: bool): Side {
    if target in s.conn.held then s.(conn := Hold(s.conn, target, m, None))
    else if !s.own.Owns(target) then s
    else
      var own := if destroyed then s.own.(pages := s.own.pages - {target},
                                          children := s.own.children - {target})
                 else s.own;
      Forward(s.(own := own), m)
  }

  // ---- settling held targets ----

  /** Messages handled one after another. */
  ghost function Replay(s: Side, ms: seq<Message>): Side {
    if ms == [] then s else Handle(Replay(s, ms[..|ms| - 1]), ms[|ms| - 1])
  }

  /** A held target taken out of the hold, with the sessions that named it. */
  function Unhold(c: Conn, t: TargetId): Conn
    requires t in c.held
  {
    c.(held := c.held - {t}, heldOrder := Without(c.heldOrder, t),
       heldSessions := c.heldSessions - Ids(c.held[t].sessions))
  }

  function ReleaseAll(c: Conn, xs: seq<(SessionId, Option<SessionId>)>): Conn {
    if xs == [] then c
    else var x := xs[|xs| - 1]; ReleaseForeign(ReleaseAll(c, xs[..|xs| - 1]), x.0, x.1)
  }

  ghost function SettleOne(s: Side, t: TargetId): Side {
    if t !in s.conn.held then s
    else
      var entry := s.conn.held[t];
      if s.own.Owns(t) then Replay(s.(conn := Unhold(s.conn, t)), entry.messages)
      else if s.own.pending == 0 then s.(conn := ReleaseAll(Unhold(s.conn, t), entry.sessions))
      else s
  }

  ghost function SettleEach(s: Side, ts: seq<TargetId>): Side {
    if ts == [] then s else SettleOne(SettleEach(s, ts[..|ts| - 1]), ts[|ts| - 1])
  }

  /** settleHeld: every target held when it starts is judged again, in arrival order. */
  ghost function SettleHeld(s: Side): Side {
    SettleEach(s, s.conn.heldOrder)
  }

  // ---- the whole session ----

  /** All open connections, and the `/json/new` requests still waiting for Chromium. */
  datatype World = World(own: Ownership, conns: seq<Conn>, http: nat)

  function CreationStarted(own: Ownership): Ownership {
    own.(pending := own.pending + 1)
  }

  /** What creationFinished does to ownership before it settles the connections. */
  function CreditCreation(own: Ownership, created: Option<TargetId>): Ownership {
    var credited :=
      if created.None? then own
      else if own.tabs == [] then own.(pages := own.pages + {created.value})
      else own.(pages := own.pages + {created.value, own.tabs[0]}, tabs := own.tabs[1..]);
    var left := if credited.pending > 0 then credited.pending - 1 else 0;
    credited.(pending := left, tabs := if left == 0 then [] else credited.tabs)
  }

  /** The first n connections settled, one after another. */
  ghost function SettleConns(w: World, n: nat): (r: World)
    requires n <= |w.conns|
    ensures |r.conns| == |w.conns|
    ensures r.conns[n..] == w.conns[n..]
  {
    if n == 0 then w
    else
      var before := SettleConns(w, n - 1);
      var side := SettleHeld(Side(before.own, before.conns[n - 1]));
      before.(own := side.own, conns := before.conns[n - 1 := side.conn])
  }

  ghost function CreationFinished(w: World, created: Option<TargetId>): World {
    SettleConns(w.(own := CreditCreation(w.own, created)), |w.conns|)
  }
}
