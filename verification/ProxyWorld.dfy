/** A whole proxied session: every open connection, the client commands, Chromium's replies, the
    `/json/new` requests and the host's grants, each as one atomic step. */
module ProxyWorld {
  import opened Wrappers
  import opened ProxyModel

  // ---- client commands ----

  /** Why a command is refused, or None when it may go upstream. */
  function CommandDenial(s: Side, verb: Method, p: Params, browserLevel: bool): Option<Refusal> {
    var targetKnown := p.target.Some? && s.own.Owns(p.target.value);
    var scoped := verb in {AttachToTarget, GetTargetInfo, WindowForTarget, TargetScoped};
    if verb in {Navigate, CreateTarget} && !p.webUrl then Some(NavigationUnavailable)
    else if p.deniedPath || verb == DeniedMethod || (browserLevel && verb == DeniedAtBrowserLevel)
    then Some(CommandUnavailable)
    else if scoped && p.target.None? && browserLevel && verb != GetTargetInfo
    then Some(TargetUnavailable)
    else if scoped && p.target.Some? && !targetKnown then Some(TargetUnavailable)
    else if verb == AttachToTarget && !p.flatten then Some(CommandUnavailable)
    else if verb == DetachFromTarget && p.session.Some?
            && p.session.value !in s.conn.sessions && p.session.value !in s.conn.browsers
    then Some(SessionUnavailable)
    else if verb == DetachFromTarget && p.target.Some? && !targetKnown then Some(TargetUnavailable)
    else if verb == DetachFromTarget && p.session.None? && p.target.None? then Some(TargetUnavailable)
    else if verb == SetAutoAttach && p.autoAttach && !p.flatten then Some(CommandUnavailable)
    else if verb == WindowBounds && (p.window.None? || p.window.value !in s.conn.windows)
    then Some(TargetUnavailable)
    else None
  }

  function Refuse(s: Side, id: int, session: Option<SessionId>, refusal: Refusal): Side {
    s.(conn := s.conn.(client := s.conn.client + [Refused(id, session, refusal)]))
  }

  /** A command on a session the client does not have is refused before anything else. */
  function Denial(s: Side, session: Option<SessionId>, verb: Method, p: Params): Option<Refusal> {
    var browserLevel := session.None? || session.value in s.conn.browsers;
    if !browserLevel && session.value !in s.conn.sessions then Some(SessionUnavailable)
    else CommandDenial(s, verb, p, browserLevel)
  }

  function Relay(s: Side, id: int, session: Option<SessionId>, verb: Method, p: Params): Side {
    var attach := if verb == SetAutoAttach && session.None? then p.autoAttach
                  else s.conn.autoAttach;
    var own := if verb == CreateTarget then CreationStarted(s.own) else s.own;
    Side(own, SendUpstream(s.conn.(autoAttach := attach), Relayed(verb, p, session),
                           Inflight(Some(id), verb)))
  }

  /** onDownstream for a well-formed command. */
  function ClientCommand(s: Side, id: int, session: Option<SessionId>, verb: Method, p: Params): Side {
    var denial := Denial(s, session, verb, p);
    if denial.Some? then Refuse(s, id, session, denial.value) else Relay(s, id, session, verb, p)
  }

  // ---- replies ----

  function OwnedOnly(own: Ownership, infos: seq<Option<TargetId>>): seq<Option<TargetId>> {
    if infos == [] then []
    else
      var last := infos[|infos| - 1];
      OwnedOnly(own, infos[..|infos| - 1])
      + (if last.Some? && own.Owns(last.value) then [last] else [])
  }

  /** The part of onResponse after a creation has been credited. */
  function AnswerClient(s: Side, command: Inflight, answer: Option<Answer>): Side {
    if command.client.None? then s
    else if answer.None? then
      s.(conn := s.conn.(client := s.conn.client + [Answered(command.client.value, None)]))
    else
      var a := answer.value;
      var shown := if command.verb == GetTargets && a.infos.Some? then
                     a.(infos := Some(OwnedOnly(s.own, a.infos.value)))
                   else a;
      var windows := if command.verb == WindowForTarget && a.window.Some? then {a.window.value} else {};
      var frames := if command.verb == GetFrameTree then a.frames else {};
      s.(conn := s.conn.(windows := s.conn.windows + windows, frames := s.conn.frames + frames,
                         client := s.conn.client + [Answered(command.client.value, Some(shown))]))
  }

  // ---- steps of the whole session ----

  datatype Action =
    | Open
    | FromChromium(i: nat, message: Message)
    | Reply(i: nat, id: nat, answer: Option<Answer>)
    | FromClient(i: nat, client: int, session: Option<SessionId>, verb: Method, params: Params)
    | Close(i: nat)  // either socket closed or failed, or the client sent something malformed
    | NewStarted  // a /json/new request went to Chromium
    | NewFinished(created: Option<TargetId>)
    | Grant(target: TargetId)

  predicate Enabled(w: World, a: Action) {
    match a
    case FromChromium(i, _) => i < |w.conns|
    case Reply(i, _, _) => i < |w.conns|
    case FromClient(i, _, _, _, _) => i < |w.conns|
    case Close(i) => i < |w.conns|
    case NewFinished(_) => w.http > 0
    case _ => true
  }

  const FRESH_CONNECTION := Conn(map[], {}, map[], [], map[], {}, {}, {}, false, map[], 1, [], [])

  function At(w: World, i: nat): Side
    requires i < |w.conns|
  {
    Side(w.own, w.conns[i])
  }

  function Put(w: World, i: nat, s: Side): World
    requires i < |w.conns|
  {
    w.(own := s.own, conns := w.conns[i := s.conn])
  }

  /** The world without connection i. */
  function Removed(w: World, i: nat): World
    requires i < |w.conns|
  {
    w.(conns := w.conns[..i] + w.conns[i + 1..])
  }

  /** The world with the reply's command taken off the list of those in flight. */
  function Taken(w: World, i: nat, id: nat): World
    requires i < |w.conns|
  {
    w.(conns := w.conns[i := w.conns[i].(inflight := w.conns[i].inflight - {id})])
  }

  function CreatedTarget(answer: Option<Answer>): Option<TargetId> {
    if answer.Some? then answer.value.created else None
  }

  function Creating(c: Conn): set<nat> {
    set id | id in c.inflight && c.inflight[id].CreatesTarget()
  }

  /** creationFinished without a target, n times. */
  ghost function Abandon(w: World, n: nat): World {
    if n == 0 then w else CreationFinished(Abandon(w, n - 1), None)
  }

  function AttachGrantedTo(c: Conn, t: TargetId): Conn {
    if c.autoAttach then SendUpstream(c, AttachGranted(t), Inflight(None, AttachToTarget)) else c
  }

  ghost function Responded(w: World, i: nat, id: nat, answer: Option<Answer>): World
    requires i < |w.conns|
  {
    var c := w.conns[i];
    if id !in c.inflight then w
    else
      var taken := Taken(w, i, id);
      var credited := if c.inflight[id].CreatesTarget() then CreationFinished(taken, CreatedTarget(answer))
                      else taken;
      Put(credited, i, AnswerClient(At(credited, i), c.inflight[id], answer))
  }

  ghost function Next(w: World, a: Action): World
    requires Enabled(w, a)
  {
    match a
    case Open => w.(conns := w.conns + [FRESH_CONNECTION])
    case FromChromium(i, m) => Put(w, i, Handle(At(w, i), m))
    case Reply(i, id, answer) => Responded(w, i, id, answer)
    case FromClient(i, client, session, verb, params) =>
      Put(w, i, ClientCommand(At(w, i), client, session, verb, params))
    case Close(i) => Abandon(Removed(w, i), |Creating(w.conns[i])|)
    case NewStarted => w.(own := CreationStarted(w.own), http := w.http + 1)
    case NewFinished(created) => CreationFinished(w.(http := w.http - 1), created)
    case Grant(t) =>
      if t in w.own.pages then w
      else World(w.own.(pages := w.own.pages + {t}),
                 seq(|w.conns|, i requires 0 <= i < |w.conns| => AttachGrantedTo(w.conns[i], t)),
                 w.http)
  }

  function Initial(targets: set<TargetId>): World {
    World(Ownership(targets, {}, 0, []), [], 0)
  }

  /** Every world a run passes through, in order. */
  ghost predicate IsRun(worlds: seq<World>, actions: seq<Action>, targets: set<TargetId>) {
    && |worlds| == |actions| + 1 && worlds[0] == Initial(targets)
    && forall k {:trigger actions[k]} | 0 <= k < |actions| ::
         Enabled(worlds[k], actions[k]) && worlds[k + 1] == Next(worlds[k], actions[k])
  }
}
