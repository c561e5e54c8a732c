/** The two classes of the session proxy, field by field, each method proved to do what the
    functions of ProxyModel and ProxyWorld say. */
module ProxySocket {
  import opened Wrappers
  import opened ProxyModel
  import opened ProxyWorld
  import Trees = ProxyTrees

  class SessionOwnership {
    var pages: set<TargetId>
    var children: set<TargetId>
    var pendingCreations: nat
    var tabsDuringCreation: seq<TargetId>
    var connections: seq<ProxyConnection>

    function Model(): Ownership
      reads this
    {
      Ownership(pages, children, pendingCreations, tabsDuringCreation)
    }

    /** The connections are different objects that all share this ownership. */
    ghost predicate Valid()
      reads this, connections
    {
      && (forall i | 0 <= i < |connections| :: connections[i].ownership == this && !connections[i].closed)
      && forall i, j | 0 <= i < j < |connections| :: connections[i] != connections[j]
    }

    ghost function Snapshot(http: nat): World
      reads this, connections
    {
      World(Model(), seq(|connections|, i requires 0 <= i < |connections| reads this, connections =>
                           connections[i].Model()), http)
    }

    constructor (initialTargets: set<TargetId>)
      ensures Valid() && connections == [] && Snapshot(0) == Initial(initialTargets)
    {
      pages, children := initialTargets, {};
      pendingCreations, tabsDuringCreation, connections := 0, [], [];
      new;
      assert Snapshot(0).conns == [];
    }

    predicate Owns(t: TargetId)
      reads this
    {
      t in pages || t in children
    }

    method Claims(info: TargetInfo) returns (mine: bool)
      modifies this`pages
      ensures (Model(), mine) == ProxyModel.Claims(old(Model()), info)
    {
      if Owns(info.target) { return true; }
      if info.opener.Some? && Owns(info.opener.value) {
        pages := pages + {info.target};
        return true;
      }
      return false;
    }

    method NoteTabDuringCreation(info: TargetInfo)
      modifies this`tabsDuringCreation
      ensures Model() == NoteTab(old(Model()), info)
    {
      if info.kind != TabTarget || pendingCreations == 0 { return; }
      if info.target in tabsDuringCreation { return; }
      tabsDuringCreation := tabsDuringCreation + [info.target];
    }

    /** connections.delete for the connection at place i. */
    method Remove(gone: ProxyConnection, ghost i: nat)
      requires i < |connections| && connections[i] == gone
      requires forall k, l | 0 <= k < l < |connections| :: connections[k] != connections[l]
      modifies this`connections
      ensures connections == old(connections[..i] + connections[i + 1..])
      ensures Model() == old(Model())
    {
      var n := 0;
      while connections[n] != gone
        invariant n <= i
        decreases i - n
      {
        n := n + 1;
      }
      connections := connections[..n] + connections[n + 1..];
    }

    method StartCreation()
      modifies this`pendingCreations
      ensures Model() == CreationStarted(old(Model()))
    {
      pendingCreations := pendingCreations + 1;
    }

    method Credit(created: Option<TargetId>)
      modifies this`pages, this`pendingCreations, this`tabsDuringCreation
      ensures Model() == CreditCreation(old(Model()), created)
    {
      if created.Some? {
        pages := pages + {created.value};
        if tabsDuringCreation != [] {
          pages := pages + {tabsDuringCreation[0]};
          tabsDuringCreation := tabsDuringCreation[1..];
        }
      }
      pendingCreations := if pendingCreations > 0 then pendingCreations - 1 else 0;
      if pendingCreations == 0 { tabsDuringCreation := []; }
    }

    method CreationFinished(created: Option<TargetId>, ghost http: nat)
      requires Valid()
      modifies this`pages, this`children, this`pendingCreations, this`tabsDuringCreation, connections
      ensures Valid() && connections == old(connections)
      ensures Snapshot(http) == ProxyModel.CreationFinished(old(Snapshot(http)), created)
    {
      ghost var w := Snapshot(http);
      Credit(created);
      ghost var credited := Snapshot(http);
      assert credited == w.(own := CreditCreation(w.own, created)) by { assert credited.conns == w.conns; }
      for n := 0 to |connections|
        invariant connections == old(connections) && Valid()
        invariant Snapshot(http) == SettleConns(credited, n)
      {
        Settle(n, credited, http);
      }
    }

    method Settle(n: nat, ghost w: World, ghost http: nat)
      requires Valid() && n < |connections| && |w.conns| == |connections|
      requires Snapshot(http) == SettleConns(w, n)
      modifies this`pages, this`children, this`pendingCreations, this`tabsDuringCreation, connections[n]
      ensures Valid() && connections == old(connections)
      ensures Snapshot(http) == SettleConns(w, n + 1)
    {
      ghost var before := Snapshot(http);
      ghost var side := connections[n].Here();
      assert side == Side(before.own, before.conns[n]);
      connections[n].SettleHeld();
      ghost var conns := before.conns[n := connections[n].Model()];
      assert forall i | 0 <= i < |connections| && i != n :: connections[i].Model() == before.conns[i];
      assert Snapshot(http).conns == conns;
    }

    method GrantTarget(t: TargetId, ghost http: nat)
      requires Valid()
      modifies this`pages, connections
      ensures Valid()
      ensures Snapshot(http) == Next(old(Snapshot(http)), Grant(t))
    {
      if t in pages {
        assert Snapshot(http) == old(Snapshot(http));
        return;
      }
      pages := pages + {t};
      ghost var was := old(Snapshot(http)).conns;
      for n := 0 to |connections|
        invariant connections == old(connections) && Valid()
        invariant Model() == old(Model()).(pages := old(pages) + {t})
        invariant forall i | 0 <= i < |was| ::
                    connections[i].Model() == if i < n then AttachGrantedTo(was[i], t) else was[i]
      {
        connections[n].AttachGranted(t);
      }
      assert Snapshot(http).conns == Next(old(Snapshot(http)), Grant(t)).conns;
    }
  }

  class ProxyConnection {
    const ownership: SessionOwnership
    var ownedSessions: map<SessionId, SessionId>
    var browserSessions: set<SessionId>
    var held: map<TargetId, HeldTarget>
    var heldOrder: seq<TargetId>
    var heldSessions: map<SessionId, TargetId>
    var ownedFrames: set<TargetId>
    var ownedDownloads: set<nat>
    var ownedWindows: set<int>
    var browserAutoAttach: bool
    var inflight: map<nat, Inflight>
    var nextUpstreamId: nat
    var closed: bool
    // what has been sent on the two sockets
    var client: seq<ClientFrame>
    var upstream: seq<UpstreamFrame>

    ghost function Model(): Conn
      reads this
    {
      Conn(ownedSessions, browserSessions, held, heldOrder, heldSessions, ownedFrames,
           ownedDownloads, ownedWindows, browserAutoAttach, inflight, nextUpstreamId, client, upstream)
    }

    ghost function Here(): Side
      reads this, ownership
    {
      Side(ownership.Model(), Model())
    }

    constructor (ownership: SessionOwnership, ghost http: nat)
      requires ownership.Valid()
      modifies ownership`connections
      ensures this.ownership == ownership && ownership.Valid()
      ensures ownership.connections == old(ownership.connections) + [this]
      ensures ownership.Snapshot(http) == Next(old(ownership.Snapshot(http)), Open)
    {
      this.ownership := ownership;
      ownedSessions, browserSessions := map[], {};
      held, heldOrder, heldSessions := map[], [], map[];
      ownedFrames, ownedDownloads, ownedWindows := {}, {}, {};
      browserAutoAttach, inflight, nextUpstreamId := false, map[], 1;
      closed, client, upstream := false, [], [];
      new;
      ghost var was := ownership.Snapshot(http).conns;
      ownership.connections := ownership.connections + [this];
      assert ownership.Snapshot(http).conns == was + [Model()];
    }

    method ToClient(m: Message)
      modifies this`client
      ensures Here() == Forward(old(Here()), m)
    {
      client := client + [Forwarded(m)];
    }

    method SendUpstream(frame: UpstreamFrame, command: Inflight)
      modifies this`upstream, this`inflight, this`nextUpstreamId
      ensures Model() == ProxyModel.SendUpstream(old(Model()), frame, command)
    {
      inflight := inflight[nextUpstreamId := command];
      nextUpstreamId := nextUpstreamId + 1;
      upstream := upstream + [frame];
    }

    method ReleaseForeign(session: SessionId, via: Option<SessionId>)
      modifies this`upstream, this`inflight, this`nextUpstreamId
      ensures Model() == ProxyModel.ReleaseForeign(old(Model()), session, via)
    {
      SendUpstream(Resume(session), Inflight(None, OtherMethod));
      SendUpstream(Detach(session, via), Inflight(None, OtherMethod));
    }

    method AttachGranted(t: TargetId)
      modifies this`upstream, this`inflight, this`nextUpstreamId
      ensures Model() == AttachGrantedTo(old(Model()), t)
    {
      if browserAutoAttach {
        SendUpstream(UpstreamFrame.AttachGranted(t), Inflight(None, AttachToTarget));
      }
    }

    method Hold(t: TargetId, m: Message, session: Option<(SessionId, Option<SessionId>)>)
      modifies this`held, this`heldOrder, this`heldSessions
      ensures Model() == ProxyModel.Hold(old(Model()), t, m, session)
    {
      if t !in held {
        held := held[t := HeldTarget([], [])];
        heldOrder := heldOrder + [t];
      }
      held := held[t := held[t].(messages := held[t].messages + [m])];
      if session.Some? {
        var (id, via) := session.value;
        held := held[t := held[t].(sessions := PutSession(held[t].sessions, id, via))];
        heldSessions := heldSessions[id := t];
      }
    }

    /** The recursion of the source: the session goes first, then the tree of each child it had. */
    method DropSessionTree(s: SessionId)
      modifies this`ownedSessions
      ensures ownedSessions == DropTree(old(ownedSessions), s)
      decreases |ownedSessions|, s !in ownedSessions
    {
      ghost var all := ownedSessions;
      ownedSessions := ownedSessions - {s};
      var rest := ownedSessions;
      ghost var done: set<SessionId> := {};
      Trees.DropStarts(all, s);
      while rest != map[]
        invariant ownedSessions == Trees.Outside(all - {s}, done)
        invariant Trees.Dropping(all, s, rest, done)
        decreases |rest|
      {
        var child :| child in rest;
        Trees.DropNext(all, s, rest, done, child);
        if rest[child] == s {
          Trees.Smaller(all, s, done, child);
          DropSessionTree(child);
          Trees.OneMore(all - {s}, done, child);
          done := done + {child};
        }
        rest := rest - {child};
      }
      Trees.ChildrenMakeTheTree(all, s, done);
    }

    method Unhold(t: TargetId)
      requires t in held
      modifies this`held, this`heldOrder, this`heldSessions
      ensures Model() == ProxyModel.Unhold(old(Model()), t)
    {
      var entry := held[t];
      held := held - {t};
      heldOrder := Without(heldOrder, t);
      heldSessions := heldSessions - Ids(entry.sessions);
    }

    method OnPageTargetEvent(m: Message, page: SessionId)
      requires m.event.IsTarget()
      modifies this, ownership`pages, ownership`children, ownership`tabsDuringCreation
      ensures Here() == PageEvent(old(Here()), m, page) && closed == old(closed)
    {
      match m.event
      case Attached(session, info) =>
        if session.None? || info.None? { return; }
        if info.value.target !in ownership.pages {
          ownership.children := ownership.children + {info.value.target};
        }
        ownedSessions := ownedSessions[session.value := page];
        ToClient(m);
      case Detached(session) =>
        if session.Some? { DropSessionTree(session.value); }
        ToClient(m);
      case ReceivedMessage =>
      case _ => ToClient(m);
    }

    method OnAttached(m: Message, session: SessionId, info: TargetInfo)
      modifies this, ownership`pages, ownership`children, ownership`tabsDuringCreation
      ensures Here() == AttachedEvent(old(Here()), m, session, info) && closed == old(closed)
    {
      if info.kind == BrowserTarget {
        browserSessions := browserSessions + {session};
        ToClient(m);
        return;
      }
      var mine := ownership.Claims(info);
      if mine {
        ownedSessions := ownedSessions[session := if m.via.Some? then m.via.value else BROWSER_SOCKET];
        ToClient(m);
        return;
      }
      if ownership.pendingCreations > 0 {
        ownership.NoteTabDuringCreation(info);
        Hold(info.target, m, Some((session, m.via)));
        return;
      }
      ReleaseForeign(session, m.via);
    }

    method OnDetached(m: Message, session: SessionId)
      modifies this
      ensures Here() == DetachedEvent(old(Here()), m, session) && closed == old(closed)
    {
      if session in heldSessions {
        held := PushTo(held, heldSessions[session], m);
        return;
      }
      if session in browserSessions {
        browserSessions := browserSessions - {session};
        DropSessionTree(session);
        ToClient(m);
        return;
      }
      if session !in ownedSessions { return; }
      DropSessionTree(session);
      ToClient(m);
    }

    method OnGone(m: Message, target: TargetId, destroyed: bool)
      modifies this, ownership`pages, ownership`children, ownership`tabsDuringCreation
      ensures Here() == GoneEvent(old(Here()), m, target, destroyed) && closed == old(closed)
    {
      if target in held {
        Hold(target, m, None);
        return;
      }
      if !ownership.Owns(target) { return; }
      if destroyed {
        ownership.pages := ownership.pages - {target};
        ownership.children := ownership.children - {target};
      }
      ToClient(m);
    }

    method OnTargetEvent(m: Message)
      requires m.event.IsTarget()
      modifies this, ownership`pages, ownership`children, ownership`tabsDuringCreation
      ensures Here() == TargetEvent(old(Here()), m) && closed == old(closed)
    {
      match m.event
      case Attached(session, info) =>
        if session.Some? && info.Some? { OnAttached(m, session.value, info.value); }
      case Detached(session) => if session.Some? { OnDetached(m, session.value); }
      case Announced(info) =>
        if info.None? { return; }
        var mine := ownership.Claims(info.value);
        if mine {
          ToClient(m);
        } else if ownership.pendingCreations > 0 {
          ownership.NoteTabDuringCreation(info.value);
          Hold(info.value.target, m, None);
        }
      case Gone(target, destroyed) => if target.Some? { OnGone(m, target.value, destroyed); }
      case _ =>
    }

    method OnBrowserLevelEvent(m: Message)
      modifies this, ownership`pages, ownership`children, ownership`tabsDuringCreation
      ensures Here() == BrowserLevelEvent(old(Here()), m) && closed == old(closed)
    {
      if m.event.IsTarget() {
        OnTargetEvent(m);
        return;
      }
      if m.event.DownloadBegin? {
        var frame, guid := m.event.frame, m.event.guid;
        if frame.None? || guid.None? || !(ownership.Owns(frame.value) || frame.value in ownedFrames) {
          return;
        }
        ownedDownloads := ownedDownloads + {guid.value};
      } else if m.event.DownloadProgress? {
        var guid := m.event.guid;
        if guid.None? || guid.value !in ownedDownloads { return; }
        if m.event.ended { ownedDownloads := ownedDownloads - {guid.value}; }
      }
      ToClient(m);
    }

    method OnUpstreamMessage(m: Message)
      modifies this, ownership`pages, ownership`children, ownership`tabsDuringCreation
      ensures Here() == Handle(old(Here()), m) && closed == old(closed)
    {
      if m.via.None? {
        OnBrowserLevelEvent(m);
        return;
      }
      var session := m.via.value;
      if session in heldSessions {
        held := PushTo(held, heldSessions[session], m);
        return;
      }
      if session in browserSessions {
        OnBrowserLevelEvent(m);
        return;
      }
      if session !in ownedSessions { return; }
      if m.event.IsTarget() {
        OnPageTargetEvent(m, session);
        return;
      }
      if m.event.FrameSeen? && m.event.frame.Some? {
        ownedFrames := ownedFrames + {m.event.frame.value};
      }
      ToClient(m);
    }

    method ReplayMessages(ms: seq<Message>)
      modifies this, ownership`pages, ownership`children, ownership`tabsDuringCreation
      ensures Here() == Replay(old(Here()), ms) && closed == old(closed)
    {
      for i := 0 to |ms|
        invariant Here() == Replay(old(Here()), ms[..i]) && closed == old(closed)
      {
        OnUpstreamMessage(ms[i]);
        assert ms[..i + 1][..i] == ms[..i] && ms[..i + 1][i] == ms[i];
      }
      assert ms[..|ms|] == ms;
    }

    method ReleaseSessions(xs: seq<(SessionId, Option<SessionId>)>)
      modifies this
      ensures Model() == ReleaseAll(old(Model()), xs) && closed == old(closed)
    {
      for i := 0 to |xs|
        invariant Model() == ReleaseAll(old(Model()), xs[..i]) && closed == old(closed)
      {
        ReleaseForeign(xs[i].0, xs[i].1);
        assert xs[..i + 1][..i] == xs[..i] && xs[..i + 1][i] == xs[i];
      }
      assert xs[..|xs|] == xs;
    }

    /** Every target held when the call starts is judged again, in arrival order. */
    method SettleHeld()
      modifies this, ownership`pages, ownership`children, ownership`tabsDuringCreation
      ensures Here() == ProxyModel.SettleHeld(old(Here())) && closed == old(closed)
    {
      var targets := heldOrder;
      for i := 0 to |targets|
        invariant Here() == SettleEach(old(Here()), targets[..i]) && closed == old(closed)
      {
        ghost var before := Here();
        var t := targets[i];
        if t in held {
          var entry := held[t];
          if ownership.Owns(t) {
            Unhold(t);
            ReplayMessages(entry.messages);
          } else if ownership.pendingCreations == 0 {
            Unhold(t);
            ReleaseSessions(entry.sessions);
          }
        }
        assert Here() == SettleOne(before, t);
        assert targets[..i + 1][..i] == targets[..i] && targets[..i + 1][i] == t;
      }
      assert targets[..|targets|] == targets;
    }

    /** A command from the client. */
    method OnDownstream(id: int, session: Option<SessionId>, verb: Method, p: Params)
      modifies this, ownership`pendingCreations
      ensures Here() == ClientCommand(old(Here()), id, session, verb, p) && closed == old(closed)
    {
      var browserLevel := session.None? || session.value in browserSessions;
      if !browserLevel && session.value !in ownedSessions {
        Reject(id, session, SessionUnavailable);
        return;
      }
      var denial := CommandDenied(verb, p, browserLevel);
      if denial.Some? {
        Reject(id, session, denial.value);
        return;
      }
      RelayUpstream(id, session, verb, p);
    }

    method RelayUpstream(id: int, session: Option<SessionId>, verb: Method, p: Params)
      modifies this, ownership`pendingCreations
      ensures Here() == Relay(old(Here()), id, session, verb, p) && closed == old(closed)
    {
      if verb == SetAutoAttach && session.None? { browserAutoAttach := p.autoAttach; }
      if verb == CreateTarget { ownership.StartCreation(); }
      SendUpstream(Relayed(verb, p, session), Inflight(Some(id), verb));
    }

    method Reject(id: int, session: Option<SessionId>, refusal: Refusal)
      modifies this`client
      ensures Here() == Refuse(old(Here()), id, session, refusal)
    {
      client := client + [Refused(id, session, refusal)];
    }

    method CommandDenied(verb: Method, p: Params, browserLevel: bool) returns (denial: Option<Refusal>)
      ensures denial == CommandDenial(Here(), verb, p, browserLevel)
    {
      if (verb == Navigate || verb == CreateTarget) && !p.webUrl { return Some(NavigationUnavailable); }
      if p.deniedPath || verb == DeniedMethod { return Some(CommandUnavailable); }
      if browserLevel && verb == DeniedAtBrowserLevel { return Some(CommandUnavailable); }
      if verb in {AttachToTarget, GetTargetInfo, WindowForTarget, TargetScoped} {
        if p.target.None? {
          if browserLevel && verb != GetTargetInfo { return Some(TargetUnavailable); }
        } else if !ownership.Owns(p.target.value) {
          return Some(TargetUnavailable);
        }
        if verb == AttachToTarget && !p.flatten { return Some(CommandUnavailable); }
      }
      if verb == DetachFromTarget {
        if p.session.Some? && p.session.value !in ownedSessions && p.session.value !in browserSessions {
          return Some(SessionUnavailable);
        }
        if p.target.Some? && !ownership.Owns(p.target.value) { return Some(TargetUnavailable); }
        if p.session.None? && p.target.None? { return Some(TargetUnavailable); }
      }
      if verb == SetAutoAttach && p.autoAttach && !p.flatten { return Some(CommandUnavailable); }
      if verb == WindowBounds && (p.window.None? || p.window.value !in ownedWindows) {
        return Some(TargetUnavailable);
      }
      return None;
    }

    /** A reply from Chromium to upstream command `id`; this is the i-th open connection. */
    method OnResponse(id: nat, answer: Option<Answer>, ghost i: nat, ghost http: nat)
      requires ownership.Valid()
      requires i < |ownership.connections| && ownership.connections[i] == this
      modifies this, ownership`pages, ownership`children, ownership`pendingCreations,
               ownership`tabsDuringCreation, ownership.connections
      ensures ownership.Valid()
      ensures ownership.Snapshot(http) == Responded(old(ownership.Snapshot(http)), i, id, answer)
    {
      if id !in inflight { return; }
      var command := inflight[id];
      Take(id, i, http);
      if command.CreatesTarget() {
        ownership.CreationFinished(CreatedTarget(answer), http);
      }
      Answer(command, answer, i, http);
    }

    method Take(id: nat, ghost i: nat, ghost http: nat)
      requires ownership.Valid()
      requires i < |ownership.connections| && ownership.connections[i] == this
      modifies this`inflight
      ensures ownership.Valid()
      ensures var w := old(ownership.Snapshot(http));
              ownership.Snapshot(http)
              == ProxyWorld.Taken(w, i, id)
    {
      ghost var w := ownership.Snapshot(http);
      inflight := inflight - {id};
      assert ownership.Snapshot(http).conns == w.conns[i := w.conns[i].(inflight := inflight)];
    }

    method Answer(command: Inflight, answer: Option<Answer>, ghost i: nat, ghost http: nat)
      requires ownership.Valid()
      requires i < |ownership.connections| && ownership.connections[i] == this
      modifies this`client, this`ownedWindows, this`ownedFrames
      ensures ownership.Valid()
      ensures var w := old(ownership.Snapshot(http));
              ownership.Snapshot(http) == Put(w, i, ProxyWorld.AnswerClient(At(w, i), command, answer))
    {
      ghost var w := ownership.Snapshot(http);
      AnswerClient(command, answer);
      assert ownership.Snapshot(http).conns == w.conns[i := Model()];
    }

    method AnswerClient(command: Inflight, answer: Option<Answer>)
      modifies this`client, this`ownedWindows, this`ownedFrames
      ensures Here() == ProxyWorld.AnswerClient(old(Here()), command, answer)
    {
      if command.client.None? { return; }
      if answer.None? {
        client := client + [Answered(command.client.value, None)];
        return;
      }
      var shown := answer.value;
      if command.verb == GetTargets && shown.infos.Some? {
        shown := shown.(infos := Some(OwnedOnly(ownership.Model(), shown.infos.value)));
      } else if command.verb == WindowForTarget && shown.window.Some? {
        ownedWindows := ownedWindows + {shown.window.value};
      } else if command.verb == GetFrameTree {
        ownedFrames := ownedFrames + shown.frames;
      }
      client := client + [Answered(command.client.value, Some(shown))];
    }

    /** Nothing this connection was creating will answer any more. */
    method AbandonCreations(ghost http: nat)
      requires ownership.Valid() && this !in ownership.connections
      modifies ownership`pages, ownership`children, ownership`pendingCreations,
               ownership`tabsDuringCreation, ownership.connections
      ensures ownership.Valid() && ownership.connections == old(ownership.connections)
      ensures ownership.Snapshot(http) == Abandon(old(ownership.Snapshot(http)), |Creating(Model())|)
    {
      ghost var base := ownership.Snapshot(http);
      var creating := set id | id in inflight && inflight[id].CreatesTarget();
      ghost var all := |creating|;
      assert creating == Creating(Model());
      while creating != {}
        invariant ownership.Valid() && ownership.connections == old(ownership.connections)
        invariant |creating| <= all
        invariant ownership.Snapshot(http) == Abandon(base, all - |creating|)
      {
        var id :| id in creating;
        creating := creating - {id};
        ownership.CreationFinished(None, http);
      }
    }

    /** Either socket closed or failed; this is the i-th open connection. */
    method Close(ghost i: nat, ghost http: nat)
      requires ownership.Valid()
      requires i < |ownership.connections| && ownership.connections[i] == this
      modifies this, ownership, ownership.connections
      ensures ownership.Valid() && closed && inflight == map[]
      ensures ownership.Snapshot(http) == Next(old(ownership.Snapshot(http)), ProxyWorld.Close(i))
    {
      Leave(i, http);
      AbandonCreations(http);
      ghost var settled := ownership.Snapshot(http);
      inflight := map[];
      assert ownership.Snapshot(http).conns == settled.conns;
    }

    /** The connection is closed and no longer among those that share the ownership. */
    method Leave(ghost i: nat, ghost http: nat)
      requires ownership.Valid()
      requires i < |ownership.connections| && ownership.connections[i] == this
      modifies this`closed, ownership`connections
      ensures ownership.Valid() && closed && this !in ownership.connections
      ensures ownership.connections == old(ownership.connections[..i] + ownership.connections[i + 1..])
      ensures Model() == old(Model())
      ensures var w := old(ownership.Snapshot(http));
              ownership.Snapshot(http) == Removed(w, i)
    {
      ghost var w := ownership.Snapshot(http);
      closed := true;
      ownership.Remove(this, i);
      assert ownership.Snapshot(http).conns == w.conns[..i] + w.conns[i + 1..];
    }
  }
}
