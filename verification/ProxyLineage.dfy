/** Over every run: the lineage of each owned target, down to the messages, grants and creations that
    caused it, and the confinement of clients to what was acquired. */
module ProxyLineage {
  import opened Wrappers
  import opened ProxyModel
  import opened ProxyWorld
  import opened ProxyProvenance
  import opened ProxyReceived

  // ---- settling ----

  lemma {:induction false} ReplayExplained(s: Side, ms: seq<Message>, log: seq<Acquisition>,
                                           shown: map<SessionId, TargetId>, past: Past, i: nat)
    returns (log': seq<Acquisition>, shown': map<SessionId, TargetId>)
    requires i < |past.heard| && Explained(s, log, shown, past.heard[i])
    requires forall m | m in ms :: JudgedBy(past, i, m)
    ensures GrowsByLinks(log, log', past) && Explained(Replay(s, ms), log', shown', past.heard[i])
  {
    log', shown' := log, shown;
    if ms != [] {
      log', shown' := ReplayExplained(s, ms[..|ms| - 1], log, shown, past, i);
      log', shown' := HandleExplained(Replay(s, ms[..|ms| - 1]), ms[|ms| - 1], log', shown', past, i);
    }
  }

  lemma ReleasedConfined(log: seq<Acquisition>, c: Conn, d: Conn, heard: set<Message>)
    requires Confined(log, c, heard) && d.client == c.client && d.browsers == c.browsers
    requires c.upstream <= d.upstream
    requires forall j | |c.upstream| <= j < |d.upstream| :: d.upstream[j].Resume? || d.upstream[j].Detach?
    ensures Confined(log, d, heard)
  {
  }

  lemma SettleOneExplained(s: Side, t: TargetId, log: seq<Acquisition>, shown: map<SessionId, TargetId>,
                           past: Past, i: nat)
    returns (log': seq<Acquisition>, shown': map<SessionId, TargetId>)
    requires i < |past.judged| && i < |past.heard| && past.judged[i] <= past.heard[i]
    requires Explained(s, log, shown, past.heard[i]) && HeldIn(s.conn, past.judged[i])
    ensures GrowsByLinks(log, log', past) && Explained(SettleOne(s, t), log', shown', past.heard[i])
  {
    log', shown' := log, shown;
    if t in s.conn.held {
      var c, entry := Unhold(s.conn, t), s.conn.held[t];
      ReleasedConfined(log, s.conn, c, past.heard[i]);
      if s.own.Owns(t) {
        log', shown' := ReplayExplained(s.(conn := c), entry.messages, log, shown, past, i);
      } else {
        ReleasedConn(c, entry.sessions);
        ReleasedConfined(log, c, ReleaseAll(c, entry.sessions), past.heard[i]);
      }
    }
  }

  lemma {:induction false} SettleEachExplained(s: Side, ts: seq<TargetId>, log: seq<Acquisition>,
                                               shown: map<SessionId, TargetId>, past: Past, i: nat)
    returns (log': seq<Acquisition>, shown': map<SessionId, TargetId>)
    requires i < |past.judged| && i < |past.heard| && past.judged[i] <= past.heard[i]
    requires Explained(s, log, shown, past.heard[i]) && HeldIn(s.conn, past.judged[i])
    ensures GrowsByLinks(log, log', past) && Explained(SettleEach(s, ts), log', shown', past.heard[i])
  {
    log', shown' := log, shown;
    if ts != [] {
      log', shown' := SettleEachExplained(s, ts[..|ts| - 1], log, shown, past, i);
      SettleEachHeld(s, ts[..|ts| - 1], past.judged[i]);
      log', shown' := SettleOneExplained(SettleEach(s, ts[..|ts| - 1]), ts[|ts| - 1], log', shown', past, i);
    }
  }

  // ---- the whole session ----

  ghost predicate ExplainedAt(log: seq<Acquisition>, c: Conn, shown: map<SessionId, TargetId>, heard: set<Message>) {
    Shows(log, c, shown, heard) && Confined(log, c, heard)
  }

  ghost predicate AllExplained(log: seq<Acquisition>, conns: seq<Conn>, shown: seq<map<SessionId, TargetId>>,
                               heard: seq<set<Message>>)
  {
    |shown| == |heard| == |conns| && forall i | 0 <= i < |conns| :: ExplainedAt(log, conns[i], shown[i], heard[i])
  }

  ghost predicate WorldExplained(w: World, log: seq<Acquisition>, shown: seq<map<SessionId, TargetId>>,
                                 heard: seq<set<Message>>)
  {
    Explains(log, w.own) && AllExplained(log, w.conns, shown, heard)
  }

  lemma AllExplainedMore(log: seq<Acquisition>, log': seq<Acquisition>, conns: seq<Conn>,
                         shown: seq<map<SessionId, TargetId>>, heard: seq<set<Message>>)
    requires AllExplained(log, conns, shown, heard) && log <= log'
    ensures AllExplained(log', conns, shown, heard)
  {
    forall i | 0 <= i < |conns| ensures ExplainedAt(log', conns[i], shown[i], heard[i]) {
      ShowsMore(log, log', conns[i], shown[i], heard[i], heard[i]);
      ConfinedMore(log, log', conns[i], heard[i], heard[i]);
    }
  }

  /** What the step judges is held, and was received. */
  ghost predicate Settling(conns: seq<Conn>, past: Past) {
    && AllHeldIn(conns, past.judged) && |past.heard| == |conns|
    && forall i | 0 <= i < |conns| :: past.judged[i] <= past.heard[i]
  }

  lemma {:induction false} SettleConnsExplained(w: World, n: nat, log: seq<Acquisition>,
                                                shown: seq<map<SessionId, TargetId>>, past: Past)
    returns (log': seq<Acquisition>, shown': seq<map<SessionId, TargetId>>)
    requires n <= |w.conns| && WorldExplained(w, log, shown, past.heard) && Settling(w.conns, past)
    ensures GrowsByLinks(log, log', past) && WorldExplained(SettleConns(w, n), log', shown', past.heard)
    ensures Settling(SettleConns(w, n).conns, past)
  {
    log', shown' := log, shown;
    SettleConnsHeld(w, n, past.judged);
    if n > 0 {
      log', shown' := SettleConnsExplained(w, n - 1, log, shown, past);
      var before := SettleConns(w, n - 1);
      var c := before.conns[n - 1];
      assert ExplainedAt(log', c, shown'[n - 1], past.heard[n - 1]);
      var grown, mine := SettleEachExplained(Side(before.own, c), c.heldOrder, log', shown'[n - 1], past, n - 1);
      AllExplainedMore(log', grown, before.conns, shown', past.heard);
      log', shown' := grown, shown'[n - 1 := mine];
    }
  }

  /** What a creation that ends acquires at once: its target, and the tab it adopts. */
  function Credited(own: Ownership, created: Option<TargetId>, at: nat): seq<Acquisition> {
    if created.None? then []
    else [Acquisition(created.value, Created(at))]
         + (if own.tabs == [] then [] else [Acquisition(own.tabs[0], Adopted(at))])
  }

  lemma CreditExplains(log: seq<Acquisition>, own: Ownership, created: Option<TargetId>, at: nat)
    requires Explains(log, own)
    ensures Explains(log + Credited(own, created, at), CreditCreation(own, created))
  {
    if created.Some? {
      var a := Acquisition(created.value, Created(at));
      AppendExplains(log, a, own, own.(pages := own.pages + {created.value}));
      if own.tabs != [] {
        AppendExplains(log + [a], Acquisition(own.tabs[0], Adopted(at)),
                       own.(pages := own.pages + {created.value}), CreditCreation(own, created));
        assert log + [a] + [Acquisition(own.tabs[0], Adopted(at))] == log + Credited(own, created, at);
      }
      assert own.tabs == [] ==> log + [a] == log + Credited(own, created, at);
    } else {
      assert log + [] == log;
    }
  }

  lemma FinishedExplained(w: World, created: Option<TargetId>, log: seq<Acquisition>,
                          shown: seq<map<SessionId, TargetId>>, past: Past)
    returns (log': seq<Acquisition>, shown': seq<map<SessionId, TargetId>>)
    requires WorldExplained(w, log, shown, past.heard) && Settling(w.conns, past)
    ensures GrowsByLinks(log + Credited(w.own, created, past.at), log', past)
    ensures WorldExplained(CreationFinished(w, created), log', shown', past.heard)
    ensures Settling(CreationFinished(w, created).conns, past)
  {
    var credited := log + Credited(w.own, created, past.at);
    CreditExplains(log, w.own, created, past.at);
    AllExplainedMore(log, credited, w.conns, shown, past.heard);
    log', shown' := SettleConnsExplained(w.(own := CreditCreation(w.own, created)), |w.conns|,
                                         credited, shown, past);
  }

  lemma {:induction false} AbandonExplained(w: World, n: nat, log: seq<Acquisition>,
                                            shown: seq<map<SessionId, TargetId>>, past: Past)
    returns (log': seq<Acquisition>, shown': seq<map<SessionId, TargetId>>)
    requires WorldExplained(w, log, shown, past.heard) && Settling(w.conns, past)
    ensures GrowsByLinks(log, log', past) && WorldExplained(Abandon(w, n), log', shown', past.heard)
    ensures Settling(Abandon(w, n).conns, past)
  {
    log', shown' := log, shown;
    if n > 0 {
      log', shown' := AbandonExplained(w, n - 1, log, shown, past);
      var front := log';
      assert front + Credited(Abandon(w, n - 1).own, None, past.at) == front;
      log', shown' := FinishedExplained(Abandon(w, n - 1), None, front, shown', past);
    }
  }

  /** The acquisitions that begin a lineage at this step. */
  function RootsOf(w: World, a: Action, at: nat): seq<Acquisition>
    requires Enabled(w, a)
  {
    match a
    case Reply(i, id, answer) =>
      if id in Creating(w.conns[i]) then Credited(w.own, CreatedTarget(answer), at) else []
    case NewFinished(created) => Credited(w.own, created, at)
    case Grant(t) => if t in w.own.pages then [] else [Acquisition(t, Granted(at))]
    case _ => []
  }

  /** The client log and the frames asked for are as before, but for what is not confined. */
  lemma AnswerExplained(s: Side, command: Inflight, answer: Option<Answer>, log: seq<Acquisition>,
                        shown: map<SessionId, TargetId>, heard: set<Message>)
    requires ExplainedAt(log, s.conn, shown, heard)
    ensures ExplainedAt(log, AnswerClient(s, command, answer).conn, shown, heard)
    ensures AnswerClient(s, command, answer).own == s.own
  {
    var r := AnswerClient(s, command, answer).conn;
    assert r.sessions == s.conn.sessions && r.upstream == s.conn.upstream && r.browsers == s.conn.browsers;
    assert r.client == s.conn.client || exists x :: r.client == s.conn.client + [x] && x.Answered?;
  }

  lemma CommandExplained(s: Side, id: int, session: Option<SessionId>, verb: Method, p: Params,
                         log: seq<Acquisition>, shown: map<SessionId, TargetId>, heard: set<Message>)
    requires Explained(s, log, shown, heard)
    ensures Explained(ClientCommand(s, id, session, verb, p), log, shown, heard)
  {
    var r := ClientCommand(s, id, session, verb, p);
    CommandsReachOnlyOwned(s, id, session, verb, p);
    assert r.conn.sessions == s.conn.sessions && r.conn.browsers == s.conn.browsers;
    if r.conn.upstream != s.conn.upstream && session.Some? && session.value in s.conn.sessions {
      assert ShownBy(heard, session.value, shown[session.value]);
      ShownIsIntroduced(heard, session.value, shown[session.value]);
    }
  }

  lemma ShownIsIntroduced(heard: set<Message>, k: SessionId, t: TargetId)
    requires ShownBy(heard, k, t)
    ensures Introduced(heard, k)
  {
    var e :| e in heard && Attaches(e, k, t) && (e.via.Some? || e.event.info.value.kind != BrowserTarget);
  }

  lemma ReplyExplained(w: World, a: Action, log: seq<Acquisition>, shown: seq<map<SessionId, TargetId>>, past: Past)
    returns (log': seq<Acquisition>, shown': seq<map<SessionId, TargetId>>)
    requires a.Reply? && Enabled(w, a) && WorldExplained(w, log, shown, past.heard) && Settling(w.conns, past)
    ensures GrowsByLinks(log + RootsOf(w, a, past.at), log', past)
    ensures WorldExplained(Next(w, a), log', shown', past.heard)
  {
    log', shown' := log, shown;
    assert log + [] == log;
    var c := w.conns[a.i];
    if a.id in c.inflight {
      var x := Taken(w, a.i, a.id);
      TakenExplained(w, a.i, a.id, log, shown, past);
      if c.inflight[a.id].CreatesTarget() {
        log', shown' := FinishedExplained(x, CreatedTarget(a.answer), log, shown, past);
        x := CreationFinished(x, CreatedTarget(a.answer));
      }
      assert ExplainedAt(log', x.conns[a.i], shown'[a.i], past.heard[a.i]);
      AnswerExplained(At(x, a.i), c.inflight[a.id], a.answer, log', shown'[a.i], past.heard[a.i]);
    }
  }

  lemma TakenExplained(w: World, i: nat, id: nat, log: seq<Acquisition>, shown: seq<map<SessionId, TargetId>>,
                       past: Past)
    requires WorldExplained(w, log, shown, past.heard) && Settling(w.conns, past) && i < |w.conns|
    ensures WorldExplained(Taken(w, i, id), log, shown, past.heard) && Settling(Taken(w, i, id).conns, past)
  {
    assert ExplainedAt(log, w.conns[i], shown[i], past.heard[i]);
    assert HeldIn(w.conns[i], past.judged[i]);
  }

  lemma GrantExplained(w: World, t: TargetId, log: seq<Acquisition>, shown: seq<map<SessionId, TargetId>>,
                       heard: seq<set<Message>>, at: nat)
    requires WorldExplained(w, log, shown, heard) && t !in w.own.pages
    ensures WorldExplained(Next(w, Grant(t)), log + [Acquisition(t, Granted(at))], shown, heard)
  {
    var a := Acquisition(t, Granted(at));
    var log' := log + [a];
    AppendExplains(log, a, w.own, w.own.(pages := w.own.pages + {t}));
    AllExplainedMore(log, log', w.conns, shown, heard);
    AppendLinked(log, a);
    forall i | 0 <= i < |w.conns| ensures ExplainedAt(log', AttachGrantedTo(w.conns[i], t), shown[i], heard[i]) {
      assert ExplainedAt(log', w.conns[i], shown[i], heard[i]);
      assert AttachGrantedTo(w.conns[i], t).sessions == w.conns[i].sessions;
    }
  }

  lemma MessageExplained(w: World, i: nat, m: Message, log: seq<Acquisition>, shown: seq<map<SessionId, TargetId>>,
                         heard: seq<set<Message>>, at: nat)
    returns (log': seq<Acquisition>, shown': seq<map<SessionId, TargetId>>)
    requires i < |w.conns| && WorldExplained(w, log, shown, heard)
    ensures var a := FromChromium(i, m);
      GrowsByLinks(log, log', Past(at, Judged(w, a), HeardAfter(heard, a)))
      && WorldExplained(Next(w, a), log', shown', HeardAfter(heard, a))
  {
    var a := FromChromium(i, m);
    var past := Past(at, Judged(w, a), HeardAfter(heard, a));
    assert ExplainedAt(log, w.conns[i], shown[i], heard[i]);
    ShowsMore(log, log, w.conns[i], shown[i], heard[i], past.heard[i]);
    ConfinedMore(log, log, w.conns[i], heard[i], past.heard[i]);
    var mine;
    log', mine := HandleExplained(At(w, i), m, log, shown[i], past, i);
    AllExplainedMore(log, log', w.conns, shown, heard);
    shown' := shown[i := mine];
  }

  lemma CloseExplained(w: World, i: nat, log: seq<Acquisition>, shown: seq<map<SessionId, TargetId>>,
                       heard: seq<set<Message>>, at: nat)
    returns (log': seq<Acquisition>, shown': seq<map<SessionId, TargetId>>)
    requires i < |w.conns| && WorldExplained(w, log, shown, heard) && AllHeldIn(w.conns, heard)
    ensures GrowsByLinks(log, log', Past(at, Judged(w, Close(i)), HeardAfter(heard, Close(i))))
    ensures WorldExplained(Next(w, Close(i)), log', shown', HeardAfter(heard, Close(i)))
  {
    var rest, past := Removed(w, i), Past(at, Judged(w, Close(i)), HeardAfter(heard, Close(i)));
    JudgedSettles(rest.conns, past.heard);
    log', shown' := AbandonExplained(rest, |Creating(w.conns[i])|, log, shown[..i] + shown[i + 1..], past);
  }

  /** A step that may end creations. */
  lemma EndExplained(w: World, a: Action, log: seq<Acquisition>, shown: seq<map<SessionId, TargetId>>,
                     heard: seq<set<Message>>, at: nat)
    returns (log': seq<Acquisition>, shown': seq<map<SessionId, TargetId>>)
    requires Enabled(w, a) && WorldExplained(w, log, shown, heard) && AllHeldIn(w.conns, heard)
    requires a.Reply? || a.Close? || a.NewFinished?
    ensures GrowsByLinks(log + RootsOf(w, a, at), log', Past(at, Judged(w, a), HeardAfter(heard, a)))
    ensures WorldExplained(Next(w, a), log', shown', HeardAfter(heard, a))
  {
    var past := Past(at, Judged(w, a), HeardAfter(heard, a));
    match a
    case Close(i) =>
      assert log + [] == log;
      log', shown' := CloseExplained(w, i, log, shown, heard, at);
    case Reply(_, _, _) =>
      JudgedSettles(w.conns, heard);
      log', shown' := ReplyExplained(w, a, log, shown, past);
    case NewFinished(created) =>
      JudgedSettles(w.conns, heard);
      log', shown' := FinishedExplained(w.(http := w.http - 1), created, log, shown, past);
  }

  lemma StepExplained(w: World, a: Action, log: seq<Acquisition>, shown: seq<map<SessionId, TargetId>>,
                      heard: seq<set<Message>>, at: nat)
    returns (log': seq<Acquisition>, shown': seq<map<SessionId, TargetId>>)
    requires Enabled(w, a) && WorldExplained(w, log, shown, heard) && AllHeldIn(w.conns, heard)
    ensures GrowsByLinks(log + RootsOf(w, a, at), log', Past(at, Judged(w, a), HeardAfter(heard, a)))
    ensures WorldExplained(Next(w, a), log', shown', HeardAfter(heard, a))
  {
    log', shown' := log, shown;
    assert log + [] == log;
    match a
    case Open => shown' := shown + [map[]];
    case FromChromium(i, m) => log', shown' := MessageExplained(w, i, m, log, shown, heard, at);
    case Reply(_, _, _) | Close(_) | NewFinished(_) => log', shown' := EndExplained(w, a, log, shown, heard, at);
    case FromClient(i, client, session, verb, params) =>
      assert ExplainedAt(log, w.conns[i], shown[i], heard[i]);
      CommandExplained(At(w, i), client, session, verb, params, log, shown[i], heard[i]);
      assert forall t | Next(w, a).own.Owns(t) :: w.own.Owns(t);
    case Grant(t) =>
      if t !in w.own.pages {
        GrantExplained(w, t, log, shown, heard, at);
        log' := log + [Acquisition(t, Granted(at))];
      }
    case _ =>
  }

  lemma JudgedSettles(conns: seq<Conn>, heard: seq<set<Message>>)
    requires AllHeldIn(conns, heard)
    ensures AllHeldIn(conns, HeldByEach(conns))
    ensures forall i | 0 <= i < |conns| :: HeldByEach(conns)[i] <= heard[i]
  {
    forall i | 0 <= i < |conns| ensures HeldIn(conns[i], HeldByEach(conns)[i]) && HeldByEach(conns)[i] <= heard[i] {
      assert HeldIn(conns[i], heard[i]);
      assert HeldByEach(conns)[i] == HeldOf(conns[i]);
    }
  }

  // ---- runs ----

  ghost function PastAt(worlds: seq<World>, actions: seq<Action>, targets: set<TargetId>, n: nat): Past
    requires IsRun(worlds, actions, targets) && n < |actions|
  {
    Past(n, Judged(worlds[n], actions[n]), Heard(actions[..n + 1]))
  }

  /** The acquisition is what the run shows at the step it names: an initial target; a grant, or a
      creation that ended with that target, or with that tab at the head of those remembered, which
      an earlier message announced; or a link with its messages. */
  ghost predicate Evident(worlds: seq<World>, actions: seq<Action>, targets: set<TargetId>, k: nat, x: Acquisition)
    requires IsRun(worlds, actions, targets) && k <= |actions|
  {
    if x.cause.Initial? then x.target in targets
    else
      && x.cause.at < k
      && (x.cause.IsRoot() ==> x in RootsOf(worlds[x.cause.at], actions[x.cause.at], x.cause.at))
      && (x.cause.Adopted? ==>
            exists m :: m in Received(actions[..x.cause.at]) && AnnouncesTab(m, x.target))
      && (!x.cause.IsRoot() ==> Supports(x, PastAt(worlds, actions, targets, x.cause.at)))
  }

  /** Each grant, and each creation that ended with a target, begins just its own lineages. */
  ghost predicate CountsRoots(worlds: seq<World>, actions: seq<Action>, targets: set<TargetId>, k: nat,
                              log: seq<Acquisition>)
    requires IsRun(worlds, actions, targets) && k <= |actions|
  {
    && (forall n, x | 0 <= n < k && x in RootsOf(worlds[n], actions[n], n) :: x in log)
    && forall i, j | 0 <= i < j < |log| && log[i].cause.IsRoot() && !log[i].cause.Initial? ::
         log[i].cause != log[j].cause
  }

  /** A log of how the targets owned in the first k steps were acquired, in the order of the steps. */
  ghost predicate RunLog(worlds: seq<World>, actions: seq<Action>, targets: set<TargetId>, k: nat,
                         log: seq<Acquisition>)
    requires IsRun(worlds, actions, targets) && k <= |actions|
  {
    && Linked(log) && CountsRoots(worlds, actions, targets, k, log)
    && (forall i | 0 <= i < |log| :: Evident(worlds, actions, targets, k, log[i]))
    && forall i, j | 0 <= i < j < |log| :: log[i].cause.Step() <= log[j].cause.Step()
  }

  lemma {:induction false} InitialLog(targets: set<TargetId>) returns (log: seq<Acquisition>)
    ensures Explains(log, ProxyWorld.Initial(targets).own)
    ensures forall i | 0 <= i < |log| :: log[i].cause.Initial? && log[i].target in targets
    decreases |targets|
  {
    log := [];
    if targets != {} {
      var t :| t in targets;
      var rest := InitialLog(targets - {t});
      AppendExplains(rest, Acquisition(t, Cause.Initial), ProxyWorld.Initial(targets - {t}).own,
                     ProxyWorld.Initial(targets).own);
      log := rest + [Acquisition(t, Cause.Initial)];
    }
  }

  lemma NextEvident(worlds: seq<World>, actions: seq<Action>, targets: set<TargetId>, k: nat,
                    log: seq<Acquisition>, log': seq<Acquisition>, i: nat)
    requires IsRun(worlds, actions, targets) && k < |actions| && RunLog(worlds, actions, targets, k, log)
    requires GrowsByLinks(log + RootsOf(worlds[k], actions[k], k), log', PastAt(worlds, actions, targets, k))
    requires i < |log'|
    ensures Evident(worlds, actions, targets, k + 1, log'[i])
    ensures i < |log| ==> log'[i] == log[i]
    ensures i >= |log| ==> !log'[i].cause.Initial? && log'[i].cause.at == k
    ensures i >= |log| && log'[i].cause.IsRoot() ==> i < |log + RootsOf(worlds[k], actions[k], k)|
  {
    var roots := RootsOf(worlds[k], actions[k], k);
    assert log + roots <= log';
    if i < |log| {
      assert log'[i] == (log + roots)[i] == log[i];
      StillEvident(worlds, actions, targets, k, log[i]);
    } else if i < |log + roots| {
      assert log'[i] == (log + roots)[i] == roots[i - |log|];
      RootIsEvident(worlds, actions, targets, k, i - |log|);
    } else {
      assert Supports(log'[i], PastAt(worlds, actions, targets, k));
    }
  }

  lemma StillEvident(worlds: seq<World>, actions: seq<Action>, targets: set<TargetId>, k: nat, x: Acquisition)
    requires IsRun(worlds, actions, targets) && k < |actions| && Evident(worlds, actions, targets, k, x)
    ensures Evident(worlds, actions, targets, k + 1, x)
  {
  }

  lemma RootIsEvident(worlds: seq<World>, actions: seq<Action>, targets: set<TargetId>, k: nat, i: nat)
    requires IsRun(worlds, actions, targets) && k < |actions| && i < |RootsOf(worlds[k], actions[k], k)|
    ensures var x := RootsOf(worlds[k], actions[k], k)[i];
      x.cause.IsRoot() && !x.cause.Initial? && x.cause.at == k && Evident(worlds, actions, targets, k + 1, x)
  {
    var x := RootsOf(worlds[k], actions[k], k)[i];
    if x.cause.Adopted? {
      RunSees(worlds, actions, targets, k);
      assert x.target == worlds[k].own.tabs[0] && worlds[k].own.tabs[0] in worlds[k].own.tabs;
    }
  }

  lemma RunLogNext(worlds: seq<World>, actions: seq<Action>, targets: set<TargetId>, k: nat,
                   log: seq<Acquisition>, log': seq<Acquisition>)
    requires IsRun(worlds, actions, targets) && k < |actions| && RunLog(worlds, actions, targets, k, log)
    requires GrowsByLinks(log + RootsOf(worlds[k], actions[k], k), log', PastAt(worlds, actions, targets, k))
    requires Linked(log')
    ensures RunLog(worlds, actions, targets, k + 1, log')
  {
    var roots := RootsOf(worlds[k], actions[k], k);
    forall i | 0 <= i < |log'| ensures Evident(worlds, actions, targets, k + 1, log'[i]) {
      NextEvident(worlds, actions, targets, k, log, log', i);
    }
    NextInOrder(worlds, actions, targets, k, log, log');
    NextCounts(worlds, actions, targets, k, log, log');
  }

  lemma NextInOrder(worlds: seq<World>, actions: seq<Action>, targets: set<TargetId>, k: nat,
                    log: seq<Acquisition>, log': seq<Acquisition>)
    requires IsRun(worlds, actions, targets) && k < |actions| && RunLog(worlds, actions, targets, k, log)
    requires GrowsByLinks(log + RootsOf(worlds[k], actions[k], k), log', PastAt(worlds, actions, targets, k))
    ensures forall i, j | 0 <= i < j < |log'| :: log'[i].cause.Step() <= log'[j].cause.Step()
  {
    assert log <= log + RootsOf(worlds[k], actions[k], k) <= log';
    forall i, j | 0 <= i < j < |log'| ensures log'[i].cause.Step() <= log'[j].cause.Step() {
      NextEvident(worlds, actions, targets, k, log, log', i);
      NextEvident(worlds, actions, targets, k, log, log', j);
      if j < |log| { assert log'[i] == log[i] && log'[j] == log[j]; }
    }
  }

  lemma NextCounts(worlds: seq<World>, actions: seq<Action>, targets: set<TargetId>, k: nat,
                   log: seq<Acquisition>, log': seq<Acquisition>)
    requires IsRun(worlds, actions, targets) && k < |actions| && RunLog(worlds, actions, targets, k, log)
    requires GrowsByLinks(log + RootsOf(worlds[k], actions[k], k), log', PastAt(worlds, actions, targets, k))
    ensures CountsRoots(worlds, actions, targets, k + 1, log')
  {
    var roots := RootsOf(worlds[k], actions[k], k);
    assert log <= log + roots <= log';
    forall n, x | 0 <= n < k + 1 && x in RootsOf(worlds[n], actions[n], n) ensures x in log' {
      if n < k {
        assert x in log;
        InLonger(log, log', x);
      } else {
        assert x in log + roots;
        InLonger(log + roots, log', x);
      }
    }
    forall i, j | 0 <= i < j < |log'| && log'[i].cause.IsRoot() && !log'[i].cause.Initial?
      ensures log'[i].cause != log'[j].cause
    {
      NextDiffers(worlds, actions, targets, k, log, log', i, j);
    }
  }

  lemma RootsDiffer(w: World, a: Action, at: nat, i: nat, j: nat)
    requires Enabled(w, a) && i < j < |RootsOf(w, a, at)|
    ensures RootsOf(w, a, at)[i].cause != RootsOf(w, a, at)[j].cause
  {
  }

  lemma NextDiffers(worlds: seq<World>, actions: seq<Action>, targets: set<TargetId>, k: nat,
                    log: seq<Acquisition>, log': seq<Acquisition>, i: nat, j: nat)
    requires IsRun(worlds, actions, targets) && k < |actions| && RunLog(worlds, actions, targets, k, log)
    requires GrowsByLinks(log + RootsOf(worlds[k], actions[k], k), log', PastAt(worlds, actions, targets, k))
    requires i < j < |log'| && log'[i].cause.IsRoot() && !log'[i].cause.Initial?
    ensures log'[i].cause != log'[j].cause
  {
    var roots := RootsOf(worlds[k], actions[k], k);
    NextEvident(worlds, actions, targets, k, log, log', i);
    NextEvident(worlds, actions, targets, k, log, log', j);
    if i < |log| {
      assert Evident(worlds, actions, targets, k, log[i]);
    } else if log'[j].cause.IsRoot() {
      assert log'[i] == (log + roots)[i] == roots[i - |log|] && log'[j] == (log + roots)[j] == roots[j - |log|];
      RootsDiffer(worlds[k], actions[k], k, i - |log|, j - |log|);
    }
  }

  lemma InLonger(log: seq<Acquisition>, log': seq<Acquisition>, x: Acquisition)
    requires x in log && log <= log'
    ensures x in log'
  {
    var i :| 0 <= i < |log| && log[i] == x;
    assert log'[i] == x;
  }

  lemma {:induction false} RunExplained(worlds: seq<World>, actions: seq<Action>, targets: set<TargetId>, k: nat)
    returns (log: seq<Acquisition>, shown: seq<map<SessionId, TargetId>>)
    requires IsRun(worlds, actions, targets) && k <= |actions|
    ensures WorldExplained(worlds[k], log, shown, Heard(actions[..k]))
    ensures RunLog(worlds, actions, targets, k, log)
  {
    if k == 0 {
      log := InitialLog(targets);
      shown := [];
    } else {
      log, shown := RunExplained(worlds, actions, targets, k - 1);
      var w, a, heard := worlds[k - 1], actions[k - 1], Heard(actions[..k - 1]);
      assert actions[..k][..k - 1] == actions[..k - 1] && actions[..k][k - 1] == a;
      RunHeld(worlds, actions, targets, k - 1);
      var grown;
      grown, shown := StepExplained(w, a, log, shown, heard, k - 1);
      RunLogNext(worlds, actions, targets, k - 1, log, grown);
      log := grown;
    }
  }

  /** Places in the log, each acquired through the next and after it, down to a root cause. */
  predicate Lineage(log: seq<Acquisition>, path: seq<nat>) {
    && path != [] && (forall j | 0 <= j < |path| :: path[j] < |log|)
    && log[path[|path| - 1]].cause.IsRoot()
    && forall j | 0 <= j < |path| - 1 :: LinksTo(log, path[j], path[j + 1])
  }

  predicate LinksTo(log: seq<Acquisition>, i: nat, j: nat) {
    j < i < |log| && !log[i].cause.IsRoot() && log[i].cause.Link() == log[j].target
  }

  lemma {:induction false} LineageFrom(log: seq<Acquisition>, i: nat) returns (path: seq<nat>)
    requires Linked(log) && i < |log|
    ensures Lineage(log, path) && path[0] == i
    decreases i
  {
    if log[i].cause.IsRoot() {
      path := [i];
    } else {
      var j :| 0 <= j < i && log[..i][j].target == log[i].cause.Link();
      var rest := LineageFrom(log, j);
      path := [i] + rest;
      forall n | 0 <= n < |path| - 1 ensures LinksTo(log, path[n], path[n + 1]) {
        if n > 0 { assert path[n] == rest[n - 1] && path[n + 1] == rest[n]; }
      }
    }
  }

  /** In every reachable world one log explains the ownership, and every entry of it is evident in
      the run: an initial target, a grant, a creation that ended with the target, the head of the
      tabs remembered when one ended, which a message had announced; or a message the connection
      judged at that step, which names as its opener a target acquired before, or which came on a
      session that the connection had been told shows a target acquired before. Each grant, and each
      creation, has its own entries, and no entry stands for two; each owned target has a lineage
      down to such a root. */
  lemma OwnershipHasProvenance(worlds: seq<World>, actions: seq<Action>, targets: set<TargetId>, k: nat)
    returns (log: seq<Acquisition>)
    requires IsRun(worlds, actions, targets) && k <= |actions|
    ensures RunLog(worlds, actions, targets, k, log)
    ensures forall t | worlds[k].own.Owns(t) :: exists path :: Lineage(log, path) && log[path[0]].target == t
  {
    var shown;
    log, shown := RunExplained(worlds, actions, targets, k);
    forall t | worlds[k].own.Owns(t) ensures exists path :: Lineage(log, path) && log[path[0]].target == t {
      var i :| 0 <= i < |log| && log[i].target == t;
      var path := LineageFrom(log, i);
    }
  }

  /** In every reachable world, whatever a client was told on the browser level about a target, and
      every command that went to Chromium for it and names one, is about a target with such an
      acquisition; each message it was told it had received, and each session it commanded had been
      announced to it. Replays of held messages are no exception. */
  lemma ClientsAreConfined(worlds: seq<World>, actions: seq<Action>, targets: set<TargetId>, k: nat)
    returns (log: seq<Acquisition>)
    requires IsRun(worlds, actions, targets) && k <= |actions|
    ensures RunLog(worlds, actions, targets, k, log) && |Heard(actions[..k])| == |worlds[k].conns|
    ensures forall i | 0 <= i < |worlds[k].conns| :: Confined(log, worlds[k].conns[i], Heard(actions[..k])[i])
  {
    var shown;
    log, shown := RunExplained(worlds, actions, targets, k);
    forall i | 0 <= i < |worlds[k].conns| ensures Confined(log, worlds[k].conns[i], Heard(actions[..k])[i]) {
      assert ExplainedAt(log, worlds[k].conns[i], shown[i], Heard(actions[..k])[i]);
    }
  }
}
