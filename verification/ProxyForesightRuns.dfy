/** The creation that owns a held page finishes: over every run, holding the page and replaying it
    equals having known all along that it is owned. */
module ProxyForesightRuns {
  import opened Wrappers
  import opened ProxyModel
  import opened ProxyHolds
  import opened ProxyWorld
  import opened ProxyForesight
  import opened ProxyReplay
  import opened ProxyWorldSim
  import opened ProxyWorldSteps
  import ProxyCounting

  // ---- the last settling ----

  /** Both sessions own the page now. */
  ghost predicate OwnFinal(f: Page, own: Ownership, own': Ownership) {
    && f.Valid() && OuterOwn(f, own) == OuterOwn(f, own')
    && own.pages * f.ids == own'.pages * f.ids && f.target in own.pages
    && f.target !in own.tabs && f.target !in own'.tabs
  }

  /** Connection i once the first n have been settled, of a world that held w0's messages. */
  ghost predicate FinalAt(f: Page, book: seq<Entry>, w0: World, w: World, v: World, n: nat, i: nat) {
    && i < |book| && i < |w0.conns| && i < |w.conns| && i < |v.conns|
    && Final(f, book[i], HeldMessages(f, w0.conns[i]), At(w, i), At(v, i))
    && if i < n then f.target !in w.conns[i].held
       else HeldMessages(f, w.conns[i]) == HeldMessages(f, w0.conns[i])
  }

  /** Every message that reached a client of v is held in w, or was sent. */
  predicate NoneMissed(book: seq<Entry>) {
    forall i: nat | i < |book| :: book[i].missed == {}
  }

  ghost predicate WorldFinal(f: Page, book: seq<Entry>, lost: set<TargetId>, w0: World, w: World,
                             v: World, n: nat)
  {
    && |book| == |w0.conns| == |w.conns| == |v.conns| && n <= |w.conns|
    && w.http == v.http && OwnFinal(f, w.own, v.own)
    && (forall i: nat | i < |w.conns| :: FinalAt(f, book, w0, w, v, n, i))
    && (NoneMissed(book) ==> w.own.children * f.ids == w0.own.children * f.ids + GainedBy(book, n))
    && v.own.children * f.ids
       == w0.own.children * f.ids + GainedBy(book, |book|) + lost
  }

  /** The creation's result makes the page owned: it names the page, or adopts it as the one tab
      remembered. */
  predicate CreditsPage(f: Page, own: Ownership, created: Option<TargetId>) {
    created.Some? &&
      if own.tabs == [f.target] then created.value == f.target || created.value !in f.ids
      else created.value == f.target && f.target !in own.tabs
  }

  lemma CreditPageTabs(f: Page, own: Ownership, own': Ownership)
    requires OwnSim(f, own, own') && own.tabs != [] && f.target !in own.tabs
    ensures own'.tabs == own.tabs && own.tabs[0] !in f.ids
  {
    WithoutAbsent(own.tabs, f.target);
    WithoutAbsent(own'.tabs, f.target);
    assert own.tabs[0] in own.tabs;
  }

  lemma CreditPage(f: Page, own: Ownership, own': Ownership, created: Option<TargetId>)
    requires OwnSim(f, own, own') && CreditsPage(f, own, created)
    ensures OwnFinal(f, CreditCreation(own, created), CreditCreation(own', created))
    ensures CreditCreation(own, created).pages * f.ids == own'.pages * f.ids
  {
    WithoutAbsent(own'.tabs, f.target);
    if own.tabs == [f.target] {
      assert Without([f.target], f.target) == [] by { WithoutAppend([], f.target, f.target); }
      assert own'.tabs == [];
      PagesCredited(f, own.pages, own'.pages, {created.value, f.target});
      PagesCredited(f, own.pages, own'.pages, {created.value});
    } else if own.tabs != [] {
      CreditPageTabs(f, own, own');
      PagesCredited(f, own.pages, own'.pages, {created.value, own.tabs[0]});
    } else {
      PagesCredited(f, own.pages, own'.pages, {created.value});
    }
  }

  lemma PagesCredited(f: Page, a: set<TargetId>, b: set<TargetId>, more: set<TargetId>)
    requires f.Valid() && a - f.ids == b - f.ids && b * f.ids == a * f.ids + {f.target}
    requires more * f.ids <= {f.target}
    ensures (a + more) - f.ids == (a - f.ids) + (more - f.ids)
    ensures (b + more) - f.ids == (a - f.ids) + (more - f.ids)
    ensures (b + more) * f.ids == b * f.ids
    ensures f.target in more ==> (a + more) * f.ids == b * f.ids
  {
    assert (b + more) - f.ids == (b - f.ids) + (more - f.ids);
    assert (b + more) * f.ids == (b * f.ids) + (more * f.ids);
    assert (a + more) * f.ids == (a * f.ids) + (more * f.ids);
  }

  /** Where the last settling of a connection starts. */
  lemma FinalStart(f: Page, e: Entry, p: Side, q: Side, own: Ownership, own': Ownership)
    requires Sim(f, e, p, q) && OwnFinal(f, own, own')
    requires own.pages * f.ids == q.own.pages * f.ids
    ensures Final(f, e, HeldMessages(f, p.conn), Side(own, p.conn), Side(own', q.conn))
  {
    SimPages(f, e, p, q);
    assert f.target in own.pages * f.ids && f.target in own'.pages * f.ids;
    assert Inner(f, Side(own', q.conn)) == Inner(f, q);
    assert Inner(f, Side(own, p.conn)) == Inner(f, e.known);
    KnownReady(f, Side(own', q.conn));
  }

  lemma FinalShared(f: Page, e: Entry, ms: seq<Message>, p: Side, q: Side, own: Ownership,
                    own': Ownership)
    requires Final(f, e, ms, p, q) && OwnFinal(f, own, own')
    requires own.pages * f.ids == q.own.pages * f.ids == p.own.pages * f.ids
    ensures Final(f, e, ms, Side(own, p.conn), Side(own', q.conn))
  {
    assert f.target in own'.pages * f.ids;
    assert Inner(f, Side(own', q.conn)) == Inner(f, q);
    assert Inner(f, Side(own, p.conn)) == Inner(f, p);
    KnownReady(f, Side(own', q.conn));
  }

  lemma {:induction false} ReplayKnownTabs(f: Page, s: Side, ms: seq<Message>)
    requires Ready(f, s) && f.target !in s.own.tabs && forall m | m in ms :: Belongs(f, m)
    ensures f.target !in Replay(s, ms).own.tabs
  {
    if ms != [] {
      ReplayKnownTabs(f, s, ms[..|ms| - 1]);
      ReplayPages(f, s, ms[..|ms| - 1]);
      KnownTabs(f, Replay(s, ms[..|ms| - 1]), ms[|ms| - 1]);
    }
  }

  lemma FinalOneTabs(f: Page, e: Entry, ms: seq<Message>, p: Side, q: Side, t: TargetId)
    requires Final(f, e, ms, p, q) && f.target !in p.own.tabs && f.target !in q.own.tabs
    ensures f.target !in SettleOne(p, t).own.tabs
    ensures t != f.target ==> f.target !in SettleOne(q, t).own.tabs
  {
    if t != f.target {
      SettleOneTabs(f, p, t);
      SettleOneTabs(f, q, t);
    } else if f.target in p.conn.held {
      PageUnheld(f, p);
      ReplayKnownTabs(f, p.(conn := Unhold(p.conn, f.target)), ms);
    }
  }

  lemma {:induction false} FinalEachTabs(f: Page, e: Entry, ms: seq<Message>, p: Side, q: Side,
                                         ts: seq<TargetId>)
    requires Final(f, e, ms, p, q) && f.target !in p.own.tabs && f.target !in q.own.tabs
    ensures f.target !in SettleEach(p, ts).own.tabs
    ensures f.target !in SettleEach(q, Without(ts, f.target)).own.tabs
  {
    if ts != [] {
      var front, t := ts[..|ts| - 1], ts[|ts| - 1];
      var rest := Without(front, f.target);
      FinalEachTabs(f, e, ms, p, q, front);
      FinalEach(f, e, ms, p, q, front);
      assert rest + [] == rest && (rest + [t])[..|rest|] == rest;
      FinalOneTabs(f, e, ms, SettleEach(p, front), SettleEach(q, rest), t);
    }
  }

  lemma FinalTabs(f: Page, e: Entry, ms: seq<Message>, p: Side, q: Side)
    requires Final(f, e, ms, p, q) && f.target !in p.own.tabs && f.target !in q.own.tabs
    ensures f.target !in SettleHeld(p).own.tabs && f.target !in SettleHeld(q).own.tabs
  {
    FinalEachTabs(f, e, ms, p, q, p.conn.heldOrder);
    assert Outer(f, p).conn.heldOrder == Outer(f, q).conn.heldOrder;
    SettleSkips(f, q, q.conn.heldOrder);
  }

  lemma FinalConn(f: Page, e: Entry, ms: seq<Message>, p: Side, q: Side)
    requires Final(f, e, ms, p, q) && OwnFinal(f, p.own, q.own) && HeldMessages(f, p.conn) == ms
    ensures var p', q' := SettleHeld(p), SettleHeld(q);
      && Final(f, e, ms, p', q') && OwnFinal(f, p'.own, q'.own)
      && p'.own.pages * f.ids == p.own.pages * f.ids && f.target !in p'.conn.held
      && Kids(f, p') == Kids(f, p) + Gains(f, e.known, ms) && Kids(f, q') == Kids(f, q)
  {
    FinalSettle(f, e, ms, p, q);
    FinalTabs(f, e, ms, p, q);
    var p', q' := SettleHeld(p), SettleHeld(q);
    KnownStaysOwned(f, e.known, ms);
    assert Inner(f, p').pages == p'.own.pages * f.ids == Inner(f, e.known).pages;
    assert Inner(f, q').pages == q'.own.pages * f.ids == Inner(f, e.known).pages;
    assert Inner(f, q).pages == q.own.pages * f.ids;
  }

  lemma FinalStep(f: Page, book: seq<Entry>, lost: set<TargetId>, w0: World, w: World, v: World,
                  n: nat)
    requires WorldFinal(f, book, lost, w0, w, v, n) && n < |w.conns|
    ensures WorldFinal(f, book, lost, w0, Put(w, n, SettleHeld(At(w, n))), Put(v, n, SettleHeld(At(v, n))),
                       n + 1)
  {
    var p, q := At(w, n), At(v, n);
    assert FinalAt(f, book, w0, w, v, n, n);
    FinalConn(f, book[n], HeldMessages(f, w0.conns[n]), p, q);
    FinalPut(f, book, lost, w0, w, v, n, SettleHeld(p), SettleHeld(q));
  }

  lemma FinalPut(f: Page, book: seq<Entry>, lost: set<TargetId>, w0: World, w: World, v: World, n: nat,
                 p: Side, q: Side)
    requires WorldFinal(f, book, lost, w0, w, v, n) && n < |w.conns|
    requires Final(f, book[n], HeldMessages(f, w0.conns[n]), p, q) && OwnFinal(f, p.own, q.own)
    requires p.own.pages * f.ids == w.own.pages * f.ids && f.target !in p.conn.held
    requires NoneMissed(book) ==> Kids(f, p) == w.own.children * f.ids + book[n].gains
    requires Kids(f, q) == v.own.children * f.ids
    ensures WorldFinal(f, book, lost, w0, Put(w, n, p), Put(v, n, q), n + 1)
  {
    var w', v', next := Put(w, n, p), Put(v, n, q), n + 1;
    forall i: nat | i < |w'.conns| ensures FinalAt(f, book, w0, w', v', next, i) {
      FinalPutAt(f, book, w0, w, v, n, p, q, i);
    }
  }

  lemma FinalPutAt(f: Page, book: seq<Entry>, w0: World, w: World, v: World, n: nat, p: Side, q: Side, i: nat)
    requires FinalAt(f, book, w0, w, v, n, i) && n < |w.conns| == |v.conns|
    requires n < |book| && n < |w0.conns| && Final(f, book[n], HeldMessages(f, w0.conns[n]), p, q)
    requires OwnFinal(f, p.own, q.own) && w.own.pages * f.ids == v.own.pages * f.ids
    requires p.own.pages * f.ids == w.own.pages * f.ids && f.target !in p.conn.held
    ensures FinalAt(f, book, w0, Put(w, n, p), Put(v, n, q), n + 1, i)
  {
    if i != n {
      FinalShared(f, book[i], HeldMessages(f, w0.conns[i]), At(w, i), At(v, i), p.own, q.own);
      assert At(Put(w, n, p), i) == Side(p.own, w.conns[i]) && At(Put(v, n, q), i) == Side(q.own, v.conns[i]);
    } else {
      assert At(Put(w, n, p), n) == p && At(Put(v, n, q), n) == q;
    }
  }

  lemma {:induction false} FinalConns(f: Page, book: seq<Entry>, lost: set<TargetId>, w0: World,
                                      w: World, v: World, n: nat)
    requires WorldFinal(f, book, lost, w0, w, v, 0) && n <= |w.conns|
    ensures WorldFinal(f, book, lost, w0, SettleConns(w, n), SettleConns(v, n), n)
  {
    if n > 0 {
      FinalConns(f, book, lost, w0, w, v, n - 1);
      FinalStep(f, book, lost, w0, SettleConns(w, n - 1), SettleConns(v, n - 1), n - 1);
      SettleConnsNext(w, n);
      SettleConnsNext(v, n);
    }
  }

  // ---- the sessions are alike again ----

  /** Equal up to how the page's messages interleave with others at the clients, and up to the
      page's children that are missing from w. */
  ghost predicate Alike(f: Page, missing: set<TargetId>, w: World, v: World) {
    && v.own.(children := w.own.children) == w.own
    && v.own.children - f.ids == w.own.children - f.ids
    && v.own.children * f.ids == w.own.children * f.ids + missing
    && v.http == w.http && |v.conns| == |w.conns|
    && forall i: nat | i < |w.conns| :: SameUpToInterleaving(f, w.conns[i], v.conns[i])
  }

  /** Equal in all that is not the page's, and both own the page. */
  ghost predicate AlikeOutside(f: Page, w: World, v: World) {
    && OuterOwn(f, w.own) == OuterOwn(f, v.own) && w.own.pages == v.own.pages && f.target in w.own.pages
    && v.http == w.http && |v.conns| == |w.conns|
    && forall i: nat | i < |w.conns| :: Outer(f, At(w, i)).conn == Outer(f, At(v, i)).conn
  }

  lemma FinalOutside(f: Page, book: seq<Entry>, lost: set<TargetId>, w0: World, w: World, v: World)
    requires WorldFinal(f, book, lost, w0, w, v, |w0.conns|)
    ensures AlikeOutside(f, w, v)
  {
    Rejoin(w.own.pages, v.own.pages, f.ids);
    forall i: nat | i < |w.conns| ensures Outer(f, At(w, i)).conn == Outer(f, At(v, i)).conn {
      assert FinalAt(f, book, w0, w, v, |w0.conns|, i);
    }
  }

  lemma FinalAlike(f: Page, book: seq<Entry>, lost: set<TargetId>, w0: World, w: World, v: World)
    requires WorldFinal(f, book, lost, w0, w, v, |w0.conns|) && NoneMissed(book)
    ensures Alike(f, lost, w, v)
  {
    Rejoin(w.own.pages, v.own.pages, f.ids);
    WithoutAbsent(w.own.tabs, f.target);
    WithoutAbsent(v.own.tabs, f.target);
    forall i: nat | i < |w.conns| ensures SameUpToInterleaving(f, w.conns[i], v.conns[i]) {
      assert FinalAt(f, book, w0, w, v, |w0.conns|, i);
      KnownReady(f, At(w, i));
      ViewsDecide(f, At(w, i), At(v, i));
    }
  }

  /** Replaying messages tells the client of no other. */
  lemma {:induction false} ReplayTimes(f: Page, s: Side, ms: seq<Message>, m: Message)
    requires Ready(f, s) && m !in ms && forall x | x in ms :: Belongs(f, x)
    ensures Ready(f, Replay(s, ms)) && Times(f, Replay(s, ms), m) == Times(f, s, m)
  {
    if ms != [] {
      ReplayTimes(f, s, ms[..|ms| - 1], m);
      OfPageHandled(f, Replay(s, ms[..|ms| - 1]), ms[|ms| - 1]);
    }
  }

  lemma FinalMisses(f: Page, book: seq<Entry>, lost: set<TargetId>, w0: World, w: World, v: World, i: nat,
                    m: Message)
    requires WorldFinal(f, book, lost, w0, w, v, |w0.conns|) && i < |book|
    requires m in book[i].missed && m !in HeldMessages(f, w0.conns[i])
    ensures Times(f, At(w, i), m) < Times(f, At(v, i), m)
  {
    var ms := HeldMessages(f, w0.conns[i]);
    assert FinalAt(f, book, w0, w, v, |w0.conns|, i);
    ReplayTimes(f, book[i].known, ms, m);
    assert Inner(f, At(w, i)) == Inner(f, Replay(book[i].known, ms));
  }

  lemma FinalBegins(f: Page, book: seq<Entry>, lost: set<TargetId>, w: World, v: World,
                    own: Ownership, own': Ownership)
    requires WorldSim(f, book, lost, w, v) && OwnFinal(f, own, own')
    requires own.pages * f.ids == v.own.pages * f.ids
    requires own.children == w.own.children && own'.children == v.own.children
    ensures WorldFinal(f, book, lost, w, w.(own := own), v.(own := own'), 0)
  {
    forall i: nat | i < |w.conns|
      ensures FinalAt(f, book, w, w.(own := own), v.(own := own'), 0, i)
    {
      assert SimAt(f, book, w, v, i);
      FinalStart(f, book[i], At(w, i), At(v, i), own, own');
    }
  }

  /** What the end of the creation leaves: all alike outside the page; the page's part too when
      nothing was missed; and what was missed is missing. */
  ghost predicate Settled(f: Page, book: seq<Entry>, lost: set<TargetId>, w0: World, w: World, v: World) {
    && AlikeOutside(f, w, v) && |book| == |w0.conns| == |w.conns|
    && (NoneMissed(book) ==> Alike(f, lost, w, v))
    && forall i: nat, m | i < |book| && m in book[i].missed && m !in HeldMessages(f, w0.conns[i]) ::
         Times(f, At(w, i), m) < Times(f, At(v, i), m)
  }

  lemma FinishedPage(f: Page, book: seq<Entry>, lost: set<TargetId>, w: World, v: World,
                     created: Option<TargetId>)
    requires WorldSim(f, book, lost, w, v) && CreditsPage(f, w.own, created)
    ensures Settled(f, book, lost, w, CreationFinished(w, created), CreationFinished(v, created))
  {
    var own, own' := CreditCreation(w.own, created), CreditCreation(v.own, created);
    CreditPage(f, w.own, v.own, created);
    FinalBegins(f, book, lost, w, v, own, own');
    FinalConns(f, book, lost, w, w.(own := own), v.(own := own'), |w.conns|);
    var w', v' := CreationFinished(w, created), CreationFinished(v, created);
    FinalOutside(f, book, lost, w, w', v');
    if NoneMissed(book) { FinalAlike(f, book, lost, w, w', v'); }
    forall i: nat, m | i < |book| && m in book[i].missed && m !in HeldMessages(f, w.conns[i])
      ensures Times(f, At(w', i), m) < Times(f, At(v', i), m)
    {
      FinalMisses(f, book, lost, w, w', v', i, m);
    }
  }

  lemma AnswerAlike(f: Page, missing: set<TargetId>, w: World, v: World, i: nat, command: Inflight,
                    answer: Option<Answer>)
    requires Alike(f, missing, w, v) && i < |w.conns| && command.CreatesTarget()
    ensures Alike(f, missing, Put(w, i, AnswerClient(At(w, i), command, answer)),
                  Put(v, i, AnswerClient(At(v, i), command, answer)))
  {
    var c, d := w.conns[i], v.conns[i];
    AnswerTells(At(w, i), command, answer);
    AnswerTells(At(v, i), command, answer);
    var said := Said(At(w, i), command, answer);
    assert said == Said(At(v, i), command, answer);
    LogSaid(f, c.client, said);
    LogSaid(f, d.client, said);
    assert SameUpToInterleaving(f, c, d);
    assert SameUpToInterleaving(f, AnswerClient(At(w, i), command, answer).conn,
                                AnswerClient(At(v, i), command, answer).conn);
  }

  lemma AnswerOutside(f: Page, w: World, v: World, i: nat, command: Inflight, answer: Option<Answer>)
    requires AlikeOutside(f, w, v) && i < |w.conns| && command.CreatesTarget()
    ensures AlikeOutside(f, Put(w, i, AnswerClient(At(w, i), command, answer)),
                         Put(v, i, AnswerClient(At(v, i), command, answer)))
  {
    AnswerTells(At(w, i), command, answer);
    AnswerTells(At(v, i), command, answer);
    var said := Said(At(w, i), command, answer);
    assert said == Said(At(v, i), command, answer);
    TellingOuter(f, At(w, i), said, {}, {});
    TellingOuter(f, At(v, i), said, {}, {});
    var w', v' := Put(w, i, AnswerClient(At(w, i), command, answer)), Put(v, i, AnswerClient(At(v, i), command, answer));
    forall j: nat | j < |w'.conns| ensures Outer(f, At(w', j)).conn == Outer(f, At(v', j)).conn {
      assert Outer(f, At(w, j)).conn == Outer(f, At(v, j)).conn;
      if j != i { assert At(w', j).conn == w.conns[j] && At(v', j).conn == v.conns[j]; }
    }
  }

  lemma AnswerTimes(f: Page, w: World, i: nat, command: Inflight, answer: Option<Answer>, j: nat, m: Message)
    requires i < |w.conns| && j < |w.conns|
    ensures Times(f, At(Put(w, i, AnswerClient(At(w, i), command, answer)), j), m) == Times(f, At(w, j), m)
  {
    if j == i && command.client.Some? {
      AnswerTells(At(w, i), command, answer);
      LogSaid(f, w.conns[i].client, Said(At(w, i), command, answer));
    }
  }

  lemma AnswerSettled(f: Page, book: seq<Entry>, lost: set<TargetId>, w0: World, w: World, v: World, i: nat,
                      command: Inflight, answer: Option<Answer>)
    requires Settled(f, book, lost, w0, w, v) && i < |w.conns| && command.CreatesTarget()
    ensures Settled(f, book, lost, w0, Put(w, i, AnswerClient(At(w, i), command, answer)),
                    Put(v, i, AnswerClient(At(v, i), command, answer)))
  {
    AnswerOutside(f, w, v, i, command, answer);
    if NoneMissed(book) { AnswerAlike(f, lost, w, v, i, command, answer); }
    var w' := Put(w, i, AnswerClient(At(w, i), command, answer));
    var v' := Put(v, i, AnswerClient(At(v, i), command, answer));
    forall j: nat, m | j < |book| && m in book[j].missed && m !in HeldMessages(f, w0.conns[j])
      ensures Times(f, At(w', j), m) < Times(f, At(v', j), m)
    {
      assert Times(f, At(w, j), m) < Times(f, At(v, j), m);
      AnswerTimes(f, w, i, command, answer, j, m);
      AnswerTimes(f, v, i, command, answer, j, m);
    }
  }

  /** The reply, or the end of the `/json/new` request, whose creation makes the page owned. */
  predicate Credits(f: Page, w: World, a: Action) {
    && Enabled(w, a)
    && match a
       case Reply(i, id, answer) =>
         id in Creating(w.conns[i]) && CreditsPage(f, w.own, CreatedTarget(answer))
       case NewFinished(created) => CreditsPage(f, w.own, created)
       case _ => false
  }

  lemma ReplySettled(f: Page, book: seq<Entry>, lost: set<TargetId>, w: World, v: World, i: nat,
                     id: nat, answer: Option<Answer>)
    requires WorldSim(f, book, lost, w, v) && i < |w.conns| && id in Creating(w.conns[i])
    requires CreditsPage(f, w.own, CreatedTarget(answer))
    ensures i < |v.conns|
    ensures Settled(f, book, lost, w, Next(w, Reply(i, id, answer)), Next(v, Reply(i, id, answer)))
  {
    SameInflight(f, book, w, v, i);
    TakenSim(f, book, lost, w, v, i, id);
    FinishedPage(f, book, lost, Taken(w, i, id), Taken(v, i, id), CreatedTarget(answer));
    var w', v' := CreationFinished(Taken(w, i, id), CreatedTarget(answer)), CreationFinished(Taken(v, i, id), CreatedTarget(answer));
    TakenHolds(f, book, lost, w, i, id, w', v');
    AnswerSettled(f, book, lost, w, w', v', i, w.conns[i].inflight[id], answer);
  }

  lemma TakenHolds(f: Page, book: seq<Entry>, lost: set<TargetId>, w: World, i: nat, id: nat, w': World, v': World)
    requires i < |w.conns| && Settled(f, book, lost, Taken(w, i, id), w', v')
    ensures Settled(f, book, lost, w, w', v')
  {
    forall j: nat | j < |w.conns|
      ensures HeldMessages(f, Taken(w, i, id).conns[j]) == HeldMessages(f, w.conns[j]) {}
  }

  lemma CreditedSettled(f: Page, book: seq<Entry>, lost: set<TargetId>, w: World, v: World, a: Action)
    requires WorldSim(f, book, lost, w, v) && Credits(f, w, a)
    ensures Enabled(v, a) && Settled(f, book, lost, w, Next(w, a), Next(v, a))
  {
    match a
    case Reply(i, id, answer) => ReplySettled(f, book, lost, w, v, i, id, answer);
    case NewFinished(created) =>
      HttpSim(f, book, lost, w, v, w.http - 1);
      FinishedPage(f, book, lost, w.(http := w.http - 1), v.(http := v.http - 1), created);
  }

  // ---- runs ----

  /** A creation is pending and nothing anywhere names the page yet. */
  ghost predicate Unseen(f: Page, w: World) {
    && f.Valid() && !w.own.Owns(f.target) && w.own.pending > 0
    && (forall t | t in w.own.tabs :: t !in f.ids)
    && forall i: nat | i < |w.conns| :: UnseenBy(f, At(w, i))
  }

  ghost predicate UnseenBy(f: Page, s: Side) {
    Sane(f, s) && f.target !in s.conn.held && NoneAttached(f, s)
  }

  /** The same session, knowing that the page is owned. */
  function Foreseeing(f: Page, w: World): World {
    w.(own := w.own.(pages := w.own.pages + {f.target}))
  }

  /** From `start` on, `foreseen` takes the actions of the run, but knows that the page is owned. */
  ghost predicate Foresees(f: Page, worlds: seq<World>, actions: seq<Action>, start: nat,
                           foreseen: seq<World>)
  {
    && start < |worlds| == |actions| + 1 == |foreseen|
    && foreseen[start] == Foreseeing(f, worlds[start])
    && forall k {:trigger actions[k]} | start <= k < |actions| ::
         Enabled(foreseen[k], actions[k]) ==> foreseen[k + 1] == Next(foreseen[k], actions[k])
  }

  ghost predicate AllUnattached(f: Page, book: seq<Entry>) {
    forall i: nat | i < |book| :: NoneAttached(f, book[i].known)
  }

  lemma UnseenStart(f: Page, s: Side)
    requires UnseenBy(f, s) && Kept(s.conn) && f.Valid() && !s.own.Owns(f.target) && s.own.pending > 0
    ensures Sim(f, Entry(Known(f, s), {}, {}), s, Granted(f, s)) && NoneAttached(f, Known(f, s))
  {
    GrantedStart(f, s);
  }

  lemma {:induction false} NothingGained(book: seq<Entry>, n: nat)
    requires n <= |book| && forall i | 0 <= i < n :: book[i].gains == {}
    ensures GainedBy(book, n) == {}
  {
    if n > 0 { NothingGained(book, n - 1); }
  }

  lemma ForesightBegins(f: Page, w: World) returns (book: seq<Entry>)
    requires Unseen(f, w) && ProxyCounting.AllTidy(w.conns)
    ensures WorldSim(f, book, {}, w, Foreseeing(f, w)) && AllUnattached(f, book) && NoneMissed(book)
  {
    var v := Foreseeing(f, w);
    book := seq(|w.conns|, i requires 0 <= i < |w.conns| => Entry(Known(f, At(w, i)), {}, {}));
    forall i: nat | i < |w.conns|
      ensures SimAt(f, book, w, v, i) && NoneAttached(f, book[i].known)
    {
      assert ProxyCounting.Tidy(w.conns[i]) && UnseenBy(f, At(w, i));
      UnseenStart(f, At(w, i));
      assert At(v, i) == Granted(f, At(w, i));
    }
    NothingGained(book, |book|);
    OwnBegins(f, w.own);
  }

  lemma OwnBegins(f: Page, own: Ownership)
    requires f.Valid() && !own.Owns(f.target) && own.pending > 0 && forall t | t in own.tabs :: t !in f.ids
    ensures OwnSim(f, own, own.(pages := own.pages + {f.target}))
  {
  }

  /** Every action from `start` on and before `stop` is allowed. */
  ghost predicate AllowedBetween(f: Page, worlds: seq<World>, actions: seq<Action>, start: nat, stop: nat)
    requires |worlds| == |actions| + 1 && stop <= |actions|
  {
    start < stop ==>
      AllowedBetween(f, worlds, actions, start, stop - 1) && Allowed(f, worlds[stop - 1], actions[stop - 1])
  }

  predicate NoCloses(actions: seq<Action>, start: nat, stop: nat)
    requires stop <= |actions|
  {
    forall k | start <= k < stop :: !actions[k].Close?
  }

  /** At step j the foreseeing session forwards a message of the page that the holding one ignores. */
  ghost predicate LostAt(f: Page, worlds: seq<World>, actions: seq<Action>, foreseen: seq<World>, j: nat) {
    && j < |actions| && j < |worlds| && j < |foreseen| && actions[j].FromChromium?
    && actions[j].i < |worlds[j].conns| && actions[j].i < |foreseen[j].conns|
    && Ignored(f, At(worlds[j], actions[j].i), actions[j].message)
    && !Swallowed(f, At(foreseen[j], actions[j].i), actions[j].message)
  }

  ghost predicate NothingLost(f: Page, worlds: seq<World>, actions: seq<Action>, foreseen: seq<World>,
                              start: nat, stop: nat)
  {
    forall j: nat | start <= j < stop :: !LostAt(f, worlds, actions, foreseen, j)
  }

  /** The book names what was lost from `start` on and before k. */
  ghost predicate Tracks(f: Page, worlds: seq<World>, actions: seq<Action>, foreseen: seq<World>,
                         start: nat, k: nat, book: seq<Entry>)
    requires k <= |actions|
  {
    && (NothingLost(f, worlds, actions, foreseen, start, k) ==> NoneMissed(book))
    && (NoCloses(actions, start, k) ==>
          forall j: nat | start <= j < k && LostAt(f, worlds, actions, foreseen, j) ::
            actions[j].i < |book| && actions[j].message in book[actions[j].i].missed)
  }

  lemma UnattachedAfter(f: Page, book: seq<Entry>, w: World, v: World, a: Action)
    requires AllUnattached(f, book) && Enabled(w, a) && |book| == |w.conns| == |v.conns|
    ensures AllUnattached(f, BookAfter(f, book, w, v, a))
  {
    var after := BookAfter(f, book, w, v, a);
    forall i: nat | i < |after| ensures NoneAttached(f, after[i].known) {
      if a.Close? { assert NoneAttached(f, book[if i < a.i then i else i + 1].known); }
      else if i < |book| { assert NoneAttached(f, book[i].known); }
    }
  }

  lemma NoClosesNext(actions: seq<Action>, start: nat, k: nat)
    requires start <= k < |actions|
    ensures NoCloses(actions, start, k + 1) == (NoCloses(actions, start, k) && !actions[k].Close?)
  {
  }

  /** Unless a connection closes, what the book says is missed stays missed. */
  lemma BookGrows(f: Page, book: seq<Entry>, w: World, v: World, a: Action)
    requires Enabled(w, a) && |book| == |w.conns| == |v.conns| && !a.Close?
    ensures |BookAfter(f, book, w, v, a)| >= |book|
    ensures forall i | 0 <= i < |book| :: book[i].missed <= BookAfter(f, book, w, v, a)[i].missed
  {
  }

  lemma TracksNext(f: Page, worlds: seq<World>, actions: seq<Action>, foreseen: seq<World>,
                   start: nat, k: nat, book: seq<Entry>)
    requires start <= k < |actions| && |worlds| == |actions| + 1 == |foreseen|
    requires Enabled(worlds[k], actions[k]) && |book| == |worlds[k].conns| == |foreseen[k].conns|
    requires Tracks(f, worlds, actions, foreseen, start, k, book)
    ensures Tracks(f, worlds, actions, foreseen, start, k + 1, BookAfter(f, book, worlds[k], foreseen[k], actions[k]))
  {
    var a, after := actions[k], BookAfter(f, book, worlds[k], foreseen[k], actions[k]);
    if NothingLost(f, worlds, actions, foreseen, start, k + 1) {
      assert NothingLost(f, worlds, actions, foreseen, start, k);
      assert !LostAt(f, worlds, actions, foreseen, k);
      NoneMissedNext(f, book, worlds[k], foreseen[k], a);
    }
    if NoCloses(actions, start, k + 1) {
      NoClosesNext(actions, start, k);
      BookGrows(f, book, worlds[k], foreseen[k], a);
      forall j: nat | start <= j < k + 1 && LostAt(f, worlds, actions, foreseen, j)
        ensures actions[j].i < |after| && actions[j].message in after[actions[j].i].missed
      {
        if j == k { LostIsNoted(f, book, worlds[k], foreseen[k], a); }
      }
    }
  }

  lemma LostIsNoted(f: Page, book: seq<Entry>, w: World, v: World, a: Action)
    requires a.FromChromium? && Enabled(w, a) && |book| == |w.conns| == |v.conns|
    requires Ignored(f, At(w, a.i), a.message) && !Swallowed(f, At(v, a.i), a.message)
    ensures a.message in BookAfter(f, book, w, v, a)[a.i].missed
  {
  }

  lemma NoneMissedNext(f: Page, book: seq<Entry>, w: World, v: World, a: Action)
    requires Enabled(w, a) && |book| == |w.conns| == |v.conns| && NoneMissed(book)
    requires a.FromChromium? && Ignored(f, At(w, a.i), a.message) ==> Swallowed(f, At(v, a.i), a.message)
    ensures NoneMissed(BookAfter(f, book, w, v, a))
  {
    var after := BookAfter(f, book, w, v, a);
    forall i: nat | i < |after| ensures after[i].missed == {} {
      if a.Close? { assert book[if i < a.i then i else i + 1].missed == {}; }
      else if i < |book| { assert book[i].missed == {}; }
    }
  }

  /** v keeps up with w from `start` to k, as the book tells. */
  ghost predicate KeepsUp(f: Page, worlds: seq<World>, actions: seq<Action>, foreseen: seq<World>,
                          start: nat, k: nat, book: seq<Entry>, lost: set<TargetId>)
    requires k <= |actions| && k < |worlds| && k < |foreseen|
  {
    && WorldSim(f, book, lost, worlds[k], foreseen[k]) && AllUnattached(f, book)
    && (NoCloses(actions, start, k) ==> lost == {})
    && Tracks(f, worlds, actions, foreseen, start, k, book)
  }

  /** The run from `start` to k beside the one that foresees, one allowed action after another. */
  ghost predicate Beside(f: Page, worlds: seq<World>, actions: seq<Action>, start: nat, k: nat,
                         foreseen: seq<World>)
    requires start < |worlds| == |actions| + 1 == |foreseen| && k <= |actions|
  {
    if k <= start then
      k == start && Unseen(f, worlds[k]) && ProxyCounting.AllTidy(worlds[k].conns)
      && foreseen[k] == Foreseeing(f, worlds[k])
    else
      && Beside(f, worlds, actions, start, k - 1, foreseen)
      && Allowed(f, worlds[k - 1], actions[k - 1]) && worlds[k] == Next(worlds[k - 1], actions[k - 1])
      && (Enabled(foreseen[k - 1], actions[k - 1]) ==> foreseen[k] == Next(foreseen[k - 1], actions[k - 1]))
  }

  lemma BesideStarts(f: Page, worlds: seq<World>, actions: seq<Action>, targets: set<TargetId>, start: nat,
                     foreseen: seq<World>)
    requires IsRun(worlds, actions, targets) && start < |worlds| && Unseen(f, worlds[start])
    requires Foresees(f, worlds, actions, start, foreseen)
    ensures Beside(f, worlds, actions, start, start, foreseen)
  {
    ProxyCounting.PendingIsInFlight(worlds, actions, targets, start);
  }

  lemma {:induction false} BesideGoesOn(f: Page, worlds: seq<World>, actions: seq<Action>,
                                        targets: set<TargetId>, start: nat, k: nat, foreseen: seq<World>)
    requires IsRun(worlds, actions, targets) && Foresees(f, worlds, actions, start, foreseen)
    requires start <= k <= |actions| && AllowedBetween(f, worlds, actions, start, k)
    requires Beside(f, worlds, actions, start, start, foreseen)
    ensures Beside(f, worlds, actions, start, k, foreseen)
    decreases k
  {
    if start < k {
      BesideGoesOn(f, worlds, actions, targets, start, k - 1, foreseen);
      assert worlds[k] == Next(worlds[k - 1], actions[k - 1]);
    }
  }

  lemma {:induction false} BesideKeepsUp(f: Page, worlds: seq<World>, actions: seq<Action>, start: nat, k: nat,
                                         foreseen: seq<World>)
    returns (book: seq<Entry>, lost: set<TargetId>)
    requires start < |worlds| == |actions| + 1 == |foreseen| && start <= k <= |actions|
    requires Beside(f, worlds, actions, start, k, foreseen)
    ensures KeepsUp(f, worlds, actions, foreseen, start, k, book, lost)
    decreases k
  {
    if k == start {
      book := ForesightBegins(f, worlds[start]);
      lost := {};
    } else {
      var before, gone := BesideKeepsUp(f, worlds, actions, start, k - 1, foreseen);
      book, lost := KeepsUpNext(f, worlds, actions, foreseen, start, k - 1, before, gone);
    }
  }

  lemma KeepsUpNext(f: Page, worlds: seq<World>, actions: seq<Action>, foreseen: seq<World>, start: nat,
                    k: nat, book: seq<Entry>, lost: set<TargetId>)
    returns (after: seq<Entry>, gone: set<TargetId>)
    requires start <= k < |actions| && |worlds| == |actions| + 1 == |foreseen|
    requires KeepsUp(f, worlds, actions, foreseen, start, k, book, lost)
    requires Allowed(f, worlds[k], actions[k]) && worlds[k + 1] == Next(worlds[k], actions[k])
    requires Enabled(foreseen[k], actions[k]) ==> foreseen[k + 1] == Next(foreseen[k], actions[k])
    ensures KeepsUp(f, worlds, actions, foreseen, start, k + 1, after, gone)
  {
    var w, v, a := worlds[k], foreseen[k], actions[k];
    StepSim(f, book, lost, w, v, a);
    UnattachedAfter(f, book, w, v, a);
    NoClosesNext(actions, start, k);
    TracksNext(f, worlds, actions, foreseen, start, k, book);
    after, gone := BookAfter(f, book, w, v, a), LostAfter(f, book, lost, w, a);
  }

  /** At every point of a run on which the page is held, the session that foresees is alike. */
  lemma ForesightKeepsUp(f: Page, worlds: seq<World>, actions: seq<Action>, targets: set<TargetId>,
                         start: nat, k: nat, foreseen: seq<World>)
    returns (book: seq<Entry>, lost: set<TargetId>)
    requires IsRun(worlds, actions, targets) && start <= k < |worlds| && Unseen(f, worlds[start])
    requires AllowedBetween(f, worlds, actions, start, k) && Foresees(f, worlds, actions, start, foreseen)
    ensures KeepsUp(f, worlds, actions, foreseen, start, k, book, lost)
  {
    BesideStarts(f, worlds, actions, targets, start, foreseen);
    BesideGoesOn(f, worlds, actions, targets, start, k, foreseen);
    book, lost := BesideKeepsUp(f, worlds, actions, start, k, foreseen);
  }

  lemma RunGoesOn(worlds: seq<World>, actions: seq<Action>, targets: set<TargetId>, k: nat)
    requires IsRun(worlds, actions, targets) && k < |actions|
    ensures Enabled(worlds[k], actions[k]) && worlds[k + 1] == Next(worlds[k], actions[k])
  {
  }

  /** Over every run: take any point at which a creation is pending and the page is not yet seen,
      and let the page be held while commands, replies, connections and other messages go on, until
      the creation that owns it finishes. Then the session is as if the page had been known to be
      owned from that point on, outside the page: the same rest of the ownership and of every
      connection, and the same told to every client, in the same order. Unless a message of the page
      was lost, the page's part is the same as well; only a connection closed meanwhile leaves a
      difference then, in the children its hold entry would have added. */
  lemma HoldAndReplayIsForesight(f: Page, worlds: seq<World>, actions: seq<Action>,
                                 targets: set<TargetId>, start: nat, last: nat, foreseen: seq<World>)
    requires IsRun(worlds, actions, targets) && start <= last < |actions|
    requires Unseen(f, worlds[start]) && AllowedBetween(f, worlds, actions, start, last)
    requires Credits(f, worlds[last], actions[last])
    requires Foresees(f, worlds, actions, start, foreseen)
    ensures var w, v := worlds[last + 1], foreseen[last + 1];
      && AlikeOutside(f, w, v)
      && (NothingLost(f, worlds, actions, foreseen, start, last) ==>
            (exists missing :: Alike(f, missing, w, v)) && (NoCloses(actions, start, last) ==> Alike(f, {}, w, v)))
  {
    var book, lost := ForesightKeepsUp(f, worlds, actions, targets, start, last, foreseen);
    CreditedSettled(f, book, lost, worlds[last], foreseen[last], actions[last]);
    RunGoesOn(worlds, actions, targets, last);
    assert foreseen[last + 1] == Next(foreseen[last], actions[last]);
  }

  /** A lost message that is not held later either reached the foreseeing client and not the other:
      at the end it was told of it more often. */
  lemma LostIsMissing(f: Page, worlds: seq<World>, actions: seq<Action>, targets: set<TargetId>,
                      start: nat, last: nat, foreseen: seq<World>, j: nat)
    requires IsRun(worlds, actions, targets) && start <= last < |actions|
    requires Unseen(f, worlds[start]) && AllowedBetween(f, worlds, actions, start, last)
    requires Credits(f, worlds[last], actions[last]) && NoCloses(actions, start, last)
    requires Foresees(f, worlds, actions, start, foreseen)
    requires start <= j < last && LostAt(f, worlds, actions, foreseen, j)
    requires actions[j].i < |worlds[last].conns|
             ==> actions[j].message !in HeldMessages(f, worlds[last].conns[actions[j].i])
    ensures var w, v, i := worlds[last + 1], foreseen[last + 1], actions[j].i;
      i < |w.conns| && i < |v.conns|
      && Times(f, At(w, i), actions[j].message) < Times(f, At(v, i), actions[j].message)
  {
    var book, lost := ForesightKeepsUp(f, worlds, actions, targets, start, last, foreseen);
    CreditedSettled(f, book, lost, worlds[last], foreseen[last], actions[last]);
    RunGoesOn(worlds, actions, targets, last);
    assert foreseen[last + 1] == Next(foreseen[last], actions[last]);
    assert actions[j].message in book[actions[j].i].missed;
  }

  /** No message that is ignored is also held: each has its own payload, say. */
  ghost predicate LostStaysLost(f: Page, worlds: seq<World>, actions: seq<Action>, foreseen: seq<World>,
                                start: nat, last: nat)
    requires last < |worlds|
  {
    forall j: nat | start <= j < last && LostAt(f, worlds, actions, foreseen, j) ::
      actions[j].i < |worlds[last].conns|
      ==> actions[j].message !in HeldMessages(f, worlds[last].conns[actions[j].i])
  }

  /** While connections stay open, holding the page and replaying it is foresight exactly when no
      message of the page was lost. */
  lemma ForesightExactlyWhenNothingIsLost(f: Page, worlds: seq<World>, actions: seq<Action>,
                                          targets: set<TargetId>, start: nat, last: nat, foreseen: seq<World>)
    requires IsRun(worlds, actions, targets) && start <= last < |actions|
    requires Unseen(f, worlds[start]) && AllowedBetween(f, worlds, actions, start, last)
    requires Credits(f, worlds[last], actions[last]) && NoCloses(actions, start, last)
    requires Foresees(f, worlds, actions, start, foreseen)
    requires LostStaysLost(f, worlds, actions, foreseen, start, last)
    ensures Alike(f, {}, worlds[last + 1], foreseen[last + 1])
            <==> NothingLost(f, worlds, actions, foreseen, start, last)
  {
    HoldAndReplayIsForesight(f, worlds, actions, targets, start, last, foreseen);
    if !NothingLost(f, worlds, actions, foreseen, start, last) {
      var j: nat :| start <= j < last && LostAt(f, worlds, actions, foreseen, j);
      LostIsMissing(f, worlds, actions, targets, start, last, foreseen, j);
    }
  }

  /** What becomes of each message of the page while it is held: unless the connection knows what it
      concerns already, it is held, or it changes nothing and the session that foresees forwards it
      exactly when it does not swallow it. */
  lemma UnheldTrafficIsDropped(f: Page, worlds: seq<World>, actions: seq<Action>,
                               targets: set<TargetId>, start: nat, k: nat, foreseen: seq<World>)
    requires IsRun(worlds, actions, targets) && start <= k < |actions|
    requires Unseen(f, worlds[start]) && AllowedBetween(f, worlds, actions, start, k)
    requires Foresees(f, worlds, actions, start, foreseen)
    requires actions[k].FromChromium? && OfPage(f, actions[k].message)
    requires !KnownAlready(f, At(worlds[k], actions[k].i), actions[k].message)
    ensures var m, i, p, v := actions[k].message, actions[k].i, At(worlds[k], actions[k].i), foreseen[k];
      if Routed(f, p, m) then
        HeldMessages(f, worlds[k + 1].conns[i]) == HeldMessages(f, worlds[k].conns[i]) + [m]
      else
        && Allowed(f, worlds[k], actions[k]) && worlds[k + 1] == worlds[k] && i < |v.conns|
        && ToldInside(f, Handle(At(v, i), m).conn.client)
           == ToldInside(f, v.conns[i].client) + (if Swallowed(f, At(v, i), m) then [] else [Forwarded(m)])
  {
    var book, lost := ForesightKeepsUp(f, worlds, actions, targets, start, k, foreseen);
    RunGoesOn(worlds, actions, targets, k);
    var i, m := actions[k].i, actions[k].message;
    assert SimAt(f, book, worlds[k], foreseen[k], i) && NoneAttached(f, book[i].known);
    PageTraffic(f, book[i], At(worlds[k], i), At(foreseen[k], i), m);
    if !Routed(f, At(worlds[k], i), m) { assert worlds[k].conns[i := worlds[k].conns[i]] == worlds[k].conns; }
  }
}
