/** Every step that leaves another creation pending keeps the session that holds a page and the one
    that knows the page is owned alike. */
module ProxyWorldSteps {
  import opened Wrappers
  import opened ProxyModel
  import opened ProxyWorld
  import opened ProxyForesight
  import opened ProxyReplay
  import opened ProxyWorldSim

  // ---- connections settle, come and go ----

  lemma SettleSim(f: Page, e: Entry, p: Side, q: Side)
    requires Sim(f, e, p, q) && OwnSim(f, p.own, q.own)
    ensures Sim(f, e, SettleHeld(p), SettleHeld(q))
    ensures SameStanding(f, p, SettleHeld(p)) && SameStanding(f, q, SettleHeld(q))
    ensures OwnSim(f, SettleHeld(p).own, SettleHeld(q).own)
  {
    SimSettle(f, e, p, q);
    SettleEachTabs(f, e, p, q, p.conn.heldOrder);
    assert Outer(f, p).conn.heldOrder == Outer(f, q).conn.heldOrder;
    SettleSkips(f, q, q.conn.heldOrder);
    SimOwn(f, e, SettleHeld(p), SettleHeld(q));
  }

  lemma SettleStepSim(f: Page, book: seq<Entry>, lost: set<TargetId>, w: World, v: World, i: nat)
    requires WorldSim(f, book, lost, w, v) && i < |w.conns|
    ensures WorldSim(f, book, lost, Put(w, i, SettleHeld(At(w, i))), Put(v, i, SettleHeld(At(v, i))))
    ensures SettleHeld(At(w, i)).own.pending == w.own.pending
  {
    var p, q := At(w, i), At(v, i);
    assert SimAt(f, book, w, v, i);
    SettleSim(f, book[i], p, q);
    PutAlike(f, book, lost, w, v, i, SettleHeld(p), SettleHeld(q));
  }

  lemma SettleConnsNext(w: World, n: nat)
    requires 0 < n <= |w.conns|
    ensures var x := SettleConns(w, n - 1);
      SettleConns(w, n) == Put(x, n - 1, SettleHeld(At(x, n - 1)))
  {
  }

  lemma {:induction false} SettleConnsSim(f: Page, book: seq<Entry>, lost: set<TargetId>, w: World,
                                          v: World, n: nat)
    requires WorldSim(f, book, lost, w, v) && n <= |w.conns|
    ensures WorldSim(f, book, lost, SettleConns(w, n), SettleConns(v, n))
    ensures SettleConns(w, n).own.pending == w.own.pending
  {
    if n > 0 {
      SettleConnsSim(f, book, lost, w, v, n - 1);
      SettleStepSim(f, book, lost, SettleConns(w, n - 1), SettleConns(v, n - 1), n - 1);
      SettleConnsNext(w, n);
      SettleConnsNext(v, n);
    }
  }

  lemma {:induction false} WithoutHead(order: seq<TargetId>, t: TargetId)
    requires order != [] && order[0] != t
    ensures Without(order, t) == [order[0]] + Without(order[1..], t)
  {
    var front, last := order[..|order| - 1], order[|order| - 1];
    if front != [] {
      WithoutHead(front, t);
      assert order[1..] == front[1..] + [last] && order == front + [last];
      WithoutAppend(front[1..], last, t);
      WithoutAppend(front, last, t);
      HeadFirst(order[0], Without(front[1..], t), if last == t then [] else [last]);
    }
  }

  lemma HeadFirst(head: TargetId, rest: seq<TargetId>, more: seq<TargetId>)
    ensures ([head] + rest) + more == [head] + (rest + more)
  {
  }

  /** Another creation finished: it neither created the page nor adopts it as its tab. */
  predicate CreditElsewhere(f: Page, own: Ownership, created: Option<TargetId>) {
    created.Some? ==>
      created.value !in f.ids && (own.tabs != [] ==> own.tabs[0] != f.target)
  }

  lemma CreditTabs(f: Page, own: Ownership, own': Ownership)
    requires OwnSim(f, own, own') && own.tabs != [] && own.tabs[0] != f.target
    ensures own'.tabs != [] && own'.tabs[0] == own.tabs[0] && own.tabs[0] !in f.ids
    ensures Without(own.tabs[1..], f.target) == Without(own'.tabs[1..], f.target)
    ensures f.target !in own'.tabs[1..] && TabsElsewhere(f, own.tabs[1..])
  {
    WithoutAbsent(own'.tabs, f.target);
    WithoutHead(own.tabs, f.target);
    WithoutAbsent(own'.tabs[1..], f.target);
    assert own.tabs[0] in own.tabs;
  }

  lemma CreditSim(f: Page, own: Ownership, own': Ownership, created: Option<TargetId>)
    requires OwnSim(f, own, own') && own.pending > 1 && CreditElsewhere(f, own, created)
    ensures OwnSim(f, CreditCreation(own, created), CreditCreation(own', created))
    ensures CreditCreation(own, created).pages * f.ids == own.pages * f.ids
  {
    WithoutAbsent(own'.tabs, f.target);
    if created.Some? {
      if own.tabs != [] {
        CreditTabs(f, own, own');
        Added(f.ids, own.pages, own'.pages, {created.value, own.tabs[0]});
      } else {
        Added(f.ids, own.pages, own'.pages, {created.value});
      }
    }
  }

  /** The same ownership shared by the same connections. */
  lemma OwnedSim(f: Page, book: seq<Entry>, lost: set<TargetId>, w: World, v: World, own: Ownership,
                 own': Ownership)
    requires WorldSim(f, book, lost, w, v) && OwnSim(f, own, own')
    requires own.pages * f.ids == w.own.pages * f.ids
    requires own.children * f.ids == w.own.children * f.ids && own'.children * f.ids == v.own.children * f.ids
    ensures WorldSim(f, book, lost, w.(own := own), v.(own := own'))
  {
    forall i: nat | i < |w.conns| ensures SimAt(f, book, w.(own := own), v.(own := own'), i) {
      assert SimAt(f, book, w, v, i);
      SimShared(f, book[i], At(w, i), At(v, i), own, own');
    }
  }

  lemma FinishedElsewhere(f: Page, book: seq<Entry>, lost: set<TargetId>, w: World, v: World,
                          created: Option<TargetId>)
    requires WorldSim(f, book, lost, w, v) && w.own.pending > 1 && CreditElsewhere(f, w.own, created)
    ensures WorldSim(f, book, lost, CreationFinished(w, created), CreationFinished(v, created))
    ensures CreationFinished(w, created).own.pending == w.own.pending - 1
  {
    var own, own' := CreditCreation(w.own, created), CreditCreation(v.own, created);
    CreditSim(f, w.own, v.own, created);
    OwnedSim(f, book, lost, w, v, own, own');
    SettleConnsSim(f, book, lost, w.(own := own), v.(own := own'), |w.conns|);
  }

  lemma {:induction false} AbandonSim(f: Page, book: seq<Entry>, lost: set<TargetId>, w: World,
                                      v: World, n: nat)
    requires WorldSim(f, book, lost, w, v) && w.own.pending > n
    ensures WorldSim(f, book, lost, Abandon(w, n), Abandon(v, n))
    ensures Abandon(w, n).own.pending == w.own.pending - n
  {
    if n > 0 {
      AbandonSim(f, book, lost, w, v, n - 1);
      var x, y := Abandon(w, n - 1), Abandon(v, n - 1);
      FinishedElsewhere(f, book, lost, x, y, None);
      assert Abandon(w, n) == CreationFinished(x, None);
      assert Abandon(v, n) == CreationFinished(y, None);
    }
  }

  lemma SameInflight(f: Page, book: seq<Entry>, w: World, v: World, i: nat)
    requires ConnsSim(f, book, w, v) && i < |w.conns|
    ensures w.conns[i].inflight == v.conns[i].inflight && Creating(w.conns[i]) == Creating(v.conns[i])
  {
    assert SimAt(f, book, w, v, i);
    OuterFields(f, At(w, i));
    OuterFields(f, At(v, i));
  }

  lemma RemovedConns(f: Page, book: seq<Entry>, w: World, v: World, i: nat)
    requires ConnsSim(f, book, w, v) && i < |w.conns|
    ensures ConnsSim(f, book[..i] + book[i + 1..], Removed(w, i), Removed(v, i))
  {
    var ks, w', v' := book[..i] + book[i + 1..], Removed(w, i), Removed(v, i);
    forall j: nat | j < |w'.conns| ensures SimAt(f, ks, w', v', j) { RemovedAt(f, book, w, v, i, j); }
  }

  lemma RemovedAt(f: Page, book: seq<Entry>, w: World, v: World, i: nat, j: nat)
    requires ConnsSim(f, book, w, v) && i < |w.conns| && j < |w.conns| - 1
    ensures SimAt(f, book[..i] + book[i + 1..], Removed(w, i), Removed(v, i), j)
  {
    var k := if j < i then j else j + 1;
    WithoutOne(w.conns, i, j);
    WithoutOne(v.conns, i, j);
    WithoutOne(book, i, j);
    SimMoved(f, book, w, v, k, book[..i] + book[i + 1..], Removed(w, i), Removed(v, i), j);
  }

  lemma WithoutOne<T>(xs: seq<T>, i: nat, j: nat)
    requires i < |xs| && j < |xs| - 1
    ensures (xs[..i] + xs[i + 1..])[j] == xs[if j < i then j else j + 1]
  {
  }

  lemma SimMoved(f: Page, book: seq<Entry>, w: World, v: World, k: nat, book': seq<Entry>, w': World,
                 v': World, j: nat)
    requires ConnsSim(f, book, w, v) && k < |w.conns| && w'.own == w.own && v'.own == v.own
    requires j < |book'| && j < |w'.conns| && j < |v'.conns|
    requires book'[j] == book[k] && w'.conns[j] == w.conns[k] && v'.conns[j] == v.conns[k]
    ensures SimAt(f, book', w', v', j)
  {
    assert SimAt(f, book, w, v, k);
  }

  lemma RemovedSim(f: Page, book: seq<Entry>, lost: set<TargetId>, w: World, v: World, i: nat)
    requires WorldSim(f, book, lost, w, v) && i < |w.conns|
    ensures WorldSim(f, book[..i] + book[i + 1..],
                     lost + book[i].gains, Removed(w, i), Removed(v, i))
  {
    RemovedConns(f, book, w, v, i);
    GainedGone(book, i, |book| - 1);
    assert |book[..i] + book[i + 1..]| == |book| - 1;
  }

  lemma ClosedSim(f: Page, book: seq<Entry>, lost: set<TargetId>, w: World, v: World, i: nat)
    requires i < |w.conns| && i < |v.conns| && Creating(w.conns[i]) == Creating(v.conns[i])
    requires WorldSim(f, book, lost, Removed(w, i), Removed(v, i))
    requires w.own.pending > |Creating(w.conns[i])|
    ensures WorldSim(f, book, lost, Next(w, Close(i)), Next(v, Close(i)))
  {
    AbandonSim(f, book, lost, Removed(w, i), Removed(v, i), |Creating(w.conns[i])|);
  }

  lemma CloseSim(f: Page, book: seq<Entry>, lost: set<TargetId>, w: World, v: World, i: nat)
    requires WorldSim(f, book, lost, w, v) && i < |w.conns|
    requires w.own.pending > |Creating(w.conns[i])|
    ensures WorldSim(f, book[..i] + book[i + 1..],
                     lost + book[i].gains,
                     Next(w, Close(i)), Next(v, Close(i)))
  {
    RemovedSim(f, book, lost, w, v, i);
    SameInflight(f, book, w, v, i);
    ClosedSim(f, book[..i] + book[i + 1..],
              lost + book[i].gains, w, v, i);
  }

  lemma FreshUnjudged(f: Page, own: Ownership)
    requires f.Valid() && !own.Owns(f.target) && own.pending > 0
    ensures Start(f, Side(own, FRESH_CONNECTION))
  {
  }

  lemma OpenSim(f: Page, book: seq<Entry>, lost: set<TargetId>, w: World, v: World)
    requires WorldSim(f, book, lost, w, v)
    ensures WorldSim(f, book + [Entry(Known(f, Side(w.own, FRESH_CONNECTION)), {}, {})], lost, Next(w, Open), Next(v, Open))
  {
    var s := Side(w.own, FRESH_CONNECTION);
    var ks := book + [Entry(Known(f, s), {}, {})];
    var w', v' := Next(w, Open), Next(v, Open);
    FreshUnjudged(f, w.own);
    GrantedStart(f, s);
    SimShared(f, Entry(Known(f, s), {}, {}), s, Granted(f, s), w.own, v.own);
    forall j: nat | j < |w'.conns| ensures SimAt(f, ks, w', v', j) {
      if j < |w.conns| { assert SimAt(f, book, w, v, j); }
    }
    GainedAlike(ks, book, |book|);
  }

  lemma GrantOwn(f: Page, own: Ownership, own': Ownership, t: TargetId)
    requires OwnSim(f, own, own') && t !in f.ids
    ensures t in own.pages <==> t in own'.pages
    ensures OwnSim(f, own.(pages := own.pages + {t}), own'.(pages := own'.pages + {t}))
    ensures (own.pages + {t}) * f.ids == own.pages * f.ids
  {
    assert t in own.pages <==> t in OuterOwn(f, own).pages;
    assert t in own'.pages <==> t in OuterOwn(f, own').pages;
    Added(f.ids, own.pages, own'.pages, {t});
  }

  lemma GrantConn(f: Page, e: Entry, p: Side, q: Side, t: TargetId)
    requires Sim(f, e, p, q) && OwnSim(f, p.own, q.own) && t !in f.ids
    ensures var c, d := AttachGrantedTo(p.conn, t), AttachGrantedTo(q.conn, t);
      && Sim(f, e, Side(p.own.(pages := p.own.pages + {t}), c), Side(q.own.(pages := q.own.pages + {t}), d))
      && HeldMessages(f, c) == HeldMessages(f, p.conn)
  {
    var p', q' := p.(conn := AttachGrantedTo(p.conn, t)), q.(conn := AttachGrantedTo(q.conn, t));
    AttachedAlike(f, p, q, t);
    BesidesSim(f, e, p, q, p', q');
    GrantOwn(f, p.own, q.own, t);
    SimShared(f, e, p', q', p.own.(pages := p.own.pages + {t}), q.own.(pages := q.own.pages + {t}));
  }

  lemma GrantSim(f: Page, book: seq<Entry>, lost: set<TargetId>, w: World, v: World, t: TargetId)
    requires WorldSim(f, book, lost, w, v) && t !in f.ids
    ensures WorldSim(f, book, lost, Next(w, Grant(t)), Next(v, Grant(t)))
  {
    GrantOwn(f, w.own, v.own, t);
    if t !in w.own.pages {
      var w', v' := Next(w, Grant(t)), Next(v, Grant(t));
      forall i: nat | i < |w.conns|
        ensures SimAt(f, book, w', v', i)
        ensures HeldMessages(f, w'.conns[i]) == HeldMessages(f, w.conns[i])
      {
        assert SimAt(f, book, w, v, i);
        GrantConn(f, book[i], At(w, i), At(v, i), t);
      }
    }
  }

  lemma AttachedAlike(f: Page, p: Side, q: Side, t: TargetId)
    requires Outer(f, p) == Outer(f, q)
    ensures var p', q' := p.(conn := AttachGrantedTo(p.conn, t)), q.(conn := AttachGrantedTo(q.conn, t));
      Besides(f, p, p') && Besides(f, q, q') && Outer(f, p') == Outer(f, q')
  {
    OuterFields(f, p);
    OuterFields(f, q);
  }

  // ---- replies ----

  lemma TakenSim(f: Page, book: seq<Entry>, lost: set<TargetId>, w: World, v: World, i: nat, id: nat)
    requires WorldSim(f, book, lost, w, v) && i < |w.conns|
    ensures WorldSim(f, book, lost, Taken(w, i, id), Taken(v, i, id))
  {
    var p, q := At(w, i), At(v, i);
    assert SimAt(f, book, w, v, i);
    OuterFields(f, p);
    OuterFields(f, q);
    var p' := p.(conn := p.conn.(inflight := p.conn.inflight - {id}));
    var q' := q.(conn := q.conn.(inflight := q.conn.inflight - {id}));
    assert Outer(f, p') == Outer(f, q');
    BesidesSim(f, book[i], p, q, p', q');
    PutAlike(f, book, lost, w, v, i, p', q');
  }

  lemma AnswerSim(f: Page, book: seq<Entry>, lost: set<TargetId>, w: World, v: World, i: nat,
                  command: Inflight, answer: Option<Answer>)
    requires WorldSim(f, book, lost, w, v) && i < |w.conns| && AnswerElsewhere(f, answer)
    ensures WorldSim(f, book, lost, Put(w, i, AnswerClient(At(w, i), command, answer)),
                     Put(v, i, AnswerClient(At(v, i), command, answer)))
  {
    var p, q := At(w, i), At(v, i);
    assert SimAt(f, book, w, v, i);
    var p', q' := AnswerClient(p, command, answer), AnswerClient(q, command, answer);
    AnswerElsewhereSim(f, p, q, command, answer);
    BesidesSim(f, book[i], p, q, p', q');
    PutAlike(f, book, lost, w, v, i, p', q');
  }

  /** A reply that ends a creation elsewhere. */
  lemma CreatedSim(f: Page, book: seq<Entry>, lost: set<TargetId>, x: World, y: World, i: nat,
                   command: Inflight, answer: Option<Answer>)
    requires WorldSim(f, book, lost, x, y) && i < |x.conns| && AnswerElsewhere(f, answer)
    requires x.own.pending > 1 && CreditElsewhere(f, x.own, CreatedTarget(answer))
    ensures var x', y' := CreationFinished(x, CreatedTarget(answer)), CreationFinished(y, CreatedTarget(answer));
      i < |x'.conns| && i < |y'.conns|
      && WorldSim(f, book, lost, Put(x', i, AnswerClient(At(x', i), command, answer)),
                  Put(y', i, AnswerClient(At(y', i), command, answer)))
  {
    FinishedElsewhere(f, book, lost, x, y, CreatedTarget(answer));
    AnswerSim(f, book, lost, CreationFinished(x, CreatedTarget(answer)), CreationFinished(y, CreatedTarget(answer)),
              i, command, answer);
  }

  lemma ReplyWhen(w: World, i: nat, id: nat, answer: Option<Answer>)
    requires i < |w.conns| && id in w.conns[i].inflight
    ensures var command, x := w.conns[i].inflight[id], Taken(w, i, id);
      var y := if command.CreatesTarget() then CreationFinished(x, CreatedTarget(answer)) else x;
      i < |y.conns| && Next(w, Reply(i, id, answer)) == Put(y, i, AnswerClient(At(y, i), command, answer))
  {}

  lemma ReplySim(f: Page, book: seq<Entry>, lost: set<TargetId>, w: World, v: World, i: nat, id: nat,
                 answer: Option<Answer>)
    requires WorldSim(f, book, lost, w, v) && i < |w.conns| && AnswerElsewhere(f, answer)
    requires id in Creating(w.conns[i]) ==>
      w.own.pending > 1 && CreditElsewhere(f, w.own, CreatedTarget(answer))
    ensures WorldSim(f, book, lost, Next(w, Reply(i, id, answer)), Next(v, Reply(i, id, answer)))
  {
    SameInflight(f, book, w, v, i);
    if id in w.conns[i].inflight {
      var command := w.conns[i].inflight[id];
      TakenSim(f, book, lost, w, v, i, id);
      ReplyWhen(w, i, id, answer);
      ReplyWhen(v, i, id, answer);
      if command.CreatesTarget() {
        CreatedSim(f, book, lost, Taken(w, i, id), Taken(v, i, id), i, command, answer);
      } else {
        AnswerSim(f, book, lost, Taken(w, i, id), Taken(v, i, id), i, command, answer);
      }
    }
  }

  // ---- every step ----

  /** How many creations the action ends. */
  function Ended(w: World, a: Action): nat
    requires Enabled(w, a)
  {
    match a
    case Reply(i, id, _) => if id in Creating(w.conns[i]) then 1 else 0
    case Close(i) => |Creating(w.conns[i])|
    case NewFinished(_) => 1
    case _ => 0
  }

  /** An action that leaves a creation pending, and that names nothing of the page or is a message
      to be held for it. */
  ghost predicate Allowed(f: Page, w: World, a: Action) {
    && Enabled(w, a) && Ended(w, a) < w.own.pending
    && match a
       case FromChromium(i, m) => Expected(f, At(w, i), m)
       case Reply(i, id, answer) =>
         AnswerElsewhere(f, answer)
         && (id in Creating(w.conns[i]) ==> CreditElsewhere(f, w.own, CreatedTarget(answer)))
       case FromClient(_, _, session, _, params) => CommandElsewhere(f, session, params)
       case NewFinished(created) => CreditElsewhere(f, w.own, created)
       case Grant(t) => t !in f.ids
       case Open | Close(_) | NewStarted => true
  }

  lemma HttpSim(f: Page, book: seq<Entry>, lost: set<TargetId>, w: World, v: World, n: nat)
    requires WorldSim(f, book, lost, w, v)
    ensures WorldSim(f, book, lost, w.(http := n), v.(http := n))
  {
    forall i: nat | i < |w.conns| ensures SimAt(f, book, w.(http := n), v.(http := n), i) {
      assert SimAt(f, book, w, v, i);
    }
  }

  lemma StartedSim(f: Page, book: seq<Entry>, lost: set<TargetId>, w: World, v: World)
    requires WorldSim(f, book, lost, w, v)
    ensures WorldSim(f, book, lost, Next(w, NewStarted), Next(v, NewStarted))
  {
    var own, own' := CreationStarted(w.own), CreationStarted(v.own);
    OwnedSim(f, book, lost, w, v, own, own');
    HttpSim(f, book, lost, w.(own := own), v.(own := own'), w.http + 1);
  }

  lemma NewFinishedSim(f: Page, book: seq<Entry>, lost: set<TargetId>, w: World, v: World,
                       created: Option<TargetId>)
    requires WorldSim(f, book, lost, w, v) && w.http > 0
    requires w.own.pending > 1 && CreditElsewhere(f, w.own, created)
    ensures WorldSim(f, book, lost, Next(w, NewFinished(created)), Next(v, NewFinished(created)))
  {
    HttpSim(f, book, lost, w, v, w.http - 1);
    FinishedElsewhere(f, book, lost, w.(http := w.http - 1), v.(http := v.http - 1), created);
  }

  /** The book after the action: a connection opens or closes, or its hold entry grows. */
  ghost function BookAfter(f: Page, book: seq<Entry>, w: World, v: World, a: Action): seq<Entry>
    requires Enabled(w, a) && |book| == |w.conns| == |v.conns|
  {
    match a
    case FromChromium(i, m) => book[i := EntryAfter(f, book[i], At(w, i), At(v, i), m)]
    case Open => book + [Entry(Known(f, Side(w.own, FRESH_CONNECTION)), {}, {})]
    case Close(i) => book[..i] + book[i + 1..]
    case _ => book
  }

  ghost function LostAfter(f: Page, book: seq<Entry>, lost: set<TargetId>, w: World, a: Action): set<TargetId>
    requires Enabled(w, a) && |book| == |w.conns|
  {
    if a.Close? then lost + book[a.i].gains else lost
  }

  lemma StepSim(f: Page, book: seq<Entry>, lost: set<TargetId>, w: World, v: World, a: Action)
    requires WorldSim(f, book, lost, w, v) && Allowed(f, w, a)
    ensures Enabled(v, a)
    ensures WorldSim(f, BookAfter(f, book, w, v, a), LostAfter(f, book, lost, w, a), Next(w, a), Next(v, a))
  {
    match a
    case Open => OpenSim(f, book, lost, w, v);
    case FromChromium(i, m) => MessageSim(f, book, lost, w, v, i, m);
    case Reply(i, id, answer) => ReplySim(f, book, lost, w, v, i, id, answer);
    case FromClient(_, _, _, _, _) => CommandSim(f, book, lost, w, v, a);
    case Close(i) => CloseSim(f, book, lost, w, v, i);
    case NewStarted => StartedSim(f, book, lost, w, v);
    case NewFinished(created) => NewFinishedSim(f, book, lost, w, v, created);
    case Grant(t) => GrantSim(f, book, lost, w, v, t);
  }
}
