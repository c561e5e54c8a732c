/** Every step of the lease manager keeps the lanes, the queues and the settlements in agreement. */
module LeaseSteps {
  import opened Wrappers
  import opened ControlLeases

  lemma QueueOf(s: State, key: Key, queue: seq<Waiter>, k: Key)
    ensures Queue(WithQueue(s, key, queue), k) == if k == key then queue else Queue(s, k)
  {}

  /** One lane's queue shrinks, and the calls that left it are answered. */
  ghost predicate Answered(s: State, u: State, key: Key, queue: seq<Waiter>, answers: map<WaiterId, Outcome>) {
    && u.waiting == WithQueue(s, key, queue).waiting && u.lanes == s.lanes && u.nextWaiter == s.nextWaiter
    && u.settled == s.settled + answers
    && InOrder(queue) && answers.Keys <= Ids(Queue(s, key)) && Ids(queue) == Ids(Queue(s, key)) - answers.Keys
  }

  lemma AnsweredQueues(s: State, u: State, key: Key, queue: seq<Waiter>, answers: map<WaiterId, Outcome>)
    requires QueuesAgree(s) && Answered(s, u, key, queue, answers)
    requires forall k | k in s.active && (k != key || queue != []) :: k in u.active
    ensures QueuesAgree(u)
  {
    forall k
      ensures Queue(u, k) == if k == key then queue else Queue(s, k)
      ensures Ids(Queue(u, k)) == Unanswered(u, k)
    {
      QueueOf(s, key, queue, k);
      assert Ids(Queue(s, k)) == Unanswered(s, k) && Ids(Queue(s, key)) == Unanswered(s, key);
    }
    if queue != [] { assert queue[0].id in Ids(queue); }
  }

  lemma AnsweredCalls(s: State, u: State, key: Key, queue: seq<Waiter>, answers: map<WaiterId, Outcome>)
    requires QueuesAgree(s) && CallsAgree(s) && Answered(s, u, key, queue, answers)
    ensures CallsAgree(u)
  {
    assert Ids(Queue(s, key)) == Unanswered(s, key);
  }

  /** Only the first of a queue may be granted. */
  lemma AnsweredGrants(s: State, u: State, key: Key, queue: seq<Waiter>, answers: map<WaiterId, Outcome>)
    requires QueuesAgree(s) && GrantsAgree(s) && Answered(s, u, key, queue, answers)
    requires forall id | id in answers && answers[id].Granted? ::
               Queue(s, key) != [] && id == Queue(s, key)[0].id
    ensures GrantsAgree(u)
  {
    assert Ids(Queue(s, key)) == Unanswered(s, key) && InOrder(Queue(s, key));
    forall a, b | a in u.settled && a in u.lanes && u.settled[a].Granted?
                  && b in u.lanes && b !in u.settled && u.lanes[a] == u.lanes[b]
      ensures a < b
    {
      if a in answers { assert b in Unanswered(s, key); }
    }
  }

  // ---- leases ----

  /** The queues and their calls are as before. */
  lemma SameCalls(s: State, u: State)
    requires QueuesAgree(s) && CallsAgree(s) && GrantsAgree(s)
    requires u.waiting == s.waiting && u.lanes == s.lanes && u.settled == s.settled && u.nextWaiter == s.nextWaiter
    requires forall k | Queue(s, k) != [] && !OwnerKey(k) :: k in u.active
    ensures QueuesAgree(u) && CallsAgree(u) && GrantsAgree(u)
  {
    forall k ensures Queue(u, k) == Queue(s, k) && Unanswered(u, k) == Unanswered(s, k) {}
  }

  lemma NewLeaseKeeps(s: State, key: Key, actor: Actor, purpose: Option<string>)
    requires LanesAgree(s) && key !in s.active && (actor == Owner ==> OwnerKey(key))
    ensures LanesAgree(NewLease(s, key, actor, purpose))
  {}

  lemma AbortKeeps(s: State, token: Token)
    requires Agrees(s)
    ensures Agrees(Abort(s, token))
  {
    SameCalls(s, Abort(s, token));
    AbortKeepsLanes(s, token);
  }

  lemma AbortKeepsLanes(s: State, token: Token)
    requires LanesAgree(s)
    ensures LanesAgree(Abort(s, token))
  {}

  lemma FreeKeeps(s: State, token: Token)
    requires LanesAgree(s) && token in s.leases && !s.leases[token].released
    ensures LanesAgree(s.(leases := s.leases[token := s.leases[token].(released := true)],
                          active := s.active - {s.leases[token].key}))
  {}

  lemma PopAnswers(s: State, u: State, key: Key, token: Token)
    requires QueuesAgree(s) && Queue(s, key) != []
    requires u.waiting == WithQueue(s, key, Queue(s, key)[1..]).waiting && u.nextWaiter == s.nextWaiter
    requires u.settled == s.settled[Queue(s, key)[0].id := Granted(token)] && u.lanes == s.lanes
    ensures Answered(s, u, key, Queue(s, key)[1..], map[Queue(s, key)[0].id := Granted(token)])
  {
    var queue := Queue(s, key);
    assert InOrder(queue);
    var rest := queue[1..];
    assert forall i | 0 <= i < |rest| :: rest[i] == queue[i + 1];
    forall id | id in Ids(queue) && id != queue[0].id ensures id in Ids(rest) {
      var i :| 0 <= i < |queue| && queue[i].id == id;
      assert rest[i - 1].id == id;
    }
  }

  /** What a release leaves: the lane free, or, when an agent released it, granted to the call that
      came first. */
  lemma ReleaseShape(s: State, token: Token)
    requires LanesAgree(s) && QueuesAgree(s) && token in s.leases && !s.leases[token].released && !s.disposed
    ensures var key, u := s.leases[token].key, Release(s, token);
            if Queue(s, key) == [] || s.leases[token].actor == Owner then
              u == s.(leases := s.leases[token := s.leases[token].(released := true)], active := s.active - {key})
            else
              && u.waiting == WithQueue(s, key, Queue(s, key)[1..]).waiting
              && u.settled == s.settled[Queue(s, key)[0].id := Granted(s.nextToken)] && u.lanes == s.lanes
              && u.active == s.active[key := s.nextToken] && u.nextWaiter == s.nextWaiter
              && u.leases == s.leases[token := s.leases[token].(released := true)]
                                     [s.nextToken := Lease(key, Agent, Some(Queue(s, key)[0].purpose), false, false)]
              && u.nextToken == s.nextToken + 1 && u.disposed == s.disposed
  {
    var key := s.leases[token].key;
    if Queue(s, key) != [] && s.leases[token].actor == Agent {
      var freed := s.(leases := s.leases[token := s.leases[token].(released := true)], active := s.active - {key});
      assert Queue(freed, key) == Queue(s, key);
      assert (s.active - {key})[key := s.nextToken] == s.active[key := s.nextToken];
    } else {
      var freed := s.(leases := s.leases[token := s.leases[token].(released := true)], active := s.active - {key});
      assert Queue(freed, key) == Queue(s, key);
    }
  }

  lemma ReleaseKeepsLanes(s: State, token: Token)
    requires LanesAgree(s) && QueuesAgree(s) && !s.disposed
    ensures LanesAgree(Release(s, token))
  {
    if token in s.leases && !s.leases[token].released {
      ReleaseShape(s, token);
      FreeKeeps(s, token);
      var key := s.leases[token].key;
      if Queue(s, key) != [] && s.leases[token].actor == Agent {
        var freed := s.(leases := s.leases[token := s.leases[token].(released := true)], active := s.active - {key});
        NewLeaseKeeps(freed, key, Agent, Some(Queue(s, key)[0].purpose));
        assert (s.active - {key})[key := s.nextToken] == s.active[key := s.nextToken];
      }
    }
  }

  lemma ReleaseKeeps(s: State, token: Token)
    requires Agrees(s) && !s.disposed
    ensures Agrees(Release(s, token))
  {
    ReleaseKeepsLanes(s, token);
    if token in s.leases && !s.leases[token].released {
      ReleaseShape(s, token);
      var key, u := s.leases[token].key, Release(s, token);
      if Queue(s, key) == [] || s.leases[token].actor == Owner {
        SameCalls(s, u);
      } else {
        var answers := map[Queue(s, key)[0].id := Granted(s.nextToken)];
        PopAnswers(s, u, key, s.nextToken);
        AnsweredQueues(s, u, key, Queue(s, key)[1..], answers);
        AnsweredCalls(s, u, key, Queue(s, key)[1..], answers);
        AnsweredGrants(s, u, key, Queue(s, key)[1..], answers);
      }
    }
  }

  /** Late and repeated releases of a disposed manager, which has no lease left, change nothing. */
  lemma DisposedHasNothingToRelease(s: State, token: Token)
    requires Agrees(s) && s.disposed
    ensures Release(s, token) == s
  {}

  // ---- calls ----

  lemma EnqueueKeeps(s: State, key: Key, purpose: string)
    requires Agrees(s) && key in s.active && !s.disposed
    ensures Agrees(Enqueue(s, key, purpose))
  {
    var queue := Queue(s, key) + [Waiter(s.nextWaiter, purpose)];
    var u := Enqueue(s, key, purpose);
    EnqueuedIds(s, key, purpose);
    forall k
      ensures Queue(u, k) == if k == key then queue else Queue(s, k)
      ensures Ids(Queue(u, k)) == Unanswered(u, k)
    {
      QueueOf(s, key, queue, k);
      EnqueuedUnanswered(s, key, purpose, k);
    }
    assert QueuesAgree(u);
    EnqueuedGrants(s, key, purpose);
  }

  lemma EnqueuedUnanswered(s: State, key: Key, purpose: string, k: Key)
    requires QueuesAgree(s) && CallsAgree(s)
    ensures Ids(Queue(s, k)) == Unanswered(s, k)
    ensures Unanswered(Enqueue(s, key, purpose), k) == Unanswered(s, k) + if k == key then {s.nextWaiter} else {}
  {
    assert s.nextWaiter !in s.lanes && s.nextWaiter !in s.settled;
  }

  lemma EnqueuedGrants(s: State, key: Key, purpose: string)
    requires CallsAgree(s) && GrantsAgree(s)
    ensures CallsAgree(Enqueue(s, key, purpose)) && GrantsAgree(Enqueue(s, key, purpose))
  {}

  lemma EnqueuedIds(s: State, key: Key, purpose: string)
    requires QueuesAgree(s) && CallsAgree(s)
    ensures var queue := Queue(s, key) + [Waiter(s.nextWaiter, purpose)];
            InOrder(queue) && Ids(queue) == Ids(Queue(s, key)) + {s.nextWaiter}
  {
    var was, queue := Queue(s, key), Queue(s, key) + [Waiter(s.nextWaiter, purpose)];
    assert Ids(was) == Unanswered(s, key) && InOrder(was);
    forall i | 0 <= i < |was| ensures queue[i].id < s.nextWaiter { assert was[i].id in Ids(was); }
    forall id | id in Ids(was) + {s.nextWaiter} ensures id in Ids(queue) {
      if id == s.nextWaiter { assert queue[|was|].id == id; }
      else {
        var i :| 0 <= i < |was| && was[i].id == id;
        assert queue[i].id == id;
      }
    }
  }

  lemma AgentKeeps(s: State, p: Profile, purpose: string, lane: string)
    requires Agrees(s) && p.Proper()
    ensures Agrees(AcquireAgent(s, p, purpose, lane))
  {
    var key := LaneKey(p, lane);
    if !s.disposed {
      if key in s.active {
        EnqueueKeeps(s, key, purpose);
      } else {
        NewLeaseKeeps(s, key, Agent, Some(purpose));
        SameCalls(s, NewLease(s, key, Agent, Some(purpose)));
      }
    }
  }

  lemma OwnerKeeps(s: State, p: Profile)
    requires Agrees(s) && p.Proper()
    ensures Agrees(AcquireOwner(s, p))
  {
    var key := LaneKey(p, OWNER_LANE);
    if !s.disposed && key !in s.active {
      NewLeaseKeeps(s, key, Owner, None);
      SameCalls(s, NewLease(s, key, Owner, None));
    }
  }

  lemma {:induction false} WithoutWaiterIs(queue: seq<Waiter>, id: WaiterId)
    requires InOrder(queue)
    ensures Ids(WithoutWaiter(queue, id)) == Ids(queue) - {id} && InOrder(WithoutWaiter(queue, id))
  {
    if queue != [] {
      var tail, rest := queue[1..], WithoutWaiter(queue[1..], id);
      assert forall i | 0 <= i < |tail| :: tail[i] == queue[i + 1];
      WithoutWaiterIs(tail, id);
      IdsOfCons(queue[0], tail);
      assert queue == [queue[0]] + tail;
      forall i | 0 <= i < |tail| ensures queue[0].id < tail[i].id {}
      if queue[0].id == id {
        assert WithoutWaiter(queue, id) == rest && id !in Ids(tail);
      } else {
        InOrderCons(queue[0], tail, rest);
      }
    }
  }

  lemma InOrderCons(x: Waiter, tail: seq<Waiter>, rest: seq<Waiter>)
    requires InOrder(rest) && Ids(rest) <= Ids(tail) && forall i | 0 <= i < |tail| :: x.id < tail[i].id
    ensures InOrder([x] + rest) && Ids([x] + rest) == {x.id} + Ids(rest)
  {
    IdsOfCons(x, rest);
    forall j | 0 <= j < |rest| ensures x.id < rest[j].id { assert rest[j].id in Ids(rest); }
  }

  lemma IdsOfCons(x: Waiter, queue: seq<Waiter>)
    ensures Ids([x] + queue) == {x.id} + Ids(queue)
  {
    forall id | id in {x.id} + Ids(queue) ensures id in Ids([x] + queue) {
      if id == x.id { assert ([x] + queue)[0].id == id; }
      else {
        var i :| 0 <= i < |queue| && queue[i].id == id;
        assert ([x] + queue)[i + 1].id == id;
      }
    }
  }

  lemma AnsweredKeeps(s: State, u: State, key: Key, queue: seq<Waiter>, answers: map<WaiterId, Outcome>)
    requires QueuesAgree(s) && CallsAgree(s) && GrantsAgree(s) && Answered(s, u, key, queue, answers)
    requires u.active == s.active && forall id | id in answers :: !answers[id].Granted?
    ensures QueuesAgree(u) && CallsAgree(u) && GrantsAgree(u)
  {
    AnsweredQueues(s, u, key, queue, answers);
    AnsweredCalls(s, u, key, queue, answers);
    AnsweredGrants(s, u, key, queue, answers);
  }

  lemma GiveUpKeeps(s: State, key: Key, id: WaiterId, outcome: Outcome)
    requires Agrees(s) && !outcome.Granted?
    ensures Agrees(GiveUp(s, key, id, outcome))
  {
    if id in Ids(Queue(s, key)) {
      GivingUpAnswers(s, key, id, outcome);
      AnsweredKeeps(s, GiveUp(s, key, id, outcome), key, WithoutWaiter(Queue(s, key), id), map[id := outcome]);
    }
  }

  lemma GivingUpAnswers(s: State, key: Key, id: WaiterId, outcome: Outcome)
    requires QueuesAgree(s) && id in Ids(Queue(s, key))
    ensures Answered(s, GiveUp(s, key, id, outcome), key, WithoutWaiter(Queue(s, key), id), map[id := outcome])
  {
    assert InOrder(Queue(s, key));
    WithoutWaiterIs(Queue(s, key), id);
  }

  lemma RejectKeeps(s: State, key: Key, outcome: Outcome)
    requires QueuesAgree(s) && CallsAgree(s) && GrantsAgree(s) && !outcome.Granted?
    ensures var u := RejectPending(s, key, outcome);
            QueuesAgree(u) && CallsAgree(u) && GrantsAgree(u) && Queue(u, key) == []
  {
    AnsweredKeeps(s, RejectPending(s, key, outcome), key, [], map id | id in Ids(Queue(s, key)) :: outcome);
  }

  lemma RevokeKeyKeeps(s: State, key: Key)
    requires Agrees(s)
    ensures Agrees(RevokeKey(s, key))
  {
    RejectKeeps(s, key, WasRevoked);
    var u := RejectPending(s, key, WasRevoked);
    if key in u.active { AbortKeeps(u, u.active[key]); }
  }

  lemma {:induction false} RevokeKeysKeep(s: State, keys: seq<Key>)
    requires Agrees(s)
    ensures Agrees(RevokeKeys(s, keys))
  {
    if keys != [] {
      RevokeKeysKeep(s, keys[..|keys| - 1]);
      RevokeKeyKeeps(RevokeKeys(s, keys[..|keys| - 1]), keys[|keys| - 1]);
    }
  }

  // ---- disposal ----

  ghost predicate AgreesButDisposed(s: State) {
    LanesAgree(s) && QueuesAgree(s) && CallsAgree(s) && GrantsAgree(s) && s.disposed
  }

  lemma DisposeKeyKeeps(s: State, key: Key)
    requires AgreesButDisposed(s)
    ensures var u := DisposeKey(s, key);
            AgreesButDisposed(u) && u.active == s.active - {key} && u.waiting == s.waiting - {key}
  {
    var u := RejectPending(s, key, ShutDown);
    RejectKeeps(s, key, ShutDown);
    if key in s.active {
      var token := s.active[key];
      var aborted := Abort(u, token);
      AbortKeepsLanes(u, token);
      FreeKeeps(aborted, token);
      var released := Release(aborted, token);
      SameCalls(u, released);
    } else {
      assert s.active - {key} == s.active;
    }
  }

  /** From s to u those lanes were emptied. */
  ghost predicate Emptied(s: State, u: State, keys: seq<Key>) {
    && (forall k | k in u.active :: k in s.active && k !in keys)
    && (forall k | k in u.waiting :: k in s.waiting && k !in keys)
  }

  lemma EmptiedNext(s: State, u: State, v: State, keys: seq<Key>, key: Key)
    requires Emptied(s, u, keys) && v.active.Keys <= u.active.Keys - {key}
    requires v.waiting.Keys <= u.waiting.Keys - {key}
    ensures Emptied(s, v, keys + [key])
  {}

  lemma {:induction false} DisposeKeysKeep(s: State, keys: seq<Key>)
    requires AgreesButDisposed(s)
    ensures AgreesButDisposed(DisposeKeys(s, keys)) && Emptied(s, DisposeKeys(s, keys), keys)
  {
    if keys != [] {
      var front, last := keys[..|keys| - 1], keys[|keys| - 1];
      DisposeKeysKeep(s, front);
      DisposeKeyKeeps(DisposeKeys(s, front), last);
      EmptiedNext(s, DisposeKeys(s, front), DisposeKeys(s, keys), front, last);
      assert keys == front + [last];
    }
  }

  /** Disposal releases every lease and settles every waiting call. */
  lemma DisposeKeeps(s: State, keys: seq<Key>)
    requires Agrees(s) && Visits(s, All, keys)
    ensures Agrees(DisposeKeys(s.(disposed := true), keys))
    ensures DisposeKeys(s.(disposed := true), keys).disposed
  {
    var start := s.(disposed := true);
    SameCalls(s, start);
    DisposeKeysKeep(start, keys);
    var u := DisposeKeys(start, keys);
    assert u.active.Keys == {} && u.waiting.Keys == {};
  }

  /** Every step keeps the agreement. */
  lemma StepKeeps(s: State, a: Action)
    requires Agrees(s) && Enabled(s, a)
    ensures Agrees(Next(s, a))
  {
    match a
    case AgentCalls(p, purpose, lane) => AgentKeeps(s, p, purpose, lane);
    case OwnerTries(p) => OwnerKeeps(s, p);
    case Releases(token) =>
      if s.disposed { DisposedHasNothingToRelease(s, token); } else { ReleaseKeeps(s, token); }
    case Expires(token) => AbortKeeps(s, token);
    case GivesUp(key, id, cancelled) => GiveUpKeeps(s, key, id, if cancelled then Cancelled else TimedOut);
    case Revokes(_, keys) => RevokeKeysKeep(s, keys);
    case Disposes(keys) => DisposeKeeps(s, keys);
  }
}
