/** What the lease manager promises at every step and over whole runs. */
module LeaseRuns {
  import opened Wrappers
  import opened ControlLeases
  import opened LeaseSteps

  ghost predicate Path(s: State, actions: seq<Action>)
    decreases |actions|, 0
  {
    actions != [] ==>
      && Path(s, actions[..|actions| - 1])
      && Enabled(After(s, actions[..|actions| - 1]), actions[|actions| - 1])
  }

  ghost function After(s: State, actions: seq<Action>): State
    requires Path(s, actions)
    decreases |actions|, 1
  {
    if actions == [] then s else Next(After(s, actions[..|actions| - 1]), actions[|actions| - 1])
  }

  ghost predicate Reachable(s: State) {
    exists actions :: Path(INITIAL, actions) && After(INITIAL, actions) == s
  }

  lemma {:induction false} PathKeeps(s: State, actions: seq<Action>)
    requires Agrees(s) && Path(s, actions)
    ensures Agrees(After(s, actions))
  {
    if actions != [] {
      PathKeeps(s, actions[..|actions| - 1]);
      StepKeeps(After(s, actions[..|actions| - 1]), actions[|actions| - 1]);
    }
  }

  lemma InitialAgrees()
    ensures Agrees(INITIAL)
  {
    forall key ensures Queue(INITIAL, key) == [] && Unanswered(INITIAL, key) == {} {}
  }

  lemma ReachableAgrees(s: State)
    requires Reachable(s)
    ensures Agrees(s)
  {
    var actions :| Path(INITIAL, actions) && After(INITIAL, actions) == s;
    InitialAgrees();
    PathKeeps(INITIAL, actions);
  }

  /** A lane never has two unreleased leases, expired or revoked ones included. */
  lemma OneLeasePerLane(s: State, a: Token, b: Token)
    requires Reachable(s) && a in s.leases && b in s.leases && s.leases[a].key == s.leases[b].key
    requires !s.leases[a].released && !s.leases[b].released
    ensures a == b
  {
    ReachableAgrees(s);
  }

  // ---- waking the waiting calls ----

  /** An agent's call names the owner's lane while the owner holds it. */
  ghost predicate CallsOwnersLane(s: State, a: Action, key: Key) {
    && a.AgentCalls? && a.lane == OWNER_LANE && a.profile.Proper() && key == LaneKey(a.profile, OWNER_LANE)
    && key in s.active && s.active[key] in s.leases && s.leases[s.active[key]].actor == Owner
  }

  /** Some call of the path does. */
  ghost predicate OwnersLaneCalled(s: State, actions: seq<Action>, key: Key)
    requires Path(s, actions)
  {
    actions != [] &&
      (OwnersLaneCalled(s, actions[..|actions| - 1], key)
       || CallsOwnersLane(After(s, actions[..|actions| - 1]), actions[|actions| - 1], key))
  }

  /** A call waits for a lane, and no agent that holds it will pass it on. */
  ghost predicate Stranded(s: State, key: Key) {
    && Queue(s, key) != []
    && !(key in s.active && s.active[key] in s.leases && s.leases[s.active[key]].actor == Agent)
  }

  lemma ReleaseStrands(s: State, token: Token, key: Key)
    requires Agrees(s) && !s.disposed && Stranded(Release(s, token), key)
    ensures Stranded(s, key)
  {
    if token in s.leases && !s.leases[token].released {
      ReleaseShape(s, token);
      var own, queue := s.leases[token].key, Queue(s, s.leases[token].key);
      if queue != [] { QueueOf(s, own, queue[1..], key); }
    }
  }

  lemma StepStrands(s: State, a: Action, key: Key)
    requires Agrees(s) && Enabled(s, a) && Stranded(Next(s, a), key)
    ensures Stranded(s, key) || CallsOwnersLane(s, a, key)
  {
    match a
    case AgentCalls(p, purpose, lane) =>
      var own := LaneKey(p, lane);
      if !s.disposed && own in s.active {
        QueueOf(s, own, Queue(s, own) + [Waiter(s.nextWaiter, purpose)], key);
        if key == own && s.leases[s.active[own]].actor == Owner { OwnerLaneIsItsOwn(p, lane); }
      }
    case Releases(token) =>
      if s.disposed { DisposedHasNothingToRelease(s, token); } else { ReleaseStrands(s, token, key); }
    case GivesUp(own, id, _) => QueueOf(s, own, WithoutWaiter(Queue(s, own), id), key);
    case Revokes(_, keys) => RevokeKeysEffect(s, keys);
    case Disposes(keys) => DisposeKeeps(s, keys);
    case _ =>
  }

  lemma OwnerLaneIsItsOwn(p: Profile, lane: string)
    requires p.Proper() && OwnerKey(LaneKey(p, lane))
    ensures lane == OWNER_LANE
  {
    var q: Profile :| q.Proper() && LaneKey(p, lane) == LaneKey(q, OWNER_LANE);
    LanesAreSeparate(p, lane, q, OWNER_LANE);
  }

  lemma {:induction false} StrandedWasCalled(actions: seq<Action>, key: Key)
    requires Path(INITIAL, actions) && Stranded(After(INITIAL, actions), key)
    ensures OwnersLaneCalled(INITIAL, actions, key)
  {
    if actions != [] {
      var front, last := actions[..|actions| - 1], actions[|actions| - 1];
      InitialAgrees();
      PathKeeps(INITIAL, front);
      StepStrands(After(INITIAL, front), last, key);
      if Stranded(After(INITIAL, front), key) { StrandedWasCalled(front, key); }
    }
  }

  /** While a call waits for a lane, an agent holds it and has not released it, in every run in which
      no agent's call named the owner's lane while the owner held it. */
  lemma NoLostWakeUp(actions: seq<Action>, key: Key)
    requires Path(INITIAL, actions) && Queue(After(INITIAL, actions), key) != []
    requires !OwnersLaneCalled(INITIAL, actions, key)
    ensures var s := After(INITIAL, actions);
            && key in s.active && s.active[key] in s.leases
            && s.leases[s.active[key]].key == key && s.leases[s.active[key]].actor == Agent
            && !s.leases[s.active[key]].released
  {
    InitialAgrees();
    PathKeeps(INITIAL, actions);
    if Stranded(After(INITIAL, actions), key) { StrandedWasCalled(actions, key); }
  }

  /** Such a call is enough: wherever the owner holds its lane, an agent's call that names it waits on
      after the owner's release, although the lane is free. */
  lemma OwnersLaneLosesWakeUps(s: State, p: Profile, purpose: string)
    requires Reachable(s) && !s.disposed && p.Proper()
    requires var key := LaneKey(p, OWNER_LANE);
             key in s.active && s.active[key] in s.leases && s.leases[s.active[key]].actor == Owner
    ensures var key, called := LaneKey(p, OWNER_LANE), AcquireAgent(s, p, purpose, OWNER_LANE);
            var u := Release(called, s.active[key]);
            && CallsOwnersLane(s, AgentCalls(p, purpose, OWNER_LANE), key) && Reachable(u)
            && s.nextWaiter in Ids(Queue(u, key)) && key !in u.active
  {
    var key, a := LaneKey(p, OWNER_LANE), AgentCalls(p, purpose, OWNER_LANE);
    ReachableAgrees(s);
    ReachableNext(s, a);
    var called := Next(s, a);
    ReachableAgrees(called);
    ReachableNext(called, Releases(s.active[key]));
    QueueOf(s, key, Queue(s, key) + [Waiter(s.nextWaiter, purpose)], key);
    ReleaseShape(called, s.active[key]);
    assert Queue(called, key)[|Queue(s, key)|].id == s.nextWaiter;
  }

  lemma ReachableNext(s: State, a: Action)
    requires Reachable(s) && Enabled(s, a)
    ensures Reachable(Next(s, a))
  {
    var actions :| Path(INITIAL, actions) && After(INITIAL, actions) == s;
    var more := actions + [a];
    assert more[..|more| - 1] == actions;
    assert Path(INITIAL, more) && After(INITIAL, more) == Next(s, a);
  }

  /** The lane of an agent's session: the tab it names, or its thread's own. */
  function AgentLane(tab: Option<string>, thread: string): string {
    if tab.Some? then "tab:" + tab.value else "thread:" + thread
  }

  /** Every agent's call names a session's lane. */
  ghost predicate CallsFromSessions(actions: seq<Action>) {
    forall i | 0 <= i < |actions| && actions[i].AgentCalls? ::
      exists tab, thread :: actions[i].lane == AgentLane(tab, thread)
  }

  lemma {:induction false} SessionsSpareTheOwnersLane(actions: seq<Action>, key: Key)
    requires Path(INITIAL, actions) && CallsFromSessions(actions)
    ensures !OwnersLaneCalled(INITIAL, actions, key)
  {
    if actions != [] {
      var front, last := actions[..|actions| - 1], actions[|actions| - 1];
      assert forall i | 0 <= i < |front| :: front[i] == actions[i];
      SessionsSpareTheOwnersLane(front, key);
      if last.AgentCalls? {
        var tab, thread :| last.lane == AgentLane(tab, thread);
        assert last.lane[0] != OWNER_LANE[0];
      }
    }
  }

  /** Agents' sessions lose no wake-up: a call that waits for a lane waits for an agent that holds it. */
  lemma SessionsLoseNoWakeUp(actions: seq<Action>, key: Key)
    requires Path(INITIAL, actions) && CallsFromSessions(actions)
    requires Queue(After(INITIAL, actions), key) != []
    ensures var s := After(INITIAL, actions);
            key in s.active && s.active[key] in s.leases && s.leases[s.active[key]].actor == Agent
            && !s.leases[s.active[key]].released
  {
    SessionsSpareTheOwnersLane(actions, key);
    NoLostWakeUp(actions, key);
  }

  /** Releasing an unreleased lease always frees its lane, never finding a stale token there, and
      passes the lane on exactly when a call waits for it and an agent released it; no other lane
      changes hands. */
  lemma ReleaseFreesItsLane(s: State, token: Token)
    requires Reachable(s) && token in s.leases && !s.leases[token].released
    ensures var key, u := s.leases[token].key, Release(s, token);
            && key in s.active && s.active[key] == token
            && u.leases[token].released && u.active - {key} == s.active - {key}
            && (key in u.active <==> Queue(s, key) != [] && s.leases[token].actor == Agent)
            && (key in u.active ==> u.active[key] == s.nextToken && !u.leases[u.active[key]].released)
  {
    ReachableAgrees(s);
    FreedLane(s, token);
  }

  lemma FreedLane(s: State, token: Token)
    requires LanesAgree(s) && token in s.leases && !s.leases[token].released && !s.disposed
    ensures var key, u := s.leases[token].key, Release(s, token);
            && u.leases[token].released && u.active - {key} == s.active - {key}
            && (key in u.active <==> Queue(s, key) != [] && s.leases[token].actor == Agent)
            && (key in u.active ==> u.active[key] == s.nextToken && !u.leases[u.active[key]].released)
  {}

  /** An agent that releases a lane somebody waits for grants it at once to the call that came first;
      an owner grants it to nobody. */
  lemma ReleaseWakesTheFirst(s: State, token: Token)
    requires Reachable(s) && token in s.leases && !s.leases[token].released && !s.disposed
    requires Queue(s, s.leases[token].key) != []
    ensures var key, u := s.leases[token].key, Release(s, token);
            var first := Queue(s, key)[0].id;
            if s.leases[token].actor == Agent then
              && first in u.settled && u.settled[first].Granted?
              && key in u.active && u.active[key] == u.settled[first].token
              && Queue(u, key) == Queue(s, key)[1..]
            else key !in u.active && Queue(u, key) == Queue(s, key) && u.settled == s.settled
  {
    ReachableAgrees(s);
    ReleaseShape(s, token);
    QueueOf(s, s.leases[token].key, Queue(s, s.leases[token].key)[1..], s.leases[token].key);
  }

  /** Every call that ever queued either still waits or has its one answer. */
  lemma WaitsOrIsAnswered(s: State, id: WaiterId)
    requires Reachable(s) && id in s.lanes
    ensures id in s.settled <==> id !in Ids(Queue(s, s.lanes[id]))
    ensures forall key | id in Ids(Queue(s, key)) :: key == s.lanes[id]
  {
    ReachableAgrees(s);
    assert Ids(Queue(s, s.lanes[id])) == Unanswered(s, s.lanes[id]);
    forall key | id in Ids(Queue(s, key)) ensures key == s.lanes[id] {
      assert Ids(Queue(s, key)) == Unanswered(s, key);
    }
  }

  // ---- answers are final ----

  /** The answers given so far stand, and calls keep their lanes. */
  ghost predicate Extends(s: State, u: State) {
    && s.settled.Keys <= u.settled.Keys && (forall id | id in s.settled :: u.settled[id] == s.settled[id])
    && s.lanes.Keys <= u.lanes.Keys && (forall id | id in s.lanes :: u.lanes[id] == s.lanes[id])
    && (forall id | id in u.lanes && id !in s.lanes :: id >= s.nextWaiter) && s.nextWaiter <= u.nextWaiter
  }

  lemma RejectExtends(s: State, key: Key, outcome: Outcome)
    requires QueuesAgree(s)
    ensures Extends(s, RejectPending(s, key, outcome))
  {
    assert Ids(Queue(s, key)) == Unanswered(s, key);
  }

  lemma {:induction false} RevokeKeysExtends(s: State, keys: seq<Key>)
    requires Agrees(s)
    ensures Extends(s, RevokeKeys(s, keys))
  {
    if keys != [] {
      var before := RevokeKeys(s, keys[..|keys| - 1]);
      RevokeKeysExtends(s, keys[..|keys| - 1]);
      RevokeKeysKeep(s, keys[..|keys| - 1]);
      RejectExtends(before, keys[|keys| - 1], WasRevoked);
    }
  }

  lemma {:induction false} DisposeKeysExtends(s: State, keys: seq<Key>)
    requires AgreesButDisposed(s)
    ensures Extends(s, DisposeKeys(s, keys))
  {
    if keys != [] {
      var before, key := DisposeKeys(s, keys[..|keys| - 1]), keys[|keys| - 1];
      DisposeKeysExtends(s, keys[..|keys| - 1]);
      DisposeKeysKeep(s, keys[..|keys| - 1]);
      RejectExtends(before, key, ShutDown);
      DisposeAnswersAsReject(before, key);
    }
  }

  lemma DisposeAnswersAsReject(s: State, key: Key)
    requires s.disposed
    ensures var u, r := DisposeKey(s, key), RejectPending(s, key, ShutDown);
            u.settled == r.settled && u.lanes == r.lanes && u.nextWaiter == r.nextWaiter
  {
    var r := RejectPending(s, key, ShutDown);
    if key in s.active { DisposedReleaseAnswersNobody(Abort(r, s.active[key]), s.active[key]); }
  }

  lemma DisposedReleaseAnswersNobody(s: State, token: Token)
    requires s.disposed
    ensures var u := Release(s, token);
            u.settled == s.settled && u.lanes == s.lanes && u.nextWaiter == s.nextWaiter
  {}

  lemma DisposeExtends(s: State, keys: seq<Key>)
    requires Agrees(s)
    ensures Extends(s, DisposeKeys(s.(disposed := true), keys))
  {
    SameCalls(s, s.(disposed := true));
    DisposeKeysExtends(s.(disposed := true), keys);
  }

  lemma ReleaseExtends(s: State, token: Token)
    requires Agrees(s)
    ensures Extends(s, Release(s, token))
  {
    if s.disposed {
      DisposedHasNothingToRelease(s, token);
    } else if token in s.leases && !s.leases[token].released {
      ReleaseShape(s, token);
      var queue := Queue(s, s.leases[token].key);
      if queue != [] {
        assert queue[0].id in Ids(queue);
        assert Ids(queue) == Unanswered(s, s.leases[token].key);
      }
    }
  }

  lemma StepExtends(s: State, a: Action)
    requires Agrees(s) && Enabled(s, a)
    ensures Extends(s, Next(s, a))
  {
    match a
    case Releases(token) => ReleaseExtends(s, token);
    case GivesUp(key, id, _) => assert Ids(Queue(s, key)) == Unanswered(s, key);
    case Revokes(_, keys) => RevokeKeysExtends(s, keys);
    case Disposes(keys) => DisposeExtends(s, keys);
    case _ =>
  }

  /** An answer is never taken back or given twice. */
  lemma {:induction false} AnswersAreFinal(s: State, actions: seq<Action>)
    requires Agrees(s) && Path(s, actions)
    ensures Extends(s, After(s, actions))
  {
    if actions != [] {
      AnswersAreFinal(s, actions[..|actions| - 1]);
      PathKeeps(s, actions[..|actions| - 1]);
      StepExtends(After(s, actions[..|actions| - 1]), actions[|actions| - 1]);
    }
  }

  /** Calls on one lane that are granted are granted in the order they arrived. */
  lemma GrantsFollowArrival(s: State, actions: seq<Action>, a: WaiterId, b: WaiterId)
    requires Reachable(s) && Path(s, actions)
    requires a in s.settled && a in s.lanes && s.settled[a].Granted?
    requires var u := After(s, actions);
             b !in s.settled && b in u.settled && b in u.lanes && u.settled[b].Granted? && u.lanes[b] == s.lanes[a]
    ensures a < b
  {
    ReachableAgrees(s);
    AnswersAreFinal(s, actions);
  }

  // ---- releasing and revoking ----

  /** A release frees at most the lease it was called on, and a second one does nothing. */
  lemma ReleaseIsPrivate(s: State, token: Token, other: Token)
    requires Reachable(s) && other in s.leases && other != token
    ensures other in Release(s, token).leases && Release(s, token).leases[other] == s.leases[other]
    ensures token in s.leases && s.leases[token].released ==> Release(s, token) == s
    ensures Release(Release(s, token), token) == Release(s, token)
  {
    ReachableAgrees(s);
    if s.disposed {
      DisposedHasNothingToRelease(s, token);
    } else if token in s.leases && !s.leases[token].released {
      ReleaseShape(s, token);
    }
  }

  /** The queues of some lanes are emptied and their leases aborted; all else is as before. */
  ghost predicate RevokedOn(s: State, u: State, keys: seq<Key>) {
    && u.active == s.active && u.leases.Keys == s.leases.Keys
    && (forall k :: Queue(u, k) == if k in keys then [] else Queue(s, k))
    && (forall t | t in s.leases :: u.leases[t] ==
          if s.leases[t].key in keys && !s.leases[t].released then s.leases[t].(aborted := true)
          else s.leases[t])
  }

  lemma RevokeKeyEffect(s: State, key: Key)
    requires LanesAgree(s)
    ensures RevokedOn(s, RevokeKey(s, key), [key])
  {
    var u := RevokeKey(s, key);
    forall k ensures Queue(u, k) == if k in [key] then [] else Queue(s, k) {}
  }

  lemma RevokedBoth(s: State, mid: State, u: State, front: seq<Key>, key: Key)
    requires RevokedOn(s, mid, front) && RevokedOn(mid, u, [key])
    ensures RevokedOn(s, u, front + [key])
  {
    var keys := front + [key];
    assert forall k :: k in keys <==> k in front || k in [key];
    forall t | t in s.leases
      ensures u.leases[t] == if s.leases[t].key in keys && !s.leases[t].released
                             then s.leases[t].(aborted := true) else s.leases[t] {
      assert t in mid.leases;
    }
  }

  lemma {:induction false} RevokeKeysEffect(s: State, keys: seq<Key>)
    requires Agrees(s)
    ensures RevokedOn(s, RevokeKeys(s, keys), keys)
  {
    if keys != [] {
      var front, key := keys[..|keys| - 1], keys[|keys| - 1];
      RevokeKeysEffect(s, front);
      RevokeKeysKeep(s, front);
      RevokeKeyEffect(RevokeKeys(s, front), key);
      RevokedBoth(s, RevokeKeys(s, front), RevokeKeys(s, keys), front, key);
      assert keys == front + [key];
    }
  }

  /** Revoking a profile rejects every call waiting on its lanes and aborts its leases, which stay
      held until released, and touches no lane of any other profile. */
  lemma RevokeStaysInTheProfile(s: State, p: Profile, keys: seq<Key>, q: Profile, lane: string, token: Token)
    requires Reachable(s) && p.Proper() && q.Proper() && Visits(s, OfProfile(p), keys)
    requires token in s.leases && s.leases[token].key == LaneKey(q, lane)
    ensures var u := RevokeKeys(s, keys);
            && u.active == s.active && token in u.leases
            && Queue(u, LaneKey(q, lane)) == (if q == p then [] else Queue(s, LaneKey(q, lane)))
            && u.leases[token] == if q == p && !s.leases[token].released
                                  then s.leases[token].(aborted := true) else s.leases[token]
  {
    ReachableAgrees(s);
    RevokeKeysEffect(s, keys);
    LanesAreSeparate(q, lane, p, lane);
    var key := LaneKey(q, lane);
    assert key in keys <==> (key in s.active || key in s.waiting) && q == p;
  }

  /** Revoking the agents of a profile leaves its owner's lane alone. */
  lemma RevokeAgentsSparesTheOwner(s: State, p: Profile, keys: seq<Key>)
    requires Reachable(s) && p.Proper() && Visits(s, AgentsOf(p), keys)
    ensures var u, key := RevokeKeys(s, keys), LaneKey(p, OWNER_LANE);
            Queue(u, key) == Queue(s, key)
            && forall t | t in s.leases && s.leases[t].key == key :: t in u.leases && u.leases[t] == s.leases[t]
  {
    ReachableAgrees(s);
    RevokeKeysEffect(s, keys);
    assert LaneKey(p, OWNER_LANE) !in keys;
  }

  /** After disposal nothing is held and nobody waits, and every lease has been aborted. */
  lemma DisposalEndsEverything(s: State, keys: seq<Key>, key: Key)
    requires Reachable(s) && Visits(s, All, keys)
    ensures var u := DisposeKeys(s.(disposed := true), keys);
            key !in u.active && Queue(u, key) == [] && Unanswered(u, key) == {}
            && forall t | t in u.leases :: u.leases[t].released
  {
    ReachableAgrees(s);
    DisposeKeeps(s, keys);
    var u := DisposeKeys(s.(disposed := true), keys);
    assert Ids(Queue(u, key)) == Unanswered(u, key);
  }
}
