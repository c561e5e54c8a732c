/** The lease manager with its maps changed in place. */
module LeaseManager {
  import opened Wrappers
  import opened ControlLeases
  import opened LeaseSteps

  /** An agent's call is refused, holds the lane, or waits for it. */
  datatype Acquired = Holds(token: Token) | WaitsAs(id: WaiterId) | Busy

  class Manager {
    var leases: map<Token, Lease>
    var active: map<Key, Token>
    var waiting: map<Key, seq<Waiter>>
    var disposed: bool
    var lanes: map<WaiterId, Key>
    var settled: map<WaiterId, Outcome>
    var nextToken: Token
    var nextWaiter: WaiterId

    function Model(): State
      reads this
    {
      State(leases, active, waiting, disposed, lanes, settled, nextToken, nextWaiter)
    }

    ghost predicate Valid()
      reads this
    {
      Agrees(Model())
    }

    constructor ()
      ensures Valid() && Model() == INITIAL
    {
      leases, active, waiting, disposed := map[], map[], map[], false;
      lanes, settled, nextToken, nextWaiter := map[], map[], 0, 0;
      new;
      forall key ensures Queue(INITIAL, key) == [] && Unanswered(INITIAL, key) == {} {}
    }

    method CreateActiveLease(key: Key, actor: Actor, purpose: Option<string>) returns (token: Token)
      modifies this`leases, this`active, this`nextToken
      ensures token == old(nextToken) && Model() == NewLease(old(Model()), key, actor, purpose)
    {
      token := nextToken;
      leases := leases[token := Lease(key, actor, purpose, false, false)];
      active := active[key := token];
      nextToken := nextToken + 1;
    }

    method SetQueue(key: Key, queue: seq<Waiter>)
      modifies this`waiting
      ensures Model() == WithQueue(old(Model()), key, queue)
    {
      if queue == [] { waiting := waiting - {key}; } else { waiting := waiting[key := queue]; }
    }

    method GrantNext(key: Key)
      modifies this
      ensures Model() == ControlLeases.GrantNext(old(Model()), key)
    {
      if key in active { return; }
      var queue := Queue(Model(), key);
      if queue == [] { return; }
      var next := queue[0];
      SetQueue(key, queue[1..]);
      var token := CreateActiveLease(key, Agent, Some(next.purpose));
      settled := settled[next.id := Granted(token)];
    }

    method ReleaseNow(token: Token)
      modifies this
      ensures Model() == ControlLeases.Release(old(Model()), token)
    {
      if token !in leases || leases[token].released { return; }
      var lease := leases[token];
      leases := leases[token := lease.(released := true)];
      if lease.key !in active || active[lease.key] != token { return; }
      active := active - {lease.key};
      if lease.actor == Agent && !disposed { GrantNext(lease.key); }
    }

    method Release(token: Token)
      requires Valid()
      modifies this
      ensures Valid() && Model() == ControlLeases.Release(old(Model()), token)
    {
      if disposed { DisposedHasNothingToRelease(Model(), token); } else { ReleaseKeeps(Model(), token); }
      ReleaseNow(token);
    }

    method EnqueueAgent(key: Key, purpose: string) returns (id: WaiterId)
      modifies this`waiting, this`lanes, this`nextWaiter
      ensures id == old(nextWaiter) && Model() == Enqueue(old(Model()), key, purpose)
    {
      id := nextWaiter;
      SetQueue(key, Queue(Model(), key) + [Waiter(id, purpose)]);
      lanes := lanes[id := key];
      nextWaiter := id + 1;
    }

    method AcquireAgent(p: Profile, purpose: string, lane: string, cancelled: bool) returns (r: Acquired)
      requires Valid()
      modifies this
      ensures p.Proper() ==> Valid()
      ensures Model() == if cancelled then old(Model())
                         else ControlLeases.AcquireAgent(old(Model()), p, purpose, lane)
      ensures r.Busy? <==> old(disposed) || cancelled
      ensures r.Holds? ==> LaneKey(p, lane) in active && active[LaneKey(p, lane)] == r.token
      ensures r.WaitsAs? ==> r.id == old(nextWaiter) && r.id in lanes && lanes[r.id] == LaneKey(p, lane)
    {
      if p.Proper() { AgentKeeps(Model(), p, purpose, lane); }
      if disposed || cancelled { return Busy; }
      var key := LaneKey(p, lane);
      if key in active {
        var id := EnqueueAgent(key, purpose);
        r := WaitsAs(id);
      } else {
        var token := CreateActiveLease(key, Agent, Some(purpose));
        r := Holds(token);
      }
    }

    /** One round of the owner's waiting loop: the lease, or None while somebody holds the lane. */
    method AcquireOwner(p: Profile, cancelled: bool) returns (r: Result<Option<Token>, Outcome>)
      requires Valid()
      modifies this
      ensures p.Proper() ==> Valid()
      ensures Model() == if cancelled then old(Model()) else ControlLeases.AcquireOwner(old(Model()), p)
      ensures r.Err? <==> old(disposed) || cancelled
      ensures r.Ok? && r.value.Some? ==>
                LaneKey(p, OWNER_LANE) !in old(active) && LaneKey(p, OWNER_LANE) in active
                && active[LaneKey(p, OWNER_LANE)] == r.value.value
    {
      if p.Proper() { OwnerKeeps(Model(), p); }
      if disposed { return Err(ShutDown); }
      if cancelled { return Err(Cancelled); }
      var key := LaneKey(p, OWNER_LANE);
      if key in active { return Ok(None); }
      var token := CreateActiveLease(key, Owner, None);
      return Ok(Some(token));
    }

    method GiveUp(key: Key, id: WaiterId, outcome: Outcome)
      requires Valid() && !outcome.Granted?
      modifies this
      ensures Valid() && Model() == ControlLeases.GiveUp(old(Model()), key, id, outcome)
    {
      GiveUpKeeps(Model(), key, id, outcome);
      var queue := Queue(Model(), key);
      if id !in Ids(queue) { return; }
      SetQueue(key, WithoutWaiter(queue, id));
      settled := settled[id := outcome];
    }

    method RejectPending(key: Key, outcome: Outcome)
      modifies this`waiting, this`settled
      ensures Model() == ControlLeases.RejectPending(old(Model()), key, outcome)
    {
      var queue := Queue(Model(), key);
      waiting := waiting - {key};
      settled := settled + map id | id in Ids(queue) :: outcome;
    }

    method AbortLease(token: Token)
      modifies this`leases
      ensures Model() == Abort(old(Model()), token)
    {
      if token in leases { leases := leases[token := leases[token].(aborted := true)]; }
    }

    method RevokeKey(key: Key)
      modifies this
      ensures Model() == ControlLeases.RevokeKey(old(Model()), key)
    {
      RejectPending(key, WasRevoked);
      if key in active { AbortLease(active[key]); }
    }

    /** The lanes a revocation or disposal visits. */
    method Visited(scope: Scope) returns (keys: seq<Key>)
      ensures Visits(Model(), scope, keys)
    {
      keys := [];
      var rest := set k | k in active.Keys + waiting.Keys && InScope(k, scope);
      ghost var all := rest;
      while rest != {}
        invariant forall k :: k in keys || k in rest <==> k in all
        invariant forall k | k in keys :: k !in rest
        invariant forall i, j | 0 <= i < j < |keys| :: keys[i] != keys[j]
      {
        var k :| k in rest;
        rest := rest - {k};
        keys := keys + [k];
      }
    }

    method Revoke(scope: Scope) returns (ghost keys: seq<Key>)
      requires Valid()
      modifies this
      ensures Valid() && Visits(old(Model()), scope, keys) && Model() == RevokeKeys(old(Model()), keys)
    {
      var visited := Visited(scope);
      RevokeKeysKeep(Model(), visited);
      for i := 0 to |visited|
        invariant Model() == RevokeKeys(old(Model()), visited[..i])
      {
        assert visited[..i + 1][..i] == visited[..i];
        RevokeKey(visited[i]);
      }
      assert visited[..|visited|] == visited;
      keys := visited;
    }

    method Dispose() returns (ghost keys: seq<Key>)
      requires Valid()
      modifies this
      ensures Valid() && Visits(old(Model()), All, keys)
      ensures Model() == DisposeKeys(old(Model()).(disposed := true), keys)
    {
      var visited := Visited(All);
      DisposeKeeps(Model(), visited);
      ghost var start := Model().(disposed := true);
      disposed := true;
      for i := 0 to |visited|
        invariant Model() == DisposeKeys(start, visited[..i])
      {
        assert visited[..i + 1][..i] == visited[..i];
        RejectPending(visited[i], ShutDown);
        if visited[i] in active {
          var token := active[visited[i]];
          AbortLease(token);
          ReleaseNow(token);
        }
      }
      assert visited[..|visited|] == visited;
      keys := visited;
    }
  }
}
