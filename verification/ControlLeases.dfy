/** Control leases (src/browser/control-lease.ts): one lane per owner or agent session on a profile,
    each held by at most one lease, with agents queueing in arrival order. */
module ControlLeases {
  import opened Wrappers
  import opened Keys

  type Key = string
  type Token = nat
  type WaiterId = nat

  const OWNER_LANE := "\U{01}owner"

  datatype Profile = Profile(host: string, name: string)
  {
    predicate Proper() { NulFree(host) && NulFree(name) }
    function Key(): string { Join(host, name) }
  }

  function LaneKey(p: Profile, lane: string): Key {
    Join(p.Key(), lane)
  }

  predicate StartsWith(s: string, prefix: string) {
    |prefix| <= |s| && s[..|prefix|] == prefix
  }

  predicate BelongsTo(key: Key, p: Profile) {
    StartsWith(key, p.Key() + [NUL])
  }

  predicate OnHost(key: Key, host: string) {
    StartsWith(key, host + [NUL])
  }

  datatype Actor = Owner | Agent

  /** Every lease ever made; `aborted` is its signal. */
  datatype Lease = Lease(key: Key, actor: Actor, purpose: Option<string>, aborted: bool, released: bool)

  datatype Waiter = Waiter(id: WaiterId, purpose: string)

  datatype Outcome = Granted(token: Token) | TimedOut | Cancelled | WasRevoked | ShutDown

  /** `lanes` is the lane each call ever queued for, and `settled` how its wait ended. */
  datatype State = State(leases: map<Token, Lease>, active: map<Key, Token>,
                         waiting: map<Key, seq<Waiter>>, disposed: bool, lanes: map<WaiterId, Key>,
                         settled: map<WaiterId, Outcome>, nextToken: Token, nextWaiter: WaiterId)

  const INITIAL := State(map[], map[], map[], false, map[], map[], 0, 0)

  // ---- operations ----

  function NewLease(s: State, key: Key, actor: Actor, purpose: Option<string>): State {
    s.(leases := s.leases[s.nextToken := Lease(key, actor, purpose, false, false)],
       active := s.active[key := s.nextToken], nextToken := s.nextToken + 1)
  }

  function Queue(s: State, key: Key): seq<Waiter> {
    if key in s.waiting then s.waiting[key] else []
  }

  /** An empty queue is not kept. */
  function WithQueue(s: State, key: Key, queue: seq<Waiter>): State {
    s.(waiting := if queue == [] then s.waiting - {key} else s.waiting[key := queue])
  }

  function GrantNext(s: State, key: Key): State {
    if key in s.active || Queue(s, key) == [] then s
    else
      var next := Queue(s, key)[0];
      NewLease(WithQueue(s, key, Queue(s, key)[1..]), key, Agent, Some(next.purpose))
      .(settled := s.settled[next.id := Granted(s.nextToken)])
  }

  function Release(s: State, token: Token): State {
    if token !in s.leases || s.leases[token].released then s
    else
      var lease := s.leases[token];
      var flagged := s.(leases := s.leases[token := lease.(released := true)]);
      if lease.key !in s.active || s.active[lease.key] != token then flagged
      else
        var freed := flagged.(active := s.active - {lease.key});
        if lease.actor == Agent && !s.disposed then GrantNext(freed, lease.key) else freed
  }

  function Enqueue(s: State, key: Key, purpose: string): State {
    WithQueue(s, key, Queue(s, key) + [Waiter(s.nextWaiter, purpose)])
    .(lanes := s.lanes[s.nextWaiter := key], nextWaiter := s.nextWaiter + 1)
  }

  function AcquireAgent(s: State, p: Profile, purpose: string, lane: string): State {
    var key := LaneKey(p, lane);
    if s.disposed then s
    else if key in s.active then
      Enqueue(s, key, purpose)
    else NewLease(s, key, Agent, Some(purpose))
  }

  /** One try of a waiting owner: it takes the lane when it is free. */
  function AcquireOwner(s: State, p: Profile): State {
    var key := LaneKey(p, OWNER_LANE);
    if s.disposed || key in s.active then s else NewLease(s, key, Owner, None)
  }

  function Abort(s: State, token: Token): State {
    if token in s.leases then s.(leases := s.leases[token := s.leases[token].(aborted := true)]) else s
  }

  function WithoutWaiter(queue: seq<Waiter>, id: WaiterId): seq<Waiter> {
    if queue == [] then []
    else (if queue[0].id == id then [] else [queue[0]]) + WithoutWaiter(queue[1..], id)
  }

  function Ids(queue: seq<Waiter>): set<WaiterId> {
    set i | 0 <= i < |queue| :: queue[i].id
  }

  /** A waiting call times out or is cancelled. */
  function GiveUp(s: State, key: Key, id: WaiterId, outcome: Outcome): State {
    if id !in Ids(Queue(s, key)) then s
    else WithQueue(s, key, WithoutWaiter(Queue(s, key), id)).(settled := s.settled[id := outcome])
  }

  function RejectPending(s: State, key: Key, outcome: Outcome): State {
    s.(waiting := s.waiting - {key},
       settled := s.settled + map id | id in Ids(Queue(s, key)) :: outcome)
  }

  function RevokeKey(s: State, key: Key): State {
    var rejected := RejectPending(s, key, WasRevoked);
    if key in s.active then Abort(rejected, s.active[key]) else rejected
  }

  function RevokeKeys(s: State, keys: seq<Key>): State {
    if keys == [] then s else RevokeKey(RevokeKeys(s, keys[..|keys| - 1]), keys[|keys| - 1])
  }

  function DisposeKey(s: State, key: Key): State {
    var rejected := RejectPending(s, key, ShutDown);
    if key in s.active then Release(Abort(rejected, s.active[key]), s.active[key]) else rejected
  }

  function DisposeKeys(s: State, keys: seq<Key>): State {
    if keys == [] then s else DisposeKey(DisposeKeys(s, keys[..|keys| - 1]), keys[|keys| - 1])
  }

  // ---- steps ----

  datatype Scope = OfProfile(profile: Profile) | AgentsOf(profile: Profile) | OfHost(host: string) | All

  predicate InScope(key: Key, scope: Scope) {
    match scope
    case OfProfile(p) => BelongsTo(key, p)
    case AgentsOf(p) => BelongsTo(key, p) && key != LaneKey(p, OWNER_LANE)
    case OfHost(host) => OnHost(key, host)
    case All => true
  }

  datatype Action =
    | AgentCalls(profile: Profile, purpose: string, lane: string)
    | OwnerTries(profile: Profile)
    | Releases(token: Token)
    | Expires(token: Token)
    | GivesUp(key: Key, id: WaiterId, cancelled: bool)
    | Revokes(scope: Scope, keys: seq<Key>)  // the keys in scope, in the order of the maps
    | Disposes(keys: seq<Key>)

  /** The keys the loops visit: every lane in scope that is held or waited for, once. */
  ghost predicate Visits(s: State, scope: Scope, keys: seq<Key>) {
    && (forall k :: k in keys <==> (k in s.active || k in s.waiting) && InScope(k, scope))
    && forall i, j | 0 <= i < j < |keys| :: keys[i] != keys[j]
  }

  ghost predicate Enabled(s: State, a: Action) {
    match a
    case AgentCalls(p, _, _) => p.Proper()
    case OwnerTries(p) => p.Proper()
    case Expires(token) => token in s.leases && s.leases[token].actor == Agent && !s.leases[token].released
    case Revokes(scope, keys) => Visits(s, scope, keys)
    case Disposes(keys) => Visits(s, All, keys)
    case _ => true
  }

  ghost function Next(s: State, a: Action): State
    requires Enabled(s, a)
  {
    match a
    case AgentCalls(p, purpose, lane) => AcquireAgent(s, p, purpose, lane)
    case OwnerTries(p) => AcquireOwner(s, p)
    case Releases(token) => Release(s, token)
    case Expires(token) => Abort(s, token)
    case GivesUp(key, id, cancelled) => GiveUp(s, key, id, if cancelled then Cancelled else TimedOut)
    case Revokes(_, keys) => RevokeKeys(s, keys)
    case Disposes(keys) => DisposeKeys(s.(disposed := true), keys)
  }

  // ---- keys ----

  lemma PrefixSplits(a: string, b: string, c: string)
    requires NulFree(a) && NulFree(c)
    ensures StartsWith(Join(a, b), c + [NUL]) <==> a == c
  {
    JoinAt(a, b);
    if StartsWith(Join(a, b), c + [NUL]) {
      assert Join(a, b)[..|c| + 1] == c + [NUL];
      var rest := Join(a, b)[|c| + 1..];
      assert Join(a, b) == Join(c, rest);
      JoinIsInjective(a, b, c, rest);
    }
  }

  lemma LaneKeySplits(p: Profile, lane: string)
    ensures LaneKey(p, lane) == Join(p.host, Join(p.name, lane))
  {}

  /** With NUL-free ids a lane key belongs to exactly one profile and one host, and is the owner's
      lane or an agent's. */
  lemma LanesAreSeparate(p: Profile, lane: string, q: Profile, other: string)
    requires p.Proper() && q.Proper()
    ensures BelongsTo(LaneKey(p, lane), q) <==> p == q
    ensures OnHost(LaneKey(p, lane), q.host) <==> p.host == q.host
    ensures LaneKey(p, lane) == LaneKey(q, other) <==> p == q && lane == other
  {
    LaneKeySplits(p, lane);
    LaneKeySplits(q, other);
    PrefixSplits(p.host, Join(p.name, lane), q.host);
    if LaneKey(p, lane) == LaneKey(q, other) {
      JoinIsInjective(p.host, Join(p.name, lane), q.host, Join(q.name, other));
      JoinIsInjective(p.name, lane, q.name, other);
    }
    if BelongsTo(LaneKey(p, lane), q) {
      var prefix := q.Key() + [NUL];
      var rest := LaneKey(p, lane)[|prefix|..];
      assert LaneKey(p, lane) == LaneKey(q, rest);
      LaneKeySplits(q, rest);
      JoinIsInjective(p.host, Join(p.name, lane), q.host, Join(q.name, rest));
      JoinIsInjective(p.name, lane, q.name, rest);
    }
  }

  // ---- invariant ----

  /** Which keys can be an owner's lane. */
  ghost predicate OwnerKey(key: Key) {
    exists p: Profile :: p.Proper() && key == LaneKey(p, OWNER_LANE)
  }

  /** A lane's one unreleased lease is its active one; owners hold only owner lanes. */
  ghost predicate LanesAgree(s: State) {
    && (forall key | key in s.active ::
          && s.active[key] in s.leases && s.leases[s.active[key]].key == key
          && !s.leases[s.active[key]].released)
    && (forall t | t in s.leases && !s.leases[t].released ::
          s.leases[t].key in s.active && s.active[s.leases[t].key] == t)
    && (forall t | t in s.leases :: t < s.nextToken && (s.leases[t].actor == Owner ==> OwnerKey(s.leases[t].key)))
  }

  /** The calls that queued for a lane and have not been answered. */
  ghost function Unanswered(s: State, key: Key): set<WaiterId> {
    set id | id in s.lanes && s.lanes[id] == key && id !in s.settled
  }

  ghost predicate InOrder(queue: seq<Waiter>) {
    forall i, j | 0 <= i < j < |queue| :: queue[i].id < queue[j].id
  }

  /** A queue holds its lane's unanswered calls in arrival order, and, but for an owner's lane, only
      while the lane is held. */
  ghost predicate QueuesAgree(s: State) {
    && (forall key | key in s.waiting :: s.waiting[key] != [])
    && (forall key | Queue(s, key) != [] && !OwnerKey(key) :: key in s.active)
    && (forall key :: InOrder(Queue(s, key)))
    && (forall key :: Ids(Queue(s, key)) == Unanswered(s, key))
  }

  ghost predicate CallsAgree(s: State) {
    && s.settled.Keys <= s.lanes.Keys
    && forall id | id in s.lanes :: id < s.nextWaiter
  }

  /** Nobody is granted a lane before a call that queued for it earlier and still waits. */
  ghost predicate GrantsAgree(s: State) {
    forall a, b | a in s.settled && a in s.lanes && s.settled[a].Granted?
                  && b in s.lanes && b !in s.settled && s.lanes[a] == s.lanes[b] :: a < b
  }

  ghost predicate Agrees(s: State) {
    && LanesAgree(s) && QueuesAgree(s) && CallsAgree(s) && GrantsAgree(s)
    && (s.disposed ==> s.active == map[] && s.waiting == map[])
  }
}
