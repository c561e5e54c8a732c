/** A host's durable outbox of activity events (src/activity/activity-outbox.ts). Each operation
    reads the whole file, changes the list and writes it back; here the list is the state. */
module ActivityOutbox {
  import opened Wrappers
  import opened Numbers
  import opened ActivityRecords

  const BATCH := 100
  const RETRY_BASE := 1_000
  const RETRY_MAX := 60 * 60 * 1_000

  datatype Item = Item(event: Event, attempts: nat, nextAttempt: int)

  datatype OutboxError = Conflicting | Full | TooManyIds

  function RetryDelay(attempts: nat): nat {
    var doublings := if attempts <= 1 then 0 else if attempts - 1 > 16 then 16 else attempts - 1;
    var delay := RETRY_BASE * Power2(doublings);
    if delay < RETRY_MAX then delay else RETRY_MAX
  }

  /** Each retry waits twice as long as the one before, until an hour caps it at the 13th. */
  lemma RetryDelayShape(attempts: nat)
    ensures RETRY_BASE <= RetryDelay(attempts) <= RETRY_MAX
    ensures RetryDelay(1) == RETRY_BASE
    ensures 1 <= attempts < 12 ==> RetryDelay(attempts + 1) == 2 * RetryDelay(attempts)
    ensures attempts >= 13 <==> RetryDelay(attempts) == RETRY_MAX
  {
    PowersGrow(0, 11);
    assert Power2(11) == 2048;
    if attempts <= 12 {
      PowersGrow(if attempts <= 1 then 0 else attempts - 1, 11);
    } else {
      PowersGrow(12, if attempts - 1 > 16 then 16 else attempts - 1);
    }
    if attempts < 12 { PowersGrow(if attempts == 0 then 0 else attempts, 11); }
  }

  // ---- ids ----

  function ItemIds(items: seq<Item>): set<EventId> {
    set i | 0 <= i < |items| :: items[i].event.id
  }

  ghost predicate DistinctIds(items: seq<Item>) {
    forall i, j | 0 <= i < j < |items| :: items[i].event.id != items[j].event.id
  }

  // ---- enqueue ----

  function Enqueued(items: seq<Item>, e: Event, now: int): Result<seq<Item>, OutboxError> {
    if exists i :: 0 <= i < |items| && items[i].event.id == e.id then
      if exists i :: 0 <= i < |items| && items[i].event == e then Ok(items) else Err(Conflicting)
    else if |items| >= LIMIT then Err(Full)
    else Ok(items + [Item(e, 0, now)])
  }

  // ---- acknowledge and reconcile ----

  function Remaining(items: seq<Item>, gone: set<EventId>): seq<Item> {
    if items == [] then []
    else
      var last := items[|items| - 1];
      Remaining(items[..|items| - 1], gone) + (if last.event.id in gone then [] else [last])
  }

  /** Removing acknowledged events removes exactly those ids. */
  lemma {:induction false} RemainingIds(items: seq<Item>, gone: set<EventId>)
    ensures ItemIds(Remaining(items, gone)) == ItemIds(items) - gone
  {
    if items != [] {
      var front, last := items[..|items| - 1], items[|items| - 1];
      RemainingIds(front, gone);
      assert items == front + [last];
      IdsOfAppend(front, last);
      IdsOfAppend(Remaining(front, gone), last);
      assert Remaining(front, gone) + [] == Remaining(front, gone);
    }
  }

  /** The rest keep their order and stay distinct; nothing changes only when nothing was held. */
  lemma {:induction false} RemainingKeeps(items: seq<Item>, gone: set<EventId>)
    ensures forall x :: x in Remaining(items, gone) <==> x in items && x.event.id !in gone
    ensures DistinctIds(items) ==> DistinctIds(Remaining(items, gone))
    ensures |Remaining(items, gone)| <= |items|
  {
    if items != [] {
      var front, last := items[..|items| - 1], items[|items| - 1];
      var rest := Remaining(front, gone);
      RemainingKeeps(front, gone);
      assert items == front + [last];
      if DistinctIds(items) {
        assert DistinctIds(front) by { assert forall i | 0 <= i < |front| :: front[i] == items[i]; }
        forall i | 0 <= i < |rest| ensures rest[i].event.id != last.event.id { assert rest[i] in front; }
      }
    }
  }

  lemma {:induction false} RemainingSame(items: seq<Item>, gone: set<EventId>)
    requires forall i | 0 <= i < |items| :: items[i].event.id !in gone
    ensures Remaining(items, gone) == items
  {
    if items != [] {
      RemainingSame(items[..|items| - 1], gone);
      assert items == items[..|items| - 1] + [items[|items| - 1]];
    }
  }

  lemma {:induction false} RemainingLess(items: seq<Item>, gone: set<EventId>, i: nat)
    requires i < |items| && items[i].event.id in gone
    ensures |Remaining(items, gone)| < |items|
  {
    var front := items[..|items| - 1];
    RemainingKeeps(front, gone);
    if i < |front| { RemainingLess(front, gone, i); }
  }

  /** The list shrinks exactly when something in it goes. */
  lemma RemainingShrinks(items: seq<Item>, gone: set<EventId>)
    ensures |Remaining(items, gone)| <= |items|
    ensures if ItemIds(items) !! gone then Remaining(items, gone) == items
            else |Remaining(items, gone)| < |items|
  {
    RemainingKeeps(items, gone);
    if i :| 0 <= i < |items| && items[i].event.id in gone {
      assert items[i].event.id in ItemIds(items);
      RemainingLess(items, gone, i);
    } else {
      RemainingSame(items, gone);
    }
  }

  lemma IdsOfAppend(items: seq<Item>, item: Item)
    ensures ItemIds(items + [item]) == ItemIds(items) + {item.event.id}
  {
    forall id | id in ItemIds(items) + {item.event.id} ensures id in ItemIds(items + [item]) {
      if id in ItemIds(items) {
        var i :| 0 <= i < |items| && items[i].event.id == id;
        assert (items + [item])[i].event.id == id;
      } else {
        assert (items + [item])[|items|].event.id == id;
      }
    }
  }

  // ---- claim ----

  predicate Before(a: Item, b: Item) {
    a.nextAttempt < b.nextAttempt || (a.nextAttempt == b.nextAttempt && a.event.id <= b.event.id)
  }

  function Due(items: seq<Item>, now: int): seq<Item> {
    if items == [] then []
    else
      var last := items[|items| - 1];
      Due(items[..|items| - 1], now) + (if last.nextAttempt <= now then [last] else [])
  }

  function Insert(x: Item, sorted: seq<Item>): seq<Item> {
    if sorted == [] || Before(x, sorted[0]) then [x] + sorted
    else [sorted[0]] + Insert(x, sorted[1..])
  }

  function Sorted(items: seq<Item>): seq<Item> {
    if items == [] then [] else Insert(items[0], Sorted(items[1..]))
  }

  ghost predicate Ordered(items: seq<Item>) {
    forall i, j | 0 <= i < j < |items| :: Before(items[i], items[j])
  }

  lemma {:induction false} InsertKeepsOrder(x: Item, sorted: seq<Item>)
    requires Ordered(sorted)
    ensures Ordered(Insert(x, sorted))
    ensures multiset(Insert(x, sorted)) == multiset(sorted) + multiset{x}
    ensures |Insert(x, sorted)| == |sorted| + 1
  {
    InsertKeepsItems(x, sorted);
    if sorted != [] {
      if Before(x, sorted[0]) {
        ConsKeepsOrder(x, sorted);
      } else {
        var r := Insert(x, sorted[1..]);
        InsertKeepsOrder(x, sorted[1..]);
        InsertKeepsItems(x, sorted[1..]);
        assert r[0] in r;
        ConsKeepsOrder(sorted[0], r);
      }
    }
  }

  lemma ConsKeepsOrder(x: Item, sorted: seq<Item>)
    requires Ordered(sorted) && (sorted != [] ==> Before(x, sorted[0]))
    ensures Ordered([x] + sorted)
  {}

  lemma {:induction false} InsertKeepsItems(x: Item, sorted: seq<Item>)
    ensures multiset(Insert(x, sorted)) == multiset(sorted) + multiset{x}
    ensures |Insert(x, sorted)| == |sorted| + 1
    ensures forall y :: y in Insert(x, sorted) <==> y == x || y in sorted
  {
    if sorted != [] {
      assert sorted == [sorted[0]] + sorted[1..];
      if !Before(x, sorted[0]) { InsertKeepsItems(x, sorted[1..]); }
    }
  }

  lemma {:induction false} SortedIsOrdered(items: seq<Item>)
    ensures Ordered(Sorted(items)) && multiset(Sorted(items)) == multiset(items)
    ensures |Sorted(items)| == |items|
  {
    if items != [] {
      SortedIsOrdered(items[1..]);
      InsertKeepsOrder(items[0], Sorted(items[1..]));
      assert items == [items[0]] + items[1..];
    }
  }

  lemma {:induction false} DueAre(items: seq<Item>, now: int)
    ensures forall x :: x in Due(items, now) <==> x in items && x.nextAttempt <= now
    ensures |Due(items, now)| <= |items|
    ensures DistinctIds(items) ==> DistinctIds(Due(items, now))
  {
    if items != [] {
      var front, last := items[..|items| - 1], items[|items| - 1];
      DueAre(front, now);
      assert items == front + [last];
      if DistinctIds(items) {
        forall i | 0 <= i < |Due(front, now)| ensures Due(front, now)[i].event.id != last.event.id {
          assert Due(front, now)[i] in front;
        }
      }
    }
  }

  function Renew(item: Item, now: int): Item {
    item.(attempts := item.attempts + 1, nextAttempt := now + RetryDelay(item.attempts + 1))
  }

  /** The items a claim picks, before their retry time is moved. */
  function Picked(items: seq<Item>, now: int, limit: nat): seq<Item> {
    var due := Sorted(Due(items, now));
    SortedIsOrdered(Due(items, now));
    if |due| < limit then due else due[..limit]
  }

  function Claimed(items: seq<Item>, now: int, limit: nat): seq<Item> {
    var picked := Picked(items, now, limit);
    seq(|picked|, i requires 0 <= i < |picked| => Renew(picked[i], now))
  }

  function AfterClaim(items: seq<Item>, picked: set<EventId>, now: int): seq<Item> {
    seq(|items|, i requires 0 <= i < |items| =>
      if items[i].event.id in picked then Renew(items[i], now) else items[i])
  }

  /** A claim picks the earliest due items: as many as the limit allows, none of them later than a
      due item left behind. */
  lemma ClaimTakesTheEarliest(items: seq<Item>, now: int, limit: nat)
    requires DistinctIds(items)
    ensures var picked := Picked(items, now, limit);
            && |picked| == (if |Due(items, now)| < limit then |Due(items, now)| else limit)
            && Ordered(picked) && DistinctIds(picked)
            && (forall x | x in picked :: x in items && x.nextAttempt <= now)
            && (forall x, y | x in picked && y in items && y.nextAttempt <= now && y !in picked ::
                  Before(x, y))
  {
    var due, picked := Sorted(Due(items, now)), Picked(items, now, limit);
    DueAre(items, now);
    SortedIsOrdered(Due(items, now));
    SameItems(Due(items, now), due);
    SortKeepsDistinct(Due(items, now), due);
    forall x, y | x in picked && y in items && y.nextAttempt <= now && y !in picked
      ensures Before(x, y)
    {
      assert y in due;
      var i :| 0 <= i < |picked| && picked[i] == x;
      var j :| 0 <= j < |due| && due[j] == y;
      assert picked[i] == due[i];
      InPrefix(due, |picked|, j);
    }
  }

  lemma InPrefix(s: seq<Item>, n: nat, j: nat)
    requires j < |s| && n <= |s|
    ensures j < n ==> s[j] in s[..n]
  {
    if j < n { assert s[..n][j] == s[j]; }
  }

  lemma SameItems(a: seq<Item>, b: seq<Item>)
    requires multiset(a) == multiset(b)
    ensures forall x :: x in a <==> x in b
  {
    assert forall x :: x in a <==> x in multiset(a);
    assert forall x :: x in b <==> x in multiset(b);
  }

  lemma SortKeepsDistinct(a: seq<Item>, b: seq<Item>)
    requires DistinctIds(a) && multiset(a) == multiset(b)
    ensures DistinctIds(b)
  {
    SameItems(a, b);
    forall i, j | 0 <= i < j < |b| ensures b[i].event.id != b[j].event.id {
      assert b[i] in b && b[j] in b;
      assert b[i] in a && b[j] in a;
      var k :| 0 <= k < |a| && a[k] == b[i];
      var l :| 0 <= l < |a| && a[l] == b[j];
      if k == l { TwiceInSequence(b, i, j); OnceInDistinct(a, k); assert false; }
    }
  }

  lemma TwiceInSequence(s: seq<Item>, i: nat, j: nat)
    requires i < j < |s| && s[i] == s[j]
    ensures multiset(s)[s[i]] >= 2
  {
    assert s == s[..j] + [s[j]] + s[j + 1..];
    assert s[..j][i] == s[i];
  }

  lemma OnceInDistinct(s: seq<Item>, k: nat)
    requires DistinctIds(s) && k < |s|
    ensures multiset(s)[s[k]] == 1
  {
    assert s == s[..k] + [s[k]] + s[k + 1..];
    assert s[k] !in s[..k] && s[k] !in s[k + 1..];
  }

  /** A claimed event is not claimed again within a second, however often the host is asked. */
  lemma ClaimsDoNotRepeat(items: seq<Item>, now: int, limit: nat, later: int, again: nat)
    requires DistinctIds(items) && later < now + RETRY_BASE
    ensures var picked := Picked(items, now, limit);
            ItemIds(picked) !! ItemIds(Picked(AfterClaim(items, ItemIds(picked), now), later, again))
  {
    var picked := Picked(items, now, limit);
    var after := AfterClaim(items, ItemIds(picked), now);
    assert DistinctIds(after);
    ClaimTakesTheEarliest(after, later, again);
    forall id | id in ItemIds(picked)
      ensures id !in ItemIds(Picked(after, later, again))
    {
      forall x | x in Picked(after, later, again) ensures x.event.id != id {
        var i :| 0 <= i < |after| && after[i] == x;
        RetryDelayShape(items[i].attempts + 1);
      }
    }
  }

  /** A claim changes no event, no id and no position. */
  lemma ClaimKeepsEvents(items: seq<Item>, picked: set<EventId>, now: int)
    ensures var after := AfterClaim(items, picked, now);
            && |after| == |items| && ItemIds(after) == ItemIds(items)
            && (DistinctIds(items) ==> DistinctIds(after))
            && forall i | 0 <= i < |items| :: after[i].event == items[i].event
  {
    var after := AfterClaim(items, picked, now);
    assert forall i | 0 <= i < |items| :: after[i].event.id == items[i].event.id;
  }

  class Outbox {
    var events: seq<Item>

    ghost predicate Valid()
      reads this
    {
      DistinctIds(events) && |events| <= LIMIT
    }

    constructor ()
      ensures Valid() && events == []
    {
      events := [];
    }

    method Find(id: EventId) returns (index: Option<nat>)
      ensures index.None? ==> id !in ItemIds(events)
      ensures index.Some? ==> index.value < |events| && events[index.value].event.id == id
    {
      for i := 0 to |events|
        invariant forall k | 0 <= k < i :: events[k].event.id != id
      {
        if events[i].event.id == id { return Some(i); }
      }
      return None;
    }

    method Enqueue(e: Event, now: int) returns (error: Option<OutboxError>)
      requires Valid()
      modifies this
      ensures Valid()
      ensures var spec := Enqueued(old(events), e, now);
              if spec.Ok? then error == None && events == spec.value
              else error == Some(spec.error) && events == old(events)
    {
      var existing := Find(e.id);
      if existing.Some? {
        if events[existing.value].event != e { return Some(Conflicting); }
        return None;
      }
      if |events| >= LIMIT { return Some(Full); }
      assert forall i | 0 <= i < |events| :: events[i].event.id in ItemIds(events);
      events := events + [Item(e, 0, now)];
      return None;
    }

    method ClaimItem(item: Item, now: int)
      requires Valid() && item in events
      modifies this
      ensures events == AfterClaim(old(events), {item.event.id}, now)
    {
      var index := Find(item.event.id);
      var i :| 0 <= i < |events| && events[i] == item;
      events := events[index.value := Renew(item, now)];
    }

    method Claim(now: int, limit: nat) returns (claimed: seq<Item>)
      requires Valid() && 0 < limit <= LIMIT
      modifies this
      ensures Valid()
      ensures claimed == Claimed(old(events), now, limit)
      ensures events == AfterClaim(old(events), ItemIds(Picked(old(events), now, limit)), now)
    {
      var due := Picked(events, now, limit);
      ghost var was := events;
      ClaimTakesTheEarliest(events, now, limit);
      claimed := [];
      for k := 0 to |due|
        invariant claimed == seq(k, i requires 0 <= i < k => Renew(due[i], now))
        invariant events == AfterClaim(was, ItemIds(due[..k]), now)
        invariant Valid()
      {
        Untouched(was, due, k, now);
        ClaimedOneMore(was, due, k, now);
        ClaimKeepsEvents(events, {due[k].event.id}, now);
        ClaimItem(due[k], now);
        claimed := claimed + [Renew(due[k], now)];
      }
      assert due[..|due|] == due;
    }

    method Acknowledge(ids: set<EventId>) returns (error: Option<OutboxError>)
      requires Valid()
      modifies this
      ensures Valid() && (error.Some? <==> |ids| > LIMIT)
      ensures events == if error.Some? then old(events) else Remaining(old(events), ids)
    {
      if |ids| > LIMIT { return Some(TooManyIds); }
      RemainingKeeps(events, ids);
      events := Remaining(events, ids);
      return None;
    }

    method Reconcile(ids: set<EventId>, limit: nat) returns (recovered: Result<seq<Item>, OutboxError>)
      requires Valid() && 0 < limit <= LIMIT
      modifies this
      ensures Valid() && (recovered.Err? <==> |ids| > LIMIT)
      ensures events == if recovered.Err? then old(events) else Remaining(old(events), ids)
      ensures recovered.Ok? ==> recovered.value <= events
      ensures recovered.Ok? ==> |recovered.value| == if |events| < limit then |events| else limit
    {
      var error := Acknowledge(ids);
      if error.Some? { return Err(error.value); }
      return Ok(if |events| < limit then events else events[..limit]);
    }
  }

  lemma ClaimedOneMore(was: seq<Item>, due: seq<Item>, k: nat, now: int)
    requires DistinctIds(due) && k < |due|
    ensures AfterClaim(AfterClaim(was, ItemIds(due[..k]), now), {due[k].event.id}, now)
            == AfterClaim(was, ItemIds(due[..k + 1]), now)
  {
    assert due[..k + 1] == due[..k] + [due[k]];
    IdsOfAppend(due[..k], due[k]);
    assert due[k].event.id !in ItemIds(due[..k]);
  }

  /** The next item to claim has not been changed by the earlier ones. */
  lemma Untouched(was: seq<Item>, due: seq<Item>, k: nat, now: int)
    requires DistinctIds(due) && k < |due| && due[k] in was
    ensures due[k] in AfterClaim(was, ItemIds(due[..k]), now)
  {
    var i :| 0 <= i < |was| && was[i] == due[k];
    assert due[k].event.id !in ItemIds(due[..k]);
    assert AfterClaim(was, ItemIds(due[..k]), now)[i] == due[k];
  }
}
