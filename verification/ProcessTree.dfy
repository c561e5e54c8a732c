/** Counting a browser's renderer processes (src/browser/browser-process.ts) over one fixed process
    snapshot in which every process can be read. */
module ProcessTree {
  import opened Wrappers

  type Pid = nat

  datatype Process = Process(pid: Pid, parent: Pid, renderer: bool)

  type Snapshot = seq<Process>

  function Pids(live: Snapshot): set<Pid> {
    set i | 0 <= i < |live| :: live[i].pid
  }

  ghost predicate Distinct(live: Snapshot) {
    forall i, j | 0 <= i < j < |live| :: live[i].pid != live[j].pid
  }

  /** The children of a process in snapshot order. */
  function ChildrenOf(live: Snapshot, parent: Pid): seq<Pid> {
    if live == [] then []
    else
      var last := live[|live| - 1];
      ChildrenOf(live[..|live| - 1], parent) + (if last.parent == parent then [last.pid] else [])
  }

  predicate IsRenderer(live: Snapshot, pid: Pid) {
    exists i :: 0 <= i < |live| && live[i].pid == pid && live[i].renderer
  }

  /** A process within n parent links of the root; with `pruned`, no renderer's children are followed. */
  ghost predicate Within(live: Snapshot, root: Pid, pid: Pid, n: nat, pruned: bool)
    decreases n
  {
    pid == root
    || (n > 0 && exists via :: Within(live, root, via, n - 1, pruned) && pid in ChildrenOf(live, via)
                               && (pruned ==> !IsRenderer(live, via)))
  }

  ghost predicate Reachable(live: Snapshot, root: Pid, pid: Pid, pruned: bool) {
    exists n: nat :: Within(live, root, pid, n, pruned)
  }

  lemma {:induction false} ChildrenAreLive(live: Snapshot, parent: Pid)
    ensures forall c :: c in ChildrenOf(live, parent) <==>
              exists i :: 0 <= i < |live| && live[i].pid == c && live[i].parent == parent
  {
    if live != [] {
      var front, last := live[..|live| - 1], live[|live| - 1];
      ChildrenAreLive(front, parent);
      assert live == front + [last];
      forall c | c in ChildrenOf(live, parent)
        ensures exists i :: 0 <= i < |live| && live[i].pid == c && live[i].parent == parent
      {
        if c in ChildrenOf(front, parent) {
          var i :| 0 <= i < |front| && front[i].pid == c && front[i].parent == parent;
          assert live[i] == front[i];
        } else {
          assert live[|live| - 1].pid == c;
        }
      }
      forall i | 0 <= i < |live| && live[i].parent == parent ensures live[i].pid in ChildrenOf(live, parent) {
        if i < |front| { assert front[i] == live[i]; }
      }
    }
  }

  /** Everything reachable lies in any set that has the root and is closed under children. */
  lemma {:induction false} ReachableIsLeast(live: Snapshot, root: Pid, found: set<Pid>, pid: Pid, n: nat, pruned: bool)
    requires root in found && Within(live, root, pid, n, pruned)
    requires forall p, c | p in found && c in ChildrenOf(live, p) && (pruned ==> !IsRenderer(live, p)) :: c in found
    ensures pid in found
    decreases n
  {
    if pid != root {
      var via :| Within(live, root, via, n - 1, pruned) && pid in ChildrenOf(live, via)
                 && (pruned ==> !IsRenderer(live, via));
      ReachableIsLeast(live, root, found, via, n - 1, pruned);
    }
  }

  lemma OneLinkFurther(live: Snapshot, root: Pid, via: Pid, pid: Pid, pruned: bool)
    requires Reachable(live, root, via, pruned) && pid in ChildrenOf(live, via)
    requires pruned ==> !IsRenderer(live, via)
    ensures Reachable(live, root, pid, pruned)
  {
    var n: nat :| Within(live, root, via, n, pruned);
    assert Within(live, root, pid, n + 1, pruned);
  }

  // ---- the two walks ----

  /** A walk in progress: what has been found is reachable, waits in `pending` in order, and the
      children of those before `index` have been found. */
  ghost predicate Walking(live: Snapshot, root: Pid, pending: seq<Pid>, index: nat, found: set<Pid>, pruned: bool) {
    && index <= |pending| && root in found
    && (forall i, j | 0 <= i < j < |pending| :: pending[i] != pending[j])
    && found == (set i | 0 <= i < |pending| :: pending[i])
    && (forall p | p in found :: p in Pids(live) && Reachable(live, root, p, pruned))
    && forall i, c | 0 <= i < index && c in ChildrenOf(live, pending[i])
                     && (pruned ==> !IsRenderer(live, pending[i])) :: c in found
  }

  lemma WalkEnds(live: Snapshot, root: Pid, pending: seq<Pid>, found: set<Pid>, pruned: bool)
    requires Walking(live, root, pending, |pending|, found, pruned)
    ensures forall pid :: pid in found <==> Reachable(live, root, pid, pruned)
  {
    forall pid | Reachable(live, root, pid, pruned) ensures pid in found {
      var n: nat :| Within(live, root, pid, n, pruned);
      ReachableIsLeast(live, root, found, pid, n, pruned);
    }
  }

  lemma PendingFits(live: Snapshot, root: Pid, pending: seq<Pid>, index: nat, found: set<Pid>, pruned: bool)
    requires Walking(live, root, pending, index, found, pruned)
    ensures |pending| == |found| <= |Pids(live)|
  {
    CountDistinct(pending);
    Subset(found, Pids(live));
  }

  lemma {:induction false} CountDistinct(s: seq<Pid>)
    requires forall i, j | 0 <= i < j < |s| :: s[i] != s[j]
    ensures |(set i | 0 <= i < |s| :: s[i])| == |s|
  {
    if s != [] {
      var front := s[..|s| - 1];
      CountDistinct(front);
      assert (set i | 0 <= i < |s| :: s[i]) == (set i | 0 <= i < |front| :: front[i]) + {s[|s| - 1]} by {
        forall i | 0 <= i < |front| ensures s[i] == front[i] {}
      }
    }
  }

  lemma Subset<T>(a: set<T>, b: set<T>)
    requires a <= b
    ensures |a| <= |b|
  {
    assert b == a + (b - a);
  }

  /** The loop over one process's children. */
  method AddChildren(live: Snapshot, root: Pid, ghost index: nat, children: seq<Pid>, pending: seq<Pid>,
                     found: set<Pid>, ghost pruned: bool)
      returns (pending': seq<Pid>, found': set<Pid>)
    requires Walking(live, root, pending, index, found, pruned) && index < |pending|
    requires children == ChildrenOf(live, pending[index]) && (pruned ==> !IsRenderer(live, pending[index]))
    ensures Walking(live, root, pending', index + 1, found', pruned)
    ensures pending <= pending'
  {
    ChildrenAreLive(live, pending[index]);
    pending', found' := pending, found;
    for k := 0 to |children|
      invariant Walking(live, root, pending', index, found', pruned) && pending <= pending'
      invariant forall i | 0 <= i < k :: children[i] in found'
    {
      if children[k] !in found' {
        Discover(live, root, pending', index, found', children[k], pruned);
        found' := found' + {children[k]};
        pending' := pending' + [children[k]];
      }
    }
  }

  lemma Discover(live: Snapshot, root: Pid, pending: seq<Pid>, index: nat, found: set<Pid>, child: Pid, pruned: bool)
    requires Walking(live, root, pending, index, found, pruned) && index < |pending|
    requires child in ChildrenOf(live, pending[index]) && child !in found
    requires pruned ==> !IsRenderer(live, pending[index])
    ensures Walking(live, root, pending + [child], index, found + {child}, pruned)
  {
    ChildrenAreLive(live, pending[index]);
    assert pending[index] in found;
    OneLinkFurther(live, root, pending[index], child, pruned);
    var all := pending + [child];
    assert child in Pids(live);
    assert (set i | 0 <= i < |all| :: all[i]) == found + {child} by {
      assert all[|pending|] == child;
      forall i | 0 <= i < |pending| ensures all[i] == pending[i] {}
    }
    forall i | 0 <= i < |pending| ensures pending[i] != child { assert pending[i] in found; }
  }

  lemma WalkStarts(live: Snapshot, root: Pid, pruned: bool)
    requires root in Pids(live)
    ensures Walking(live, root, [root], 0, {root}, pruned)
  {
    assert Within(live, root, root, 0, pruned);
    assert [root][0] == root;
  }

  /** The full walk finds exactly the processes reachable from the browser's through parent links;
      None when the browser's own process is gone. */
  method ProcessDescendants(browser: Pid, live: Snapshot) returns (descendants: Option<set<Pid>>)
    ensures descendants.None? <==> browser !in Pids(live)
    ensures descendants.Some? ==>
              forall pid :: pid in descendants.value <==> Reachable(live, browser, pid, false)
  {
    if browser !in Pids(live) { return None; }
    WalkStarts(live, browser, false);
    var found, pending, index := {browser}, [browser], 0;
    while index < |pending|
      invariant Walking(live, browser, pending, index, found, false)
      decreases |Pids(live)| - index
    {
      PendingFits(live, browser, pending, index, found, false);
      pending, found := AddChildren(live, browser, index, ChildrenOf(live, pending[index]), pending, found, false);
      index := index + 1;
    }
    WalkEnds(live, browser, pending, found, false);
    return Some(found);
  }

  function RenderersAmong(live: Snapshot, pending: seq<Pid>): nat {
    if pending == [] then 0
    else RenderersAmong(live, pending[..|pending| - 1]) + if IsRenderer(live, pending[|pending| - 1]) then 1 else 0
  }

  ghost function Renderers(live: Snapshot, root: Pid, pruned: bool): set<Pid> {
    set pid | pid in Pids(live) && Reachable(live, root, pid, pruned) && IsRenderer(live, pid)
  }

  function RenderersIn(live: Snapshot, pending: seq<Pid>): set<Pid> {
    set pid | pid in pending && IsRenderer(live, pid)
  }

  lemma RenderersInNext(live: Snapshot, front: seq<Pid>, last: Pid)
    ensures RenderersIn(live, front + [last])
         == RenderersIn(live, front) + if IsRenderer(live, last) then {last} else {}
  {}

  lemma {:induction false} CountRenderers(live: Snapshot, pending: seq<Pid>)
    requires forall i, j | 0 <= i < j < |pending| :: pending[i] != pending[j]
    ensures RenderersAmong(live, pending) == |RenderersIn(live, pending)|
  {
    if pending != [] {
      var front, last := pending[..|pending| - 1], pending[|pending| - 1];
      CountRenderers(live, front);
      RenderersInNext(live, front, last);
      assert pending == front + [last] && last !in front;
    }
  }

  lemma PrunedWalkCounts(live: Snapshot, root: Pid, pending: seq<Pid>, found: set<Pid>)
    requires Walking(live, root, pending, |pending|, found, true)
    ensures RenderersAmong(live, pending) == |Renderers(live, root, true)|
  {
    WalkEnds(live, root, pending, found, true);
    CountRenderers(live, pending);
    assert RenderersIn(live, pending) == Renderers(live, root, true);
  }

  lemma OneMoreCounted(live: Snapshot, before: seq<Pid>, pending: seq<Pid>, index: nat)
    requires index < |before| && before <= pending
    ensures RenderersAmong(live, pending[..index + 1])
         == RenderersAmong(live, before[..index]) + if IsRenderer(live, before[index]) then 1 else 0
  {
    assert pending[..index + 1][..index] == before[..index] && pending[..index + 1][index] == before[index];
  }

  /** The pruned walk counts the renderers it can reach without passing through another. */
  method RendererCountFromSubtree(browser: Pid, live: Snapshot) returns (count: Option<nat>)
    ensures count.None? <==> browser !in Pids(live)
    ensures count.Some? ==> count.value == |Renderers(live, browser, true)|
  {
    if browser !in Pids(live) { return None; }
    WalkStarts(live, browser, true);
    var found, pending, index, renderers := {browser}, [browser], 0, 0;
    while index < |pending|
      invariant Walking(live, browser, pending, index, found, true)
      invariant renderers == RenderersAmong(live, pending[..index])
      decreases |Pids(live)| - index
    {
      PendingFits(live, browser, pending, index, found, true);
      ghost var before := pending;
      if IsRenderer(live, pending[index]) {
        renderers := renderers + 1;
      } else {
        pending, found := AddChildren(live, browser, index, ChildrenOf(live, pending[index]), pending, found, true);
      }
      OneMoreCounted(live, before, pending, index);
      index := index + 1;
    }
    assert pending[..|pending|] == pending;
    PrunedWalkCounts(live, browser, pending, found);
    return Some(renderers);
  }

  // ---- the two counts ----

  lemma {:induction false} PrunedIsWithin(live: Snapshot, root: Pid, pid: Pid, n: nat)
    requires Within(live, root, pid, n, true)
    ensures Within(live, root, pid, n, false)
    decreases n
  {
    if pid != root {
      var via :| Within(live, root, via, n - 1, true) && pid in ChildrenOf(live, via) && !IsRenderer(live, via);
      PrunedIsWithin(live, root, via, n - 1);
    }
  }

  lemma {:induction false} FullIsPruned(live: Snapshot, root: Pid, pid: Pid, n: nat)
    requires Within(live, root, pid, n, false)
    requires forall p | IsRenderer(live, p) :: ChildrenOf(live, p) == []
    ensures Within(live, root, pid, n, true)
    decreases n
  {
    if pid != root {
      var via :| Within(live, root, via, n - 1, false) && pid in ChildrenOf(live, via);
      FullIsPruned(live, root, via, n - 1);
    }
  }

  /** The pruned count never exceeds the full one, and is the same number when renderers have no
      children. */
  lemma PrunedCountIsFullCount(live: Snapshot, root: Pid)
    ensures |Renderers(live, root, true)| <= |Renderers(live, root, false)|
    ensures (forall p | IsRenderer(live, p) :: ChildrenOf(live, p) == []) ==>
              Renderers(live, root, true) == Renderers(live, root, false)
  {
    forall pid | pid in Renderers(live, root, true) ensures pid in Renderers(live, root, false) {
      var n: nat :| Within(live, root, pid, n, true);
      PrunedIsWithin(live, root, pid, n);
    }
    Subset(Renderers(live, root, true), Renderers(live, root, false));
    if forall p | IsRenderer(live, p) :: ChildrenOf(live, p) == [] {
      forall pid | pid in Renderers(live, root, false) ensures pid in Renderers(live, root, true) {
        var n: nat :| Within(live, root, pid, n, false);
        FullIsPruned(live, root, pid, n);
      }
    }
  }

  lemma SameCountExactlyWhenAllReached(live: Snapshot, root: Pid)
    ensures |Renderers(live, root, true)| == |Renderers(live, root, false)| <==>
            forall pid | pid in Renderers(live, root, false) :: Reachable(live, root, pid, true)
  {
    PrunedCountIsFullCount(live, root);
    var some, all := Renderers(live, root, true), Renderers(live, root, false);
    forall pid | pid in some ensures pid in all {
      var n: nat :| Within(live, root, pid, n, true);
      PrunedIsWithin(live, root, pid, n);
    }
    assert all == some + (all - some);
  }

  /** A process n links below another, on a way that does not come back to the root. */
  ghost predicate Below(live: Snapshot, root: Pid, over: Pid, pid: Pid, n: nat)
    decreases n
  {
    n > 0 && pid != root
    && exists via :: pid in ChildrenOf(live, via) && (via == over || Below(live, root, over, via, n - 1))
  }

  /** Some renderer below the browser has another below it. */
  ghost predicate Nested(live: Snapshot, root: Pid) {
    exists over, pid, n: nat ::
      over in Renderers(live, root, false) && IsRenderer(live, pid) && Below(live, root, over, pid, n)
  }

  lemma OneParent(live: Snapshot, a: Pid, b: Pid, pid: Pid)
    requires Distinct(live) && pid in ChildrenOf(live, a) && pid in ChildrenOf(live, b)
    ensures a == b
  {
    ChildrenAreLive(live, a);
    ChildrenAreLive(live, b);
  }

  /** What is below a renderer, the pruned walk does not reach. */
  lemma {:induction false} BelowIsPruned(live: Snapshot, root: Pid, over: Pid, pid: Pid, n: nat, k: nat)
    requires Distinct(live) && IsRenderer(live, over) && Below(live, root, over, pid, n)
    ensures !Within(live, root, pid, k, true)
    decreases k
  {
    if Within(live, root, pid, k, true) {
      var via :| Within(live, root, via, k - 1, true) && pid in ChildrenOf(live, via) && !IsRenderer(live, via);
      var up :| pid in ChildrenOf(live, up) && (up == over || Below(live, root, over, up, n - 1));
      OneParent(live, via, up, pid);
      if up != over { BelowIsPruned(live, root, over, up, n - 1, k - 1); }
    }
  }

  lemma {:induction false} BelowIsReached(live: Snapshot, root: Pid, over: Pid, pid: Pid, n: nat)
    requires Reachable(live, root, over, false) && Below(live, root, over, pid, n)
    ensures Reachable(live, root, pid, false) && pid in Pids(live)
    decreases n
  {
    var via :| pid in ChildrenOf(live, via) && (via == over || Below(live, root, over, via, n - 1));
    if via != over { BelowIsReached(live, root, over, via, n - 1); }
    OneLinkFurther(live, root, via, pid, false);
    ChildrenAreLive(live, via);
  }

  /** What the pruned walk does not reach is below some renderer. */
  lemma {:induction false} ReachedOrBelow(live: Snapshot, root: Pid, pid: Pid, n: nat)
    returns (over: Pid, k: nat)
    requires root in Pids(live) && Within(live, root, pid, n, false)
    ensures Reachable(live, root, pid, true)
            || (over in Renderers(live, root, false) && Below(live, root, over, pid, k))
    decreases n
  {
    over, k := root, 0;
    if pid == root {
      assert Within(live, root, root, 0, true);
    } else {
      var via :| Within(live, root, via, n - 1, false) && pid in ChildrenOf(live, via);
      over, k := ReachedOrBelow(live, root, via, n - 1);
      if !Reachable(live, root, via, true) {
        k := k + 1;
        assert Below(live, root, over, pid, k);
      } else if IsRenderer(live, via) {
        over, k := via, 1;
        assert Reachable(live, root, via, false) && via in Pids(live);
        assert Below(live, root, over, pid, 1);
      } else {
        OneLinkFurther(live, root, via, pid, true);
      }
    }
  }

  /** The counts agree exactly when no renderer below the browser has another below it. */
  lemma PrunedMissesNestedRenderers(live: Snapshot, root: Pid)
    requires Distinct(live) && root in Pids(live)
    ensures |Renderers(live, root, true)| == |Renderers(live, root, false)| <==> !Nested(live, root)
  {
    SameCountExactlyWhenAllReached(live, root);
    if Nested(live, root) {
      var over, pid, n: nat :|
        over in Renderers(live, root, false) && IsRenderer(live, pid) && Below(live, root, over, pid, n);
      BelowIsReached(live, root, over, pid, n);
      forall k: nat ensures !Within(live, root, pid, k, true) { BelowIsPruned(live, root, over, pid, n, k); }
      assert pid in Renderers(live, root, false) && !Reachable(live, root, pid, true);
    } else {
      forall pid | pid in Renderers(live, root, false) ensures Reachable(live, root, pid, true) {
        var n: nat :| Within(live, root, pid, n, false);
        var over, k := ReachedOrBelow(live, root, pid, n);
      }
    }
  }

  /** Counting by filtering the full walk. */
  method RendererProcessCount(browser: Pid, live: Snapshot) returns (count: Option<nat>)
    ensures count.None? <==> browser !in Pids(live)
    ensures count.Some? ==> count.value == |Renderers(live, browser, false)|
  {
    var descendants := ProcessDescendants(browser, live);
    if descendants.None? { return None; }
    var renderers := set pid | pid in descendants.value && IsRenderer(live, pid);
    assert renderers == Renderers(live, browser, false);
    return Some(|renderers|);
  }
}
