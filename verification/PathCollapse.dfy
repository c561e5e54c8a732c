/** Lexical containment of an export path in its environment (src/host/host-downloads.ts,
    collapseWithin and isInsideEnvironment). */
module PathCollapse {
  import opened Wrappers
  import opened Strings

  function JoinParts(parts: seq<string>): string {
    if parts == [] then ""
    else if |parts| == 1 then parts[0]
    else parts[0] + "/" + JoinParts(parts[1..])
  }

  function NonEmpty(parts: seq<string>): seq<string> {
    if parts == [] then []
    else (if parts[0] == "" then [] else [parts[0]]) + NonEmpty(parts[1..])
  }

  predicate IsInside(resolved: string, root: string) {
    resolved == root || (|root| < |resolved| && resolved[..|root|] == root && resolved[|root|] == '/')
  }

  /** The stack after the remaining parts; None once they climb above its floor. */
  function CollapseParts(stack: seq<string>, parts: seq<string>, floor: nat): Option<seq<string>>
    decreases |parts|
  {
    if parts == [] then Some(stack)
    else if parts[0] == "" || parts[0] == "." then CollapseParts(stack, parts[1..], floor)
    else if parts[0] == ".." then
      if |stack| <= floor then None else CollapseParts(stack[..|stack| - 1], parts[1..], floor)
    else CollapseParts(stack + [parts[0]], parts[1..], floor)
  }

  function CollapseWithin(path: string, root: string): Option<string> {
    var stack := CollapseParts([], Split(path, '/'), |NonEmpty(Split(root, '/'))|);
    if stack.None? then None
    else
      var resolved := "/" + JoinParts(stack.value);
      if IsInside(resolved, root) then Some(resolved) else None
  }

  /** The loop over the stack. */
  method Collapse(path: string, root: string) returns (resolved: Option<string>)
    ensures resolved == CollapseWithin(path, root)
  {
    var floor := |NonEmpty(Split(root, '/'))|;
    var parts := Split(path, '/');
    var stack: seq<string> := [];
    for i := 0 to |parts|
      invariant CollapseParts([], parts, floor) == CollapseParts(stack, parts[i..], floor)
    {
      var part := parts[i];
      if part == "" || part == "." { continue; }
      if part == ".." {
        if |stack| <= floor { return None; }
        stack := stack[..|stack| - 1];
      } else {
        stack := stack + [part];
      }
    }
    var target := "/" + JoinParts(stack);
    return if IsInside(target, root) then Some(target) else None;
  }

  // ---- what a path means ----

  /** A directory or file in a tree without symbolic links, by the names that lead to it. */
  type Node = seq<string>

  function Walk(at: Node, parts: seq<string>): Node
    decreases |parts|
  {
    if parts == [] then at
    else if parts[0] == "" || parts[0] == "." then Walk(at, parts[1..])
    else if parts[0] == ".." then Walk(if at == [] then [] else at[..|at| - 1], parts[1..])
    else Walk(at + [parts[0]], parts[1..])
  }

  /** The node a path names from the top of the tree. */
  function Denotes(path: string): Node {
    Walk([], Split(path, '/'))
  }

  /** How many levels the parts go down; negative when they climb. */
  function Net(parts: seq<string>): int {
    if parts == [] then 0
    else
      var last := parts[|parts| - 1];
      Net(parts[..|parts| - 1]) + if last == "" || last == "." then 0 else if last == ".." then -1 else 1
  }

  /** Some prefix of the parts climbs above where it started. */
  ghost predicate Climbs(parts: seq<string>) {
    exists k | 0 <= k <= |parts| :: Net(parts[..k]) < 0
  }

  predicate Name(part: string) {
    part != "" && part != "." && part != ".." && '/' !in part
  }

  predicate Names(parts: seq<string>) {
    forall i | 0 <= i < |parts| :: Name(parts[i])
  }

  // ---- strings and parts ----

  lemma SplitCons(c: char, s: string)
    ensures Split([c] + s, '/')
            == if c == '/' then [""] + Split(s, '/') else [[c] + Split(s, '/')[0]] + Split(s, '/')[1..]
  {
    assert ([c] + s)[1..] == s && ([c] + s)[0] == c;
  }

  lemma {:induction false} SplitAppends(a: string, b: string)
    ensures Split(a + "/" + b, '/') == Split(a, '/') + Split(b, '/')
  {
    if a == "" {
      assert a + "/" + b == ['/'] + b;
      SplitCons('/', b);
    } else {
      var c, rest := a[0], a[1..];
      SplitAppends(rest, b);
      SplitCons(c, rest + "/" + b);
      SplitCons(c, rest);
      assert a == [c] + rest && a + "/" + b == [c] + (rest + "/" + b);
      ConsAppend(c, Split(rest, '/'), Split(b, '/'));
    }
  }

  lemma ConsAppend(c: char, tail: seq<string>, more: seq<string>)
    requires tail != []
    ensures [""] + (tail + more) == [""] + tail + more
    ensures [[c] + (tail + more)[0]] + (tail + more)[1..] == [[c] + tail[0]] + tail[1..] + more
  {}

  lemma {:induction false} SplitPlain(a: string)
    requires '/' !in a
    ensures Split(a, '/') == [a]
  {
    if a != "" {
      SplitPlain(a[1..]);
      assert [a[0]] + a[1..] == a;
    }
  }

  lemma {:induction false} SplitPartsAreSlashFree(a: string)
    ensures forall i | 0 <= i < |Split(a, '/')| :: '/' !in Split(a, '/')[i]
  {
    if a != "" { SplitPartsAreSlashFree(a[1..]); }
  }

  lemma {:induction false} SplitJoined(parts: seq<string>)
    requires Names(parts) && parts != []
    ensures Split(JoinParts(parts), '/') == parts
  {
    SplitPlain(parts[0]);
    if |parts| > 1 {
      SplitJoined(parts[1..]);
      SplitAppends(parts[0], JoinParts(parts[1..]));
    }
  }

  lemma {:induction false} JoinAppends(a: seq<string>, b: seq<string>)
    requires a != [] && b != []
    ensures JoinParts(a + b) == JoinParts(a) + "/" + JoinParts(b)
  {
    assert (a + b)[1..] == a[1..] + b;
    if |a| > 1 { JoinAppends(a[1..], b); }
  }

  lemma {:induction false} NamesAreNonEmpty(parts: seq<string>)
    requires Names(parts)
    ensures NonEmpty(parts) == parts
  {
    if parts != [] {
      NamesAreNonEmpty(parts[1..]);
      assert [parts[0]] + parts[1..] == parts;
    }
  }

  function RootOf(rootParts: seq<string>): string {
    "/" + JoinParts(rootParts)
  }

  lemma RootSplits(rootParts: seq<string>)
    requires Names(rootParts) && rootParts != []
    ensures Split(RootOf(rootParts), '/') == [""] + rootParts
    ensures NonEmpty(Split(RootOf(rootParts), '/')) == rootParts
  {
    SplitAppends("", JoinParts(rootParts));
    assert "" + "/" + JoinParts(rootParts) == RootOf(rootParts);
    SplitJoined(rootParts);
    NamesAreNonEmpty(rootParts);
    assert ([""] + rootParts)[1..] == rootParts;
  }

  // ---- collapsing ----

  lemma {:induction false} CollapseNames(stack: seq<string>, names: seq<string>, rest: seq<string>, floor: nat)
    requires Names(names)
    ensures CollapseParts(stack, names + rest, floor) == CollapseParts(stack + names, rest, floor)
    ensures Walk(stack, names + rest) == Walk(stack + names, rest)
    decreases |names|
  {
    if names == [] {
      assert names + rest == rest && stack + names == stack;
    } else {
      CollapseNames(stack + [names[0]], names[1..], rest, floor);
      assert (names + rest)[1..] == names[1..] + rest;
      assert stack + [names[0]] + names[1..] == stack + names;
    }
  }

  lemma {:induction false} NetOfCons(parts: seq<string>)
    requires parts != []
    ensures Net(parts) == Net(parts[..1]) + Net(parts[1..])
  {
    var n := |parts| - 1;
    if n > 0 {
      NetOfCons(parts[..n]);
      assert parts[..n][..1] == parts[..1] && parts[..n][1..] == parts[1..][..n - 1];
    } else {
      assert parts[..1] == parts && parts[1..] == [];
    }
  }

  /** Whether a climb of more than `room` levels happens, seen from the front. */
  ghost predicate ClimbsBy(parts: seq<string>, room: nat) {
    exists k | 0 <= k <= |parts| :: Net(parts[..k]) + room < 0
  }

  lemma NetOfFirst(parts: seq<string>, k: nat)
    requires parts != [] && 0 < k <= |parts|
    ensures Net(parts[..k]) == Net(parts[..1]) + Net(parts[1..][..k - 1])
  {
    NetOfCons(parts[..k]);
    assert parts[..k][..1] == parts[..1] && parts[..k][1..] == parts[1..][..k - 1];
  }

  lemma ClimbsFromFirst(parts: seq<string>, room: nat, after: int)
    requires parts != [] && after == room + Net(parts[..1])
    ensures after < 0 ==> ClimbsBy(parts, room)
    ensures after >= 0 ==> (ClimbsBy(parts, room) <==> ClimbsBy(parts[1..], after))
  {
    if after < 0 {
      assert Net(parts[..1]) + room < 0;
    } else {
      if ClimbsBy(parts, room) {
        assert parts[..0] == [];
        var k :| 0 <= k <= |parts| && Net(parts[..k]) + room < 0;
        NetOfFirst(parts, k);
        assert Net(parts[1..][..k - 1]) + after < 0;
      }
      if ClimbsBy(parts[1..], after) {
        var k :| 0 <= k <= |parts[1..]| && Net(parts[1..][..k]) + after < 0;
        NetOfFirst(parts, k + 1);
        assert Net(parts[..k + 1]) + room < 0;
      }
    }
  }

  /** From a stack at or above the floor, collapsing fails exactly when the parts climb below it, and
      otherwise reaches the node the parts walk to, above the same floor. */
  lemma {:induction false} CollapseIsWalk(stack: seq<string>, parts: seq<string>, floor: nat)
    requires Names(stack) && floor <= |stack| && forall i | 0 <= i < |parts| :: '/' !in parts[i]
    ensures var r := CollapseParts(stack, parts, floor);
            && (r.None? <==> ClimbsBy(parts, |stack| - floor))
            && (r.Some? ==> Names(r.value) && floor <= |r.value| && r.value[..floor] == stack[..floor]
                            && r.value == Walk(stack, parts))
    decreases |parts|
  {
    if parts == [] {
      assert forall k | 0 <= k <= |parts| :: parts[..k] == [];
      return;
    }
    var first, room := parts[0], |stack| - floor;
    var step := Net(parts[..1]);
    assert parts[..1] == [first] && [first][..0] == [];
    ClimbsFromFirst(parts, room, room + step);
    if first == "" || first == "." {
      CollapseIsWalk(stack, parts[1..], floor);
    } else if first == ".." {
      if room > 0 { CollapseIsWalk(stack[..|stack| - 1], parts[1..], floor); }
    } else {
      CollapseIsWalk(stack + [first], parts[1..], floor);
    }
  }

  lemma InsideWhenBelow(rootParts: seq<string>, below: seq<string>)
    requires Names(rootParts) && rootParts != []
    ensures IsInside("/" + JoinParts(rootParts + below), RootOf(rootParts))
  {
    if below == [] {
      assert rootParts + below == rootParts;
    } else {
      JoinAppends(rootParts, below);
      var resolved, root := "/" + JoinParts(rootParts + below), RootOf(rootParts);
      assert resolved == root + "/" + JoinParts(below);
    }
  }

  /** What the loop sees of a path under a canonical root. */
  lemma UnderRoot(root: string, rootParts: seq<string>, relative: string)
    requires Names(rootParts) && Split(root, '/') == [""] + rootParts
    ensures var parts := Split(root + "/" + relative, '/');
            && CollapseParts([], parts, |rootParts|) == CollapseParts(rootParts, Split(relative, '/'), |rootParts|)
            && Walk([], parts) == Walk(rootParts, Split(relative, '/'))
  {
    SplitAppends(root, relative);
    Reassociate("", rootParts, Split(relative, '/'));
    AfterRoot(rootParts, Split(relative, '/'));
  }

  lemma Reassociate(first: string, a: seq<string>, b: seq<string>)
    ensures [first] + a + b == [first] + (a + b)
  {
  }

  lemma AfterRoot(rootParts: seq<string>, parts: seq<string>)
    requires Names(rootParts)
    ensures CollapseParts([], [""] + (rootParts + parts), |rootParts|)
            == CollapseParts(rootParts, parts, |rootParts|)
    ensures Walk([], [""] + (rootParts + parts)) == Walk(rootParts, parts)
  {
    assert ([""] + (rootParts + parts))[1..] == rootParts + parts;
    CollapseNames([], rootParts, parts, |rootParts|);
    assert [] + rootParts == rootParts;
  }

  lemma CollapsedPath(rootParts: seq<string>, stack: seq<string>)
    requires Names(rootParts) && rootParts != [] && Names(stack)
    requires |rootParts| <= |stack| && stack[..|rootParts|] == rootParts
    ensures IsInside(RootOf(stack), RootOf(rootParts)) && Denotes(RootOf(stack)) == stack
  {
    assert stack == rootParts + stack[|rootParts|..];
    InsideWhenBelow(rootParts, stack[|rootParts|..]);
    DenotesItself(stack);
  }

  /** For a canonical root other than "/" and any relative path, the collapsed path is refused exactly
      when some prefix of the path climbs above the root. Otherwise it is a path under the root,
      without dots, that names the node the original names. */
  lemma CollapseIsExact(rootParts: seq<string>, relative: string)
    requires Names(rootParts) && rootParts != []
    ensures var root := RootOf(rootParts);
            var r := CollapseWithin(root + "/" + relative, root);
            && (r.None? <==> Climbs(Split(relative, '/')))
            && (r.Some? ==> exists stack :: Names(stack) && stack != [] && r.value == RootOf(stack)
                                            && Denotes(root + "/" + relative) == stack == Denotes(r.value)
                                            && IsInside(r.value, root))
  {
    var parts, n := Split(relative, '/'), |rootParts|;
    RootSplits(rootParts);
    UnderRoot(RootOf(rootParts), rootParts, relative);
    SplitPartsAreSlashFree(relative);
    CollapseIsWalk(rootParts, parts, n);
    ClimbsWithoutRoom(parts);
    var r := CollapseParts(rootParts, parts, n);
    if r.Some? { CollapsedPath(rootParts, r.value); }
  }

  lemma ClimbsWithoutRoom(parts: seq<string>)
    ensures ClimbsBy(parts, 0) <==> Climbs(parts)
  {}

  /** A path of plain names denotes the node with those names. */
  lemma DenotesItself(names: seq<string>)
    requires Names(names) && names != []
    ensures Denotes(RootOf(names)) == names
  {
    RootSplits(names);
    assert ([""] + names)[1..] == names;
    CollapseNames([], names, [], 0);
    assert names + [] == names && [] + names == names;
  }

  lemma SlashRootParts(relative: string)
    ensures NonEmpty(Split("/", '/')) == []
    ensures Split("/" + "/" + relative, '/') == ["", ""] + Split(relative, '/')
  {
    assert Split("/", '/') == ["", ""] by { assert "/"[1..] == ""; }
    assert ["", ""][1..] == [""] && [""][1..] == [];
    SplitAppends("/", relative);
  }

  lemma SkipsEmpty(parts: seq<string>)
    ensures CollapseParts([], ["", ""] + parts, 0) == CollapseParts([], parts, 0)
    ensures Walk([], ["", ""] + parts) == Walk([], parts)
  {
    assert (["", ""] + parts)[1..] == [""] + parts && ([""] + parts)[1..] == parts;
  }

  lemma BelowSlash(stack: seq<string>)
    requires Names(stack)
    ensures IsInside("/" + JoinParts(stack), "/") <==> stack == []
  {
    if stack != [] {
      var resolved := "/" + JoinParts(stack);
      assert resolved[1] == stack[0][0];
      assert resolved[1] != '/' by { assert stack[0][0] in stack[0]; }
    }
  }

  /** With "/" as the root, every relative path is refused but those that name the top itself without
      ever climbing above it. */
  lemma SlashRootAcceptsOnlyTheTop(relative: string)
    ensures var composed := "/" + "/" + relative;
            var r := CollapseWithin(composed, "/");
            && (r.None? <==> Climbs(Split(relative, '/')) || Denotes(composed) != [])
            && (r.Some? ==> r.value == "/")
  {
    var parts := Split(relative, '/');
    SlashRootParts(relative);
    SkipsEmpty(parts);
    SplitPartsAreSlashFree(relative);
    CollapseIsWalk([], parts, 0);
    ClimbsWithoutRoom(parts);
    var r := CollapseParts([], parts, 0);
    if r.Some? { BelowSlash(r.value); }
  }
}
