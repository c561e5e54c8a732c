/** Dropping a session tree child by child removes exactly the sessions under its root. */
module ProxyTrees {
  import opened ProxyModel

  /** What is left of base once the trees of the done sessions are dropped. */
  ghost function Outside(base: map<SessionId, SessionId>, done: set<SessionId>): map<SessionId, SessionId> {
    map k | k in base && (forall c | c in done :: !Under(base, k, c)) :: base[k]
  }

  lemma DoneIsGone(base: map<SessionId, SessionId>, done: set<SessionId>, d: SessionId)
    requires d in done && d in base
    ensures |Outside(base, done)| < |base|
  {
    assert Above(base, d, d, 0);
    assert d !in Outside(base, done);
    SmallerMap(Outside(base, done).Keys, base.Keys);
  }

  lemma SmallerMap(a: set<SessionId>, b: set<SessionId>)
    requires a < b
    ensures |a| < |b|
  {
    assert |b| == |a| + |b - a|;
  }

  lemma NotLarger(base: map<SessionId, SessionId>, done: set<SessionId>)
    ensures |Outside(base, done)| <= |base|
  {
    var a, b := Outside(base, done).Keys, base.Keys;
    assert a <= b;
    assert |b| == |a| + |b - a|;
  }

  /** A chain of base between sessions that are left runs through sessions that are left. */
  lemma {:induction false} ChainStays(base: map<SessionId, SessionId>, done: set<SessionId>, k: SessionId,
                                      c: SessionId, n: nat)
    requires Above(base, k, c, n) && (n > 0 ==> k in Outside(base, done))
    ensures Above(Outside(base, done), k, c, n)
    decreases n
  {
    if n > 1 {
      forall d | d in done ensures !Under(base, base[k], d) {
        if Under(base, base[k], d) {
          var j: nat :| Above(base, base[k], d, j);
          assert Above(base, k, d, j + 1);
        }
      }
    }
    if n > 0 { ChainStays(base, done, base[k], c, n - 1); }
  }

  lemma {:induction false} ChainInBase(base: map<SessionId, SessionId>, done: set<SessionId>, k: SessionId,
                                       c: SessionId, n: nat)
    requires Above(Outside(base, done), k, c, n)
    ensures Above(base, k, c, n)
    decreases n
  {
    if n > 0 { ChainInBase(base, done, base[k], c, n - 1); }
  }

  lemma OneMore(base: map<SessionId, SessionId>, done: set<SessionId>, c: SessionId)
    ensures DropTree(Outside(base, done), c) == Outside(base, done + {c})
  {
    var left := Outside(base, done);
    forall k | k in left ensures Under(left, k, c) <==> Under(base, k, c) {
      if Under(left, k, c) {
        var n: nat :| Above(left, k, c, n);
        ChainInBase(base, done, k, c, n);
      }
      if Under(base, k, c) {
        var n: nat :| Above(base, k, c, n);
        ChainStays(base, done, k, c, n);
      }
    }
  }

  /** A chain of all that ends at s passes last through a child of s. */
  lemma {:induction false} LastChild(all: map<SessionId, SessionId>, s: SessionId, k: SessionId, n: nat)
    requires Above(all, k, s, n) && k != s
    ensures exists c :: c in all && c != s && all[c] == s && Under(all - {s}, k, c)
    decreases n
  {
    var base := all - {s};
    if all[k] == s {
      assert Above(base, k, k, 0);
    } else {
      LastChild(all, s, all[k], n - 1);
      var c :| c in all && c != s && all[c] == s && Under(base, all[k], c);
      var j: nat :| Above(base, all[k], c, j);
      assert Above(base, k, c, j + 1);
    }
  }

  lemma {:induction false} ChainWithin(all: map<SessionId, SessionId>, s: SessionId, k: SessionId,
                                       c: SessionId, n: nat)
    requires Above(all - {s}, k, c, n) && c in all && all[c] == s
    ensures Above(all, k, s, n + 1)
    decreases n
  {
    if n == 0 { assert Above(all, s, s, 0); } else { ChainWithin(all, s, all[k], c, n - 1); }
  }

  lemma ChildrenMakeTheTree(all: map<SessionId, SessionId>, s: SessionId, done: set<SessionId>)
    requires forall c :: c in done <==> c in all && c != s && all[c] == s
    ensures Outside(all - {s}, done) == DropTree(all, s)
  {
    var base := all - {s};
    assert Above(all, s, s, 0);
    forall k | k in base ensures Under(all, k, s) <==> exists c | c in done :: Under(base, k, c) {
      if Under(all, k, s) {
        var n: nat :| Above(all, k, s, n);
        LastChild(all, s, k, n);
      }
      if c :| c in done && Under(base, k, c) {
        var n: nat :| Above(base, k, c, n);
        ChainWithin(all, s, k, c, n);
      }
    }
  }

  /** The loop over the sessions left at its start: children of s not visited yet are in `rest`, and
      the trees of those in `done` are dropped. */
  ghost predicate Dropping(all: map<SessionId, SessionId>, s: SessionId, rest: map<SessionId, SessionId>,
                           done: set<SessionId>)
  {
    && (forall k | k in rest :: k in all && k != s && rest[k] == all[k])
    && (forall k | k in all && k != s && all[k] == s :: k in done || k in rest)
    && (forall k | k in done :: k in all && k != s && all[k] == s)
  }

  lemma DropStarts(all: map<SessionId, SessionId>, s: SessionId)
    ensures Dropping(all, s, all - {s}, {}) && Outside(all - {s}, {}) == all - {s}
  {}

  lemma DropNext(all: map<SessionId, SessionId>, s: SessionId, rest: map<SessionId, SessionId>,
                 done: set<SessionId>, child: SessionId)
    requires Dropping(all, s, rest, done) && child in rest
    ensures Dropping(all, s, rest - {child}, if rest[child] == s then done + {child} else done)
    ensures child in all && child != s && rest[child] == all[child]
  {}

  /** Each call is on fewer sessions, or on a session that is still there after one that is not. */
  lemma Smaller(all: map<SessionId, SessionId>, s: SessionId, done: set<SessionId>, child: SessionId)
    requires forall k | k in done :: k in all && k != s && all[k] == s
    requires child in all && child != s
    ensures var left := Outside(all - {s}, done);
            |left| < |all| || (|left| == |all| && child in left && s !in all)
  {
    var base := all - {s};
    assert base.Keys == all.Keys - {s};
    NotLarger(base, done);
    if d :| d in done {
      DoneIsGone(base, done, d);
    } else {
      assert done == {} && Outside(base, done) == base;
      if s in all { SmallerMap(base.Keys, all.Keys); } else { assert base == all; }
    }
    if s in all { SmallerMap(base.Keys, all.Keys); } else { assert base == all; }
  }
}
