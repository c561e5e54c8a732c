/** The shared tab strip (src/browser/browser-tabs.ts). */
module BrowserTabs {
  import opened Wrappers

  type TabId = nat

  datatype Tab = Tab(url: int, title: int, popup: bool, opener: Option<TabId>)

  /** A page the runtime reports; missing parts keep what the strip knew. */
  datatype Page = Page(id: TabId, url: int, title: Option<int>, popup: bool, opener: Option<TabId>)

  datatype Strip = Strip(max: nat, tabs: map<TabId, Tab>, order: seq<TabId>, active: Option<TabId>,
                         evicted: seq<TabId>)

  ghost predicate Distinct(ids: seq<TabId>) {
    forall i, j | 0 <= i < j < |ids| :: ids[i] != ids[j]
  }

  function Without(ids: seq<TabId>, id: TabId): seq<TabId> {
    if ids == [] then [] else (if ids[0] == id then [] else [ids[0]]) + Without(ids[1..], id)
  }

  function Added(evicted: seq<TabId>, id: TabId): seq<TabId> {
    if id in evicted then evicted else evicted + [id]
  }

  // ---- trimming ----

  /** The oldest tab that is not the active one. */
  function Oldest(order: seq<TabId>, active: Option<TabId>): Option<nat> {
    if order == [] then None
    else if active != Some(order[0]) then Some(0)
    else
      var rest := Oldest(order[1..], active);
      if rest.None? then None else Some(rest.value + 1)
  }

  function Trim(s: Strip): Strip
    decreases |s.order|
  {
    if |s.order| <= s.max then s
    else
      var oldest := Oldest(s.order, s.active);
      if oldest.None? || oldest.value >= |s.order| then s
      else
        var id := s.order[oldest.value];
        Trim(s.(order := s.order[..oldest.value] + s.order[oldest.value + 1..], tabs := s.tabs - {id},
                evicted := Added(s.evicted, id)))
  }

  /** The last `max` ids, or the active one and the last `max - 1` others. */
  function Kept(order: seq<TabId>, active: Option<TabId>, max: nat): seq<TabId> {
    var over := |order| - max;
    if over <= 0 then order
    else if max > 0 && active.Some? && active.value in order[..over] then [active.value] + order[over + 1..]
    else order[over..]
  }

  /** The ids before those, oldest first. */
  function Dropped(order: seq<TabId>, active: Option<TabId>, max: nat): seq<TabId> {
    var over := |order| - max;
    if over <= 0 then []
    else if max > 0 && active.Some? && active.value in order[..over] then Without(order[..over + 1], active.value)
    else order[..over]
  }

  function Report(evicted: seq<TabId>, dropped: seq<TabId>): seq<TabId>
    decreases |dropped|
  {
    if dropped == [] then evicted else Report(Added(evicted, dropped[0]), dropped[1..])
  }

  lemma OldestIs(order: seq<TabId>, active: Option<TabId>)
    requires Distinct(order) && |order| >= 2
    ensures Oldest(order, active) == Some(if active == Some(order[0]) then 1 else 0)
  {
    assert order[1..][0] == order[1];
  }

  lemma {:induction false} WithoutIs(ids: seq<TabId>, id: TabId)
    ensures forall x :: x in Without(ids, id) <==> x in ids && x != id
    ensures id !in ids ==> Without(ids, id) == ids
    ensures Distinct(ids) ==> Distinct(Without(ids, id))
  {
    if ids != [] {
      WithoutIs(ids[1..], id);
      assert ids == [ids[0]] + ids[1..];
      if Distinct(ids) {
        var rest := Without(ids[1..], id);
        forall j | 0 <= j < |rest| ensures rest[j] != ids[0] {
          assert rest[j] in ids[1..];
        }
      }
    }
  }

  lemma WithoutHead(order: seq<TabId>, n: nat)
    requires Distinct(order) && 1 <= n <= |order|
    ensures Without(order[..n], order[0]) == order[1..n]
  {
    WithoutIs(order[1..n], order[0]);
    assert order[..n][1..] == order[1..n];
  }

  lemma ActiveFirst(order: seq<TabId>, active: Option<TabId>, max: nat)
    requires Distinct(order) && 1 <= max < |order| && active == Some(order[0])
    ensures var over := |order| - max;
            Kept(order, active, max) == [order[0]] + order[over + 1..]
            && Dropped(order, active, max) == order[1..over + 1]
  {
    var over := |order| - max;
    assert order[..over][0] == order[0];
    WithoutHead(order, over + 1);
  }

  lemma WithoutSecond(order: seq<TabId>, over: nat)
    requires 2 <= over < |order|
    ensures var rest := order[..1] + order[2..]; rest[1..over] == order[2..over + 1]
  {
  }

  lemma DropSecond(order: seq<TabId>, active: Option<TabId>, max: nat)
    requires Distinct(order) && 1 <= max < |order| && active == Some(order[0])
    ensures var rest := order[..1] + order[2..];
            && Kept(rest, active, max) == Kept(order, active, max)
            && Dropped(order, active, max) == [order[1]] + Dropped(rest, active, max)
  {
    var over, rest := |order| - max, order[..1] + order[2..];
    ActiveFirst(order, active, max);
    assert rest[over..] == order[over + 1..] && rest[0] == order[0];
    assert order[1..over + 1] == [order[1]] + order[2..over + 1];
    if over > 1 {
      ActiveFirst(rest, active, max);
      WithoutSecond(order, over);
    } else {
      assert rest == [order[0]] + order[over + 1..] && order[2..over + 1] == [];
    }
  }

  lemma DropFirst(order: seq<TabId>, active: Option<TabId>, max: nat)
    requires Distinct(order) && 1 <= max < |order| && active != Some(order[0])
    ensures Kept(order[1..], active, max) == Kept(order, active, max)
    ensures Dropped(order, active, max) == [order[0]] + Dropped(order[1..], active, max)
  {
    DropFirstKept(order, active, max);
    DropFirstDropped(order, active, max);
  }

  lemma DropFirstKept(order: seq<TabId>, active: Option<TabId>, max: nat)
    requires Distinct(order) && 1 <= max < |order| && active != Some(order[0])
    ensures Kept(order[1..], active, max) == Kept(order, active, max)
  {
    var over := |order| - max;
    TailSlices(order, over);
    if active.Some? && active.value in order[..over] { assert active.value in order[1..][..over - 1]; }
  }

  lemma DropFirstDropped(order: seq<TabId>, active: Option<TabId>, max: nat)
    requires Distinct(order) && 1 <= max < |order| && active != Some(order[0])
    ensures Dropped(order, active, max) == [order[0]] + Dropped(order[1..], active, max)
  {
    var over := |order| - max;
    TailSlices(order, over);
    if active.Some? && active.value in order[..over] {
      assert active.value in order[1..][..over - 1];
    } else if over == 1 {
      assert order[1..][..0] == [];
    }
  }

  lemma TailSlices(order: seq<TabId>, over: nat)
    requires 1 <= over < |order|
    ensures order[1..][over - 1..] == order[over..] && order[1..][over..] == order[over + 1..]
    ensures order[..over] == [order[0]] + order[1..][..over - 1]
    ensures order[..over + 1][0] == order[0] && order[..over + 1][1..] == order[1..][..over]
  {}

  function Members(ids: seq<TabId>): set<TabId> {
    set id | id in ids
  }

  lemma TrimOne(s: Strip)
    requires Distinct(s.order) && 1 <= s.max < |s.order|
    ensures var i := if s.active == Some(s.order[0]) then 1 else 0;
            var u := s.(order := s.order[..i] + s.order[i + 1..], tabs := s.tabs - {s.order[i]},
                        evicted := Added(s.evicted, s.order[i]));
            && Trim(s) == Trim(u) && Distinct(u.order)
            && Kept(u.order, s.active, s.max) == Kept(s.order, s.active, s.max)
            && Dropped(s.order, s.active, s.max) == [s.order[i]] + Dropped(u.order, s.active, s.max)
  {
    OldestIs(s.order, s.active);
    if s.active == Some(s.order[0]) {
      DropSecond(s.order, s.active, s.max);
    } else {
      DropFirst(s.order, s.active, s.max);
      assert s.order[..0] + s.order[1..] == s.order[1..];
    }
  }

  /** Trimming ends with exactly the closed form. */
  lemma {:induction false} TrimClosedForm(s: Strip)
    requires Distinct(s.order) && s.max >= 1
    ensures var u := Trim(s);
            && u.order == Kept(s.order, s.active, s.max) && u.active == s.active && u.max == s.max
            && u.evicted == Report(s.evicted, Dropped(s.order, s.active, s.max))
            && u.tabs == s.tabs - Members(Dropped(s.order, s.active, s.max))
    decreases |s.order|
  {
    if |s.order| > s.max {
      TrimOne(s);
      var i := if s.active == Some(s.order[0]) then 1 else 0;
      var u := s.(order := s.order[..i] + s.order[i + 1..], tabs := s.tabs - {s.order[i]},
                  evicted := Added(s.evicted, s.order[i]));
      TrimClosedForm(u);
      DroppedMore(s, s.order[i], Dropped(u.order, s.active, s.max));
    } else {
      assert s.tabs - Members([]) == s.tabs;
    }
  }

  lemma DroppedMore(s: Strip, id: TabId, more: seq<TabId>)
    ensures s.tabs - Members([id] + more) == (s.tabs - {id}) - Members(more)
    ensures Report(s.evicted, [id] + more) == Report(Added(s.evicted, id), more)
  {
    assert Members([id] + more) == {id} + Members(more);
    assert ([id] + more)[1..] == more;
  }

  lemma SplitMembers(order: seq<TabId>, k: nat)
    requires Distinct(order) && k <= |order|
    ensures Distinct(order[..k]) && Distinct(order[k..])
    ensures Members(order) == Members(order[..k]) + Members(order[k..])
    ensures Members(order[..k]) !! Members(order[k..])
  {
    assert order == order[..k] + order[k..];
    forall x | x in order[..k] ensures x !in order[k..] {
      var i :| 0 <= i < k && order[..k][i] == x;
      assert order[i] == x;
    }
  }

  /** What is kept and what is dropped divide the order, and the kept fit the cap. */
  lemma KeptAndDropped(order: seq<TabId>, active: Option<TabId>, max: nat)
    requires Distinct(order) && max >= 1
    ensures var kept, dropped := Kept(order, active, max), Dropped(order, active, max);
            && Distinct(kept) && Distinct(dropped) && |kept| == (if |order| < max then |order| else max)
            && Members(order) == Members(kept) + Members(dropped) && Members(kept) !! Members(dropped)
            && (active.Some? && active.value in order ==> active.value in kept)
  {
    var over := |order| - max;
    if over > 0 {
      if active.Some? && active.value in order[..over] {
        KeptBesideActive(order, active.value, over);
      } else {
        SplitMembers(order, over);
        assert order == order[..over] + order[over..];
      }
    }
  }

  lemma KeptBesideActive(order: seq<TabId>, active: TabId, over: nat)
    requires Distinct(order) && over < |order| && active in order[..over]
    ensures var kept, dropped := [active] + order[over + 1..], Without(order[..over + 1], active);
            && Distinct(kept) && Distinct(dropped) && Members(kept) !! Members(dropped)
            && Members(order) == Members(kept) + Members(dropped)
  {
    var head, rest := order[..over + 1], order[over + 1..];
    SplitMembers(order, over + 1);
    assert head == order[..over] + [order[over]];
    WithoutIs(head, active);
    assert active in Members(head);
    assert Members([active] + rest) == {active} + Members(rest);
    assert Members(Without(head, active)) == Members(head) - {active};
    forall j | 0 <= j < |rest| ensures rest[j] != active { assert rest[j] in Members(rest); }
  }

  /** The newest id is kept unless the cap is one and another tab is active. */
  lemma NewestIsKept(order: seq<TabId>, active: Option<TabId>, max: nat)
    requires Distinct(order) && max >= 1 && order != []
    ensures var id := order[|order| - 1];
            id in Kept(order, active, max)
            <==> max >= 2 || |order| == 1 || active.None? || active.value !in order || active.value == id
  {
    var id, over := order[|order| - 1], |order| - max;
    if over > 0 {
      assert id == order[over..][max - 1];
      if max >= 2 { assert id == order[over + 1..][max - 2]; }
      if active.Some? {
        assert order == order[..|order| - 1] + [id];
        if max == 1 { assert order[over..] == [id] && order[over + 1..] == []; }
      }
    }
  }

  // ---- operations ----

  function Upsert(s: Strip, id: TabId, tab: Tab): Strip {
    Trim(s.(tabs := s.tabs[id := tab], order := if id in s.tabs then s.order else s.order + [id],
            active := if s.active.None? then Some(id) else s.active))
  }

  function Activate(s: Strip, id: TabId): Strip {
    if id in s.tabs then s.(active := Some(id)) else s
  }

  /** Opening a page or adopting a popup. */
  function Open(s: Strip, id: TabId, tab: Tab): Strip {
    Activate(Upsert(s, id, tab), id)
  }

  function TabFor(s: Strip, p: Page): Tab {
    if p.id in s.tabs then
      var prior := s.tabs[p.id];
      prior.(url := p.url, title := if p.title.Some? then p.title.value else prior.title)
    else Tab(p.url, if p.title.Some? then p.title.value else 0, p.popup, p.opener)
  }

  function PageIds(pages: seq<Page>): seq<TabId> {
    seq(|pages|, i requires 0 <= i < |pages| => pages[i].id)
  }

  /** A page listed twice counts as its last entry. */
  function TabsOf(s: Strip, pages: seq<Page>): map<TabId, Tab> {
    if pages == [] then map[]
    else
      var last := pages[|pages| - 1];
      TabsOf(s, pages[..|pages| - 1])[last.id := TabFor(s, last)]
  }

  function NextActive(s: Strip, pages: seq<Page>, preferred: Option<TabId>): Option<TabId> {
    var ids := PageIds(pages);
    if preferred.Some? && preferred.value in ids then preferred
    else if s.active.Some? && s.active.value in ids then s.active
    else if |ids| == 1 then Some(ids[0])
    else None
  }

  /** None when the inventory is over the cap and nothing says which tab is active. */
  function Sync(s: Strip, pages: seq<Page>, preferred: Option<TabId>): Option<Strip> {
    var active := NextActive(s, pages, preferred);
    if |pages| > s.max && active.None? then None
    else Some(Trim(s.(tabs := TabsOf(s, pages), order := PageIds(pages), active := active)))
  }

  function Close(s: Strip, id: TabId): Strip {
    if id !in s.tabs then s
    else
      var order := Without(s.order, id);
      s.(tabs := s.tabs - {id}, order := order,
         active := if s.active != Some(id) then s.active
                   else if order == [] then None else Some(order[|order| - 1]))
  }

  // ---- the invariant ----

  ghost predicate Agrees(s: Strip) {
    && s.max >= 1 && Distinct(s.order) && Distinct(s.evicted) && |s.order| <= s.max
    && (forall id :: id in s.order <==> id in s.tabs)
    && (s.active.Some? ==> s.active.value in s.tabs)
  }

  lemma {:induction false} ReportIsDistinct(evicted: seq<TabId>, dropped: seq<TabId>)
    requires Distinct(evicted)
    ensures Distinct(Report(evicted, dropped))
    ensures forall x :: x in Report(evicted, dropped) <==> x in evicted || x in dropped
    decreases |dropped|
  {
    if dropped != [] {
      ReportIsDistinct(Added(evicted, dropped[0]), dropped[1..]);
      assert dropped == [dropped[0]] + dropped[1..];
    }
  }

  /** Trimming a strip that agrees but for its length. */
  lemma TrimAgrees(s: Strip)
    requires s.max >= 1 && Distinct(s.order) && Distinct(s.evicted)
    requires (forall id :: id in s.order <==> id in s.tabs) && (s.active.Some? ==> s.active.value in s.tabs)
    ensures Agrees(Trim(s))
    ensures forall id | id in Trim(s).tabs :: id in s.tabs && Trim(s).tabs[id] == s.tabs[id]
  {
    TrimClosedForm(s);
    KeptAndDropped(s.order, s.active, s.max);
    var kept, dropped := Kept(s.order, s.active, s.max), Dropped(s.order, s.active, s.max);
    ReportIsDistinct(s.evicted, dropped);
    forall id ensures id in kept <==> id in s.tabs - Members(dropped) {
      assert id in s.order <==> id in Members(s.order);
      assert id in kept <==> id in Members(kept);
    }
  }

  lemma UpsertAgrees(s: Strip, id: TabId, tab: Tab)
    requires Agrees(s)
    ensures Agrees(Upsert(s, id, tab)) && Agrees(Open(s, id, tab))
  {
    TrimAgrees(s.(tabs := s.tabs[id := tab], order := if id in s.tabs then s.order else s.order + [id],
                  active := if s.active.None? then Some(id) else s.active));
  }

  lemma {:induction false} TabsOfKeys(s: Strip, pages: seq<Page>)
    ensures forall id :: id in TabsOf(s, pages) <==> id in PageIds(pages)
  {
    if pages != [] {
      TabsOfKeys(s, pages[..|pages| - 1]);
      assert PageIds(pages) == PageIds(pages[..|pages| - 1]) + [pages[|pages| - 1].id];
    }
  }

  lemma SyncAgrees(s: Strip, pages: seq<Page>, preferred: Option<TabId>)
    requires Agrees(s) && Distinct(PageIds(pages)) && Sync(s, pages, preferred).Some?
    ensures Agrees(Sync(s, pages, preferred).value)
  {
    TabsOfKeys(s, pages);
    TrimAgrees(s.(tabs := TabsOf(s, pages), order := PageIds(pages), active := NextActive(s, pages, preferred)));
  }

  // ---- any inventory, also one that names a page twice ----

  /** The ids that trimming may drop, oldest first. */
  function Others(ids: seq<TabId>, active: Option<TabId>): seq<TabId> {
    if active.None? then ids else Without(ids, active.value)
  }

  lemma {:induction false} OldestOther(order: seq<TabId>, active: Option<TabId>)
    ensures var others, i := Others(order, active), Oldest(order, active);
            if others == [] then i.None?
            else i.Some? && i.value < |order| && order[i.value] == others[0]
                 && Others(order[..i.value] + order[i.value + 1..], active) == others[1..]
    decreases |order|
  {
    if order != [] {
      if active == Some(order[0]) {
        OldestOther(order[1..], active);
        var i := Oldest(order[1..], active);
        if i.Some? {
          var rest := order[1..][..i.value] + order[1..][i.value + 1..];
          assert order[..i.value + 1] + order[i.value + 2..] == [order[0]] + rest;
        }
      } else {
        assert order[..0] + order[1..] == order[1..];
      }
    }
  }

  /** How many ids trimming drops. */
  function Over(s: Strip): nat {
    var over, others := |s.order| - s.max, |Others(s.order, s.active)|;
    if over <= 0 then 0 else if over <= others then over else others
  }

  /** From s trimming reached u and dropped the first `over` of the other ids. */
  ghost predicate Drops(s: Strip, u: Strip, others: seq<TabId>, over: nat) {
    && u.active == s.active && u.max == s.max && over <= |others|
    && Others(u.order, s.active) == others[over..]
    && |u.order| == |s.order| - over
    && u.tabs == s.tabs - Members(others[..over])
    && u.evicted == Report(s.evicted, others[..over])
  }

  /** Trimming any order drops the first of the other ids, as many as are over the cap. */
  lemma {:induction false} TrimDropsOldest(s: Strip)
    ensures Drops(s, Trim(s), Others(s.order, s.active), Over(s))
    decreases |s.order|
  {
    if Over(s) == 0 {
      TrimKeepsAll(s);
    } else {
      var u := DropsOne(s);
      TrimDropsOldest(u);
      DropsMore(s, u, Trim(u), Others(s.order, s.active), Over(s));
    }
  }

  lemma TrimKeepsAll(s: Strip)
    requires Over(s) == 0
    ensures Drops(s, Trim(s), Others(s.order, s.active), 0)
  {
    OldestOther(s.order, s.active);
    assert Trim(s) == s;
    assert Others(s.order, s.active)[..0] == [] && s.tabs - Members([]) == s.tabs;
  }

  lemma DropsMore(s: Strip, u: Strip, v: Strip, others: seq<TabId>, over: nat)
    requires others != [] && over > 0 && Drops(u, v, others[1..], over - 1)
    requires u == s.(order := u.order, tabs := s.tabs - {others[0]}, evicted := Added(s.evicted, others[0]))
    requires |u.order| == |s.order| - 1
    ensures Drops(s, v, others, over)
  {
    var more := others[1..][..over - 1];
    assert others[1..][over - 1..] == others[over..] && others[..over] == [others[0]] + more;
    DroppedMore(s, others[0], more);
  }

  /** One turn of the loop drops the first of the others. */
  lemma DropsOne(s: Strip) returns (u: Strip)
    requires Over(s) > 0
    ensures var others := Others(s.order, s.active);
            && others != [] && Trim(s) == Trim(u) && Others(u.order, s.active) == others[1..]
            && u == s.(order := u.order, tabs := s.tabs - {others[0]}, evicted := Added(s.evicted, others[0]))
            && |u.order| == |s.order| - 1 && Over(u) == Over(s) - 1
  {
    OldestOther(s.order, s.active);
    var i := Oldest(s.order, s.active).value;
    u := s.(order := s.order[..i] + s.order[i + 1..], tabs := s.tabs - {s.order[i]},
            evicted := Added(s.evicted, s.order[i]));
  }

  lemma OthersFewer(ids: seq<TabId>, active: Option<TabId>)
    ensures |Others(ids, active)| <= |ids|
    ensures forall id :: id in Others(ids, active) <==> id in ids && active != Some(id)
  {
    if active.Some? {
      WithoutIsShorter(ids, active.value);
      WithoutIs(ids, active.value);
    }
  }

  /** An order names each id once when its other ids do and it names the active one once. */
  lemma {:induction false} DistinctOthers(ids: seq<TabId>, id: TabId)
    ensures Distinct(ids) <==> Distinct(Without(ids, id)) && |ids| - |Without(ids, id)| <= 1
    ensures id in ids <==> |Without(ids, id)| < |ids|
  {
    if ids != [] {
      var rest := ids[1..];
      DistinctOthers(rest, id);
      WithoutIs(rest, id);
      WithoutIsShorter(rest, id);
      assert ids == [ids[0]] + rest;
      DistinctHead(ids[0], rest);
      if ids[0] != id {
        DistinctHead(ids[0], Without(rest, id));
        assert Without(ids, id) == [ids[0]] + Without(rest, id);
      } else {
        assert Without(ids, id) == Without(rest, id);
      }
    }
  }

  lemma DistinctHead(head: TabId, rest: seq<TabId>)
    ensures Distinct([head] + rest) <==> Distinct(rest) && head !in rest
  {
    var all := [head] + rest;
    if Distinct(all) {
      forall i, j | 0 <= i < j < |rest| ensures rest[i] != rest[j] { assert all[i + 1] != all[j + 1]; }
      forall j | 0 <= j < |rest| ensures rest[j] != head { assert all[0] != all[j + 1]; }
    }
  }

  /** The inventory names the active page once, and after the pages over the cap are dropped, none of
      the others remains twice or was dropped as well. */
  ghost predicate NamesOnce(ids: seq<TabId>, active: Option<TabId>, max: nat) {
    var others, over := Others(ids, active), if |ids| > max then |ids| - max else 0;
    && |ids| - |others| == (if active.Some? then 1 else 0)
    && forall i, j | over <= i < |others| && 0 <= j < |others| && i != j :: others[i] != others[j]
  }

  lemma NamesOnceKept(ids: seq<TabId>, active: Option<TabId>, max: nat, over: nat)
    requires over == (if |ids| > max then |ids| - max else 0) && over <= |Others(ids, active)|
    ensures var others := Others(ids, active);
            NamesOnce(ids, active, max) <==>
              && |ids| - |others| == (if active.Some? then 1 else 0)
              && Distinct(others[over..]) && Members(others[over..]) !! Members(others[..over])
  {
    var others := Others(ids, active);
    var kept, dropped := others[over..], others[..over];
    if Distinct(kept) && Members(kept) !! Members(dropped) {
      forall i, j | over <= i < |others| && 0 <= j < |others| && i != j ensures others[i] != others[j] {
        assert kept[i - over] == others[i] && others[i] in Members(kept);
        if j < over { assert dropped[j] == others[j] && others[j] in Members(dropped); }
        else { assert kept[j - over] == others[j]; }
      }
    }
    if NamesOnce(ids, active, max) {
      forall x | x in kept ensures x !in dropped {
        var i :| 0 <= i < |kept| && kept[i] == x;
        assert others[i + over] == x;
      }
    }
  }

  /** A sync keeps the strip sound exactly when the inventory names the active page once and none of
      the others that remain twice, or beside one that was dropped. */
  lemma SyncAgreesExactly(s: Strip, pages: seq<Page>, preferred: Option<TabId>)
    requires Agrees(s) && Sync(s, pages, preferred).Some?
    ensures Agrees(Sync(s, pages, preferred).value)
            <==> NamesOnce(PageIds(pages), NextActive(s, pages, preferred), s.max)
  {
    var ids, active := PageIds(pages), NextActive(s, pages, preferred);
    TabsOfKeys(s, pages);
    var full := s.(tabs := TabsOf(s, pages), order := ids, active := active);
    TrimSoundExactly(full);
  }

  lemma TrimSoundExactly(s: Strip)
    requires s.max >= 1 && Distinct(s.evicted) && (forall id :: id in s.order <==> id in s.tabs)
    requires s.active.Some? ==> s.active.value in s.tabs
    requires |s.order| > s.max ==> s.active.Some?
    ensures Agrees(Trim(s)) <==> NamesOnce(s.order, s.active, s.max)
  {
    var others, over, u := Others(s.order, s.active), Over(s), Trim(s);
    TrimDropsOldest(s);
    ReportIsDistinct(s.evicted, others[..over]);
    TrimMembers(s);
    TrimOrder(s);
    if |s.order| - s.max <= |others| { NamesOnceKept(s.order, s.active, s.max, over); }
  }

  /** The order that is left names each id once, and fits, exactly when the active id came once and
      those left of the others come once. */
  lemma TrimOrder(s: Strip)
    requires s.max >= 1 && (s.active.Some? ==> s.active.value in s.order)
    requires |s.order| > s.max ==> s.active.Some?
    ensures var u, others, over := Trim(s), Others(s.order, s.active), Over(s);
            && over <= |others|
            && (Distinct(u.order) && |u.order| <= s.max
                <==> |s.order| - |others| == (if s.active.Some? then 1 else 0) && Distinct(others[over..]))
            && (|s.order| - s.max > |others| ==> |s.order| - |others| > 1)
  {
    var others, over, u := Others(s.order, s.active), Over(s), Trim(s);
    TrimDropsOldest(s);
    OthersFewer(s.order, s.active);
    if s.active.Some? {
      DistinctOthers(s.order, s.active.value);
      DistinctOthers(u.order, s.active.value);
    }
  }

  /** An id is left in the order when it is not among the first over the cap or comes again, and its
      tab when it is not among those. */
  lemma TrimHas(s: Strip, id: TabId)
    requires (forall x :: x in s.order <==> x in s.tabs) && (s.active.Some? ==> s.active.value in s.tabs)
    ensures var u, others, over := Trim(s), Others(s.order, s.active), Over(s);
            && over <= |others|
            && (id in u.order <==> id in others[over..] || s.active == Some(id))
            && (id in u.tabs <==> (id in others[over..] && id !in others[..over]) || s.active == Some(id))
  {
    var others, over := Others(s.order, s.active), Over(s);
    TrimDropsOldest(s);
    ActiveStays(s);
    OthersFewer(Trim(s).order, s.active);
    OthersFewer(s.order, s.active);
    InParts(others, over, id);
    InMinus(s.tabs, others[..over], id);
  }

  lemma InParts(ids: seq<TabId>, k: nat, id: TabId)
    requires k <= |ids|
    ensures id in ids <==> id in ids[..k] || id in ids[k..]
  {
    assert ids == ids[..k] + ids[k..];
  }

  lemma InMinus(tabs: map<TabId, Tab>, ids: seq<TabId>, id: TabId)
    ensures id in tabs - Members(ids) <==> id in tabs && id !in ids
  {
  }

  lemma ActiveStays(s: Strip)
    requires s.active.Some? ==> s.active.value in s.order
    ensures s.active.Some? ==> s.active.value in Trim(s).order
  {
    TrimDropsOldest(s);
    if s.active.Some? {
      DistinctOthers(s.order, s.active.value);
      DistinctOthers(Trim(s).order, s.active.value);
    }
  }

  /** What is left has its tabs unless it was dropped as well. */
  lemma TrimMembers(s: Strip)
    requires (forall id :: id in s.order <==> id in s.tabs) && (s.active.Some? ==> s.active.value in s.tabs)
    ensures var u, others, over := Trim(s), Others(s.order, s.active), Over(s);
            && over <= |others| && (s.active.Some? ==> s.active.value in u.order && s.active.value in u.tabs)
            && ((forall id :: id in u.order <==> id in u.tabs)
                <==> Members(others[over..]) !! Members(others[..over]))
  {
    var u, others, over := Trim(s), Others(s.order, s.active), Over(s);
    TrimHas(s, if s.active.Some? then s.active.value else 0);
    OthersFewer(s.order, s.active);
    forall id
      ensures (id in u.order <==> id in u.tabs) <==> !(id in others[over..] && id in others[..over])
    {
      TrimHas(s, id);
      assert id in others[over..] ==> id in others;
    }
    if forall id :: id in u.order <==> id in u.tabs {
      forall id | id in Members(others[over..]) ensures id !in Members(others[..over]) {
        assert id in u.order <==> id in u.tabs;
      }
    } else {
      var id :| !(id in u.order <==> id in u.tabs);
      assert id in Members(others[over..]) && id in Members(others[..over]);
    }
  }

  lemma CloseAgrees(s: Strip, id: TabId)
    requires Agrees(s)
    ensures Agrees(Close(s, id))
  {
    WithoutIs(s.order, id);
    WithoutIsShorter(s.order, id);
    var order := Without(s.order, id);
    assert order != [] ==> order[|order| - 1] in order;
  }

  lemma {:induction false} WithoutIsShorter(ids: seq<TabId>, id: TabId)
    ensures |Without(ids, id)| <= |ids|
  {
    if ids != [] { WithoutIsShorter(ids[1..], id); }
  }

  // ---- what the operations promise ----

  lemma UpsertShape(s: Strip, id: TabId, tab: Tab)
    requires Agrees(s) && id !in s.tabs
    ensures var active := if s.active.None? then Some(id) else s.active;
            var order := s.order + [id];
            var u := Upsert(s, id, tab);
            && u.active == active && u.order == Kept(order, active, s.max)
            && (id in u.tabs <==> id in Kept(order, active, s.max))
            && (forall x | x in Dropped(order, active, s.max) :: x in u.evicted)
            && Distinct(order) && Members(order) == Members(Kept(order, active, s.max)) + Members(Dropped(order, active, s.max))
  {
    var full := s.(tabs := s.tabs[id := tab], order := s.order + [id],
                   active := if s.active.None? then Some(id) else s.active);
    TrimAgrees(full);
    TrimClosedForm(full);
    KeptAndDropped(full.order, full.active, s.max);
    ReportIsDistinct(s.evicted, Dropped(full.order, full.active, s.max));
  }

  /** A newly opened tab is in the strip and active exactly when the cap leaves room for it beside
      the active tab: a cap of one drops it, and its page is reported for closing. */
  lemma OpenedTabIsActive(s: Strip, id: TabId, tab: Tab)
    requires Agrees(s) && id !in s.tabs
    ensures var u := Open(s, id, tab);
            && ((id in u.tabs && u.active == Some(id)) <==> s.max >= 2 || s.active.None?)
            && (id !in u.tabs ==> id in u.evicted && u.active == s.active)
  {
    var active, order := if s.active.None? then Some(id) else s.active, s.order + [id];
    UpsertShape(s, id, tab);
    assert order[|order| - 1] == id;
    NewestIsKept(order, active, s.max);
    assert id in Members(order);
    if s.active.Some? { assert s.active.value in s.order && s.active.value in order; }
  }

  /** A sync over the cap keeps the active page and the last others in inventory order, and reports
      every other page for closing. */
  lemma SyncKeepsActiveAndLatest(s: Strip, pages: seq<Page>, preferred: Option<TabId>)
    requires Agrees(s) && Distinct(PageIds(pages)) && |pages| > s.max
    ensures var active := NextActive(s, pages, preferred);
            if active.None? then Sync(s, pages, preferred) == None
            else Sync(s, pages, preferred).Some? &&
                 var u, ids, over := Sync(s, pages, preferred).value, PageIds(pages), |pages| - s.max;
                 && u.active == active && active.value in u.order && |u.order| == s.max
                 && u.order == (if active.value in ids[..over] then [active.value] + ids[over + 1..] else ids[over..])
                 && (forall id :: id in u.evicted <==> id in s.evicted || (id in ids && id !in u.order))
                 && Distinct(u.evicted)
  {
    var active := NextActive(s, pages, preferred);
    if active.Some? {
      var full := s.(tabs := TabsOf(s, pages), order := PageIds(pages), active := active);
      TrimClosedForm(full);
      KeptAndDropped(full.order, active, s.max);
      var kept, dropped := Kept(full.order, active, s.max), Dropped(full.order, active, s.max);
      ReportIsDistinct(s.evicted, dropped);
      forall id ensures id in dropped <==> id in full.order && id !in kept {
        assert id in full.order <==> id in Members(full.order);
        assert (id in kept <==> id in Members(kept)) && (id in dropped <==> id in Members(dropped));
      }
    }
  }
}
