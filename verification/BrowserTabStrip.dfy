/** The tab strip with its map and order changed in place. */
module BrowserTabStrip {
  import opened Wrappers
  import opened BrowserTabs

  class TabStrip {
    const max: nat
    var tabs: map<TabId, Tab>
    var order: seq<TabId>
    var activeTabId: Option<TabId>
    var evicted: seq<TabId>

    function Model(): Strip
      reads this
    {
      Strip(max, tabs, order, activeTabId, evicted)
    }

    ghost predicate Valid()
      reads this
    {
      Agrees(Model())
    }

    constructor (maxTabs: nat)
      ensures Valid() && Model() == Strip(if maxTabs < 1 then 1 else maxTabs, map[], [], None, [])
    {
      max := if maxTabs < 1 then 1 else maxTabs;
      tabs, order, activeTabId, evicted := map[], [], None, [];
    }

    method TrimToMax()
      modifies this
      ensures Model() == Trim(old(Model()))
    {
      while |order| > max
        invariant Trim(Model()) == Trim(old(Model()))
        decreases |order|
      {
        var oldest := Oldest(order, activeTabId);
        if oldest.None? || oldest.value >= |order| { break; }
        var dropped := order[oldest.value];
        order := order[..oldest.value] + order[oldest.value + 1..];
        tabs := tabs - {dropped};
        if dropped !in evicted { evicted := evicted + [dropped]; }
      }
    }

    method Upsert(id: TabId, tab: Tab)
      requires Valid()
      modifies this
      ensures Valid() && Model() == BrowserTabs.Upsert(old(Model()), id, tab)
    {
      UpsertAgrees(Model(), id, tab);
      if id !in tabs { order := order + [id]; }
      tabs := tabs[id := tab];
      if activeTabId.None? { activeTabId := Some(id); }
      TrimToMax();
    }

    method Open(id: TabId, tab: Tab)
      requires Valid()
      modifies this
      ensures Valid() && Model() == BrowserTabs.Open(old(Model()), id, tab)
    {
      UpsertAgrees(Model(), id, tab);
      Upsert(id, tab);
      var known := Activate(id);
    }

    method Activate(id: TabId) returns (known: bool)
      requires Valid()
      modifies this`activeTabId
      ensures Valid() && known == (id in tabs) && Model() == BrowserTabs.Activate(old(Model()), id)
    {
      if id !in tabs { return false; }
      activeTabId := Some(id);
      return true;
    }

    method SyncPages(pages: seq<Page>, preferred: Option<TabId>) returns (ok: bool)
      requires Valid()
      modifies this
      ensures Distinct(PageIds(pages)) ==> Valid()
      ensures var spec := Sync(old(Model()), pages, preferred);
              ok == spec.Some? && Model() == if ok then spec.value else old(Model())
    {
      var next: map<TabId, Tab> := map[];
      for i := 0 to |pages|
        invariant next == TabsOf(Model(), pages[..i])
      {
        next := next[pages[i].id := TabFor(Model(), pages[i])];
        assert pages[..i + 1][..i] == pages[..i];
      }
      assert pages[..|pages|] == pages;
      var active := NextActive(Model(), pages, preferred);
      if |pages| > max && active.None? { return false; }
      if Distinct(PageIds(pages)) { SyncAgrees(Model(), pages, preferred); }
      tabs, order, activeTabId := next, PageIds(pages), active;
      TrimToMax();
      return true;
    }

    method Close(id: TabId) returns (known: bool)
      requires Valid()
      modifies this
      ensures Valid() && known == (id in old(tabs)) && Model() == BrowserTabs.Close(old(Model()), id)
    {
      CloseAgrees(Model(), id);
      if id !in tabs { return false; }
      tabs := tabs - {id};
      order := Without(order, id);
      if activeTabId == Some(id) {
        activeTabId := if order == [] then None else Some(order[|order| - 1]);
      }
      return true;
    }

    /** Each evicted page is handed out once. */
    method TakeEvicted() returns (drained: seq<TabId>)
      requires Valid()
      modifies this`evicted
      ensures Valid() && drained == old(evicted) && Distinct(drained) && evicted == []
    {
      drained := evicted;
      evicted := [];
    }
  }
}
