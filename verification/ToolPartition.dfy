/** Which tools a request advertises (partitionTools in loop.go): an eager block that never moves,
    the loader, and a tail of loaded tools. */
module ToolPartition {
  import opened Basics
  import opened Order

  const TOOL_SEARCH: string := "tool_search"

  datatype Definition = Definition(name: string, description: string, parameters: string)

  /** A registered tool in one permission mode and under one pair of filters. */
  datatype Tool = Tool(
    visible: bool, advertised: bool, eligible: bool, deferred: bool, definition: Definition)

  function NameOf(d: Definition): string {
    d.name
  }

  /** The registry is a map by name: any enumeration of it names every tool once. */
  predicate Registered(tools: seq<Tool>) {
    forall i, j :: 0 <= i < j < |tools| ==> tools[i].definition.name != tools[j].definition.name
  }

  /** DeferThreshold, whether tool_search is disabled, and the rendering of the hidden tools, which
      sorts and dedupes its lines. */
  datatype Setup = Setup(threshold: int, searchDisabled: bool, describe: set<Tool> -> string)

  // ---- what is meant ----

  function IsLoader(t: Tool): bool {
    t.definition.name == TOOL_SEARCH
  }

  function All(tools: seq<Tool>): set<Tool> {
    set t | t in tools
  }

  function Counted(ts: set<Tool>): set<Tool> {
    set t | t in ts && t.visible && t.eligible
  }

  function Offered(ts: set<Tool>): set<Tool> {
    set t | t in ts && t.visible && !IsLoader(t)
  }

  function Eager(ts: set<Tool>): set<Tool> {
    set t | t in Offered(ts) && !t.deferred
  }

  function Pulled(ts: set<Tool>, loaded: set<string>): set<Tool> {
    set t | t in Offered(ts) && t.deferred && t.definition.name in loaded
  }

  function Hidden(ts: set<Tool>, loaded: set<string>): set<Tool> {
    set t | t in Offered(ts) && t.deferred && t.definition.name !in loaded
  }

  predicate Usable(setup: Setup, t: Tool) {
    IsLoader(t) && t.advertised && !setup.searchDisabled
  }

  /** Deferral is on: enough tools are eligible, and the loader can run. */
  ghost predicate Active(ts: set<Tool>, setup: Setup) {
    setup.threshold > 0 && |Counted(ts)| >= setup.threshold && exists t :: t in ts && Usable(setup, t)
  }

  /** The definitions of these tools, in ascending order of their names. */
  ghost predicate Lists(ds: seq<Definition>, ts: set<Tool>) {
    Ascending(ds, NameOf) && (forall d :: d in ds <==> d in Definitions(ts))
  }

  function Definitions(ts: set<Tool>): set<Definition> {
    set t | t in ts :: t.definition
  }

  lemma ListedOnce(a: seq<Definition>, b: seq<Definition>, ts: set<Tool>)
    requires Lists(a, ts) && Lists(b, ts)
    ensures a == b
  {
    AscendingIsUnique(a, b, NameOf);
  }

  function Discovery(ts: set<Tool>, loaded: set<string>, setup: Setup): string {
    if Hidden(ts, loaded) == {} then "" else setup.describe(Hidden(ts, loaded))
  }

  function LoaderEntry(loader: Tool, discovery: string): Definition {
    if discovery == "" then loader.definition else loader.definition.(description := discovery)
  }

  ghost predicate ActiveLayout(ts: set<Tool>, setup: Setup, loaded: set<string>, ds: seq<Definition>,
                               loader: Tool, eager: seq<Definition>, tail: seq<Definition>) {
    && loader in ts && Usable(setup, loader)
    && Lists(eager, Eager(ts)) && Lists(tail, Pulled(ts, loaded))
    && ds == eager + [LoaderEntry(loader, Discovery(ts, loaded, setup))] + tail
  }

  /** What partitionTools answers, as a matter of the set of tools alone. */
  ghost predicate Partition(ts: set<Tool>, setup: Setup, loaded: set<string>, ds: seq<Definition>, discovery: string) {
    if Active(ts, setup) then
      && discovery == Discovery(ts, loaded, setup)
      && exists loader, eager, tail :: ActiveLayout(ts, setup, loaded, ds, loader, eager, tail)
    else Lists(ds, Offered(ts)) && discovery == ""
  }

  ghost predicate OneName(ts: set<Tool>) {
    forall t, u :: t in ts && u in ts && t.definition.name == u.definition.name ==> t == u
  }

  lemma RegisteredOneName(tools: seq<Tool>)
    requires Registered(tools)
    ensures OneName(All(tools))
  {
    forall t, u | t in All(tools) && u in All(tools) && t.definition.name == u.definition.name ensures t == u {
      var i :| 0 <= i < |tools| && tools[i] == t;
      var j :| 0 <= j < |tools| && tools[j] == u;
    }
  }

  /** The answer depends on nothing but the set of tools. */
  lemma PartitionIsUnique(ts: set<Tool>, setup: Setup, loaded: set<string>,
                          a: seq<Definition>, da: string, b: seq<Definition>, db: string)
    requires OneName(ts) && Partition(ts, setup, loaded, a, da) && Partition(ts, setup, loaded, b, db)
    ensures a == b && da == db
  {
    hide Lists, Discovery;
    if Active(ts, setup) {
      var l1, e1, t1 :| ActiveLayout(ts, setup, loaded, a, l1, e1, t1);
      var l2, e2, t2 :| ActiveLayout(ts, setup, loaded, b, l2, e2, t2);
      ListedOnce(e1, e2, Eager(ts));
      ListedOnce(t1, t2, Pulled(ts, loaded));
    } else {
      ListedOnce(a, b, Offered(ts));
    }
  }

  /** However the registry map is walked, and whatever an earlier turn left in the cache, two answers
      for the same tools are the same. */
  lemma RegistryOrderIsMoot(walk: seq<Tool>, other: seq<Tool>, setup: Setup, loaded: set<string>,
                            a: seq<Definition>, da: string, b: seq<Definition>, db: string)
    requires Registered(walk) && All(walk) == All(other)
    requires Partition(All(walk), setup, loaded, a, da) && Partition(All(other), setup, loaded, b, db)
    ensures a == b && da == db
  {
    hide Partition;
    RegisteredOneName(walk);
    PartitionIsUnique(All(walk), setup, loaded, a, da, b, db);
  }

  /** The first `k` definitions are the same, tool_search stands behind them in both, and what
      follows in `a` follows in `b`. */
  predicate SamePrefix(a: seq<Definition>, b: seq<Definition>, k: nat) {
    && k < |a| && k < |b| && a[..k] == b[..k] && a[k].name == b[k].name == TOOL_SEARCH
    && forall i :: k < i < |a| ==> a[i] in b[k + 1..]
  }

  /** Loading more tools moves nothing in front of them: the eager block and the place of
      tool_search stay, and what was loaded stays loaded. */
  lemma LoadingOnlyAppends(ts: set<Tool>, setup: Setup, loaded: set<string>, more: set<string>,
                           a: seq<Definition>, da: string, b: seq<Definition>, db: string)
    requires OneName(ts) && Active(ts, setup) && loaded <= more
    requires Partition(ts, setup, loaded, a, da) && Partition(ts, setup, more, b, db)
    ensures exists k: nat :: SamePrefix(a, b, k) && Lists(a[..k], Eager(ts))
  {
    hide Lists, Discovery;
    var l1, e1, t1 :| ActiveLayout(ts, setup, loaded, a, l1, e1, t1);
    var l2, e2, t2 :| ActiveLayout(ts, setup, more, b, l2, e2, t2);
    ListedOnce(e1, e2, Eager(ts));
    var k: nat := |e1|;
    assert a[..k] == e1 && b[..k] == e2 && a[k + 1..] == t1 && b[k + 1..] == t2;
    assert a[k].name == l1.definition.name && b[k].name == l2.definition.name;
    TailsGrow(ts, loaded, more, t1, t2);
    forall i | k < i < |a| ensures a[i] in t2 {
      assert a[i] == t1[i - k - 1];
    }
    assert SamePrefix(a, b, k);
  }

  lemma TailsGrow(ts: set<Tool>, loaded: set<string>, more: set<string>, t1: seq<Definition>, t2: seq<Definition>)
    requires loaded <= more && Lists(t1, Pulled(ts, loaded)) && Lists(t2, Pulled(ts, more))
    ensures forall d :: d in t1 ==> d in t2
  {
    hide Ascending;
    assert Pulled(ts, loaded) <= Pulled(ts, more);
  }

  /** Every visible tool is exposed or hidden and never both; the loader is exposed. */
  lemma NothingLostNothingTwice(ts: set<Tool>, setup: Setup, loaded: set<string>, ds: seq<Definition>,
                                discovery: string, t: Tool)
    requires OneName(ts) && Active(ts, setup) && Partition(ts, setup, loaded, ds, discovery)
    requires t in Offered(ts)
    ensures t.definition in ds <==> t !in Hidden(ts, loaded)
    ensures exists d :: d in ds && d.name == TOOL_SEARCH
  {
    var loader, eager, tail :| ActiveLayout(ts, setup, loaded, ds, loader, eager, tail);
    hide Ascending, Discovery;
    var entry := LoaderEntry(loader, Discovery(ts, loaded, setup));
    assert entry.name == TOOL_SEARCH && entry in ds;
    if t in Hidden(ts, loaded) {
      forall u | u in Eager(ts) || u in Pulled(ts, loaded) ensures u.definition != t.definition {
        assert u.definition.name == t.definition.name ==> u == t;
      }
      assert t.definition !in Definitions(Eager(ts)) && t.definition !in Definitions(Pulled(ts, loaded));
      assert t.definition.name != entry.name;
    } else {
      assert t in Eager(ts) || t in Pulled(ts, loaded);
      assert t.definition in eager || t.definition in tail;
    }
  }

  /** What tool_search is advertised with: its own name and parameters, and the list of what is hidden
      in place of its description, as long as something is. */
  lemma LoaderTells(ts: set<Tool>, setup: Setup, loaded: set<string>, ds: seq<Definition>, discovery: string, d: Definition)
    requires OneName(ts) && Active(ts, setup) && Partition(ts, setup, loaded, ds, discovery)
    requires d in ds && d.name == TOOL_SEARCH
    ensures exists t :: t in ts && Usable(setup, t) && LoaderShown(d, t, setup, Hidden(ts, loaded))
  {
    var loader, eager, tail :| ActiveLayout(ts, setup, loaded, ds, loader, eager, tail);
    assert d !in eager && d !in tail;
    assert d == LoaderEntry(loader, Discovery(ts, loaded, setup));
    assert LoaderShown(d, loader, setup, Hidden(ts, loaded));
  }

  predicate LoaderShown(d: Definition, t: Tool, setup: Setup, hidden: set<Tool>) {
    && d.name == t.definition.name && d.parameters == t.definition.parameters
    && (hidden != {} && setup.describe(hidden) != "" ==> d.description == setup.describe(hidden))
    && (hidden == {} ==> d.description == t.definition.description)
  }

  // ---- how it is computed ----

  /** The cache holds definitions of registered tools, rendered in this turn or an earlier one. */
  predicate CacheFits(cache: map<string, Definition>, tools: seq<Tool>) {
    forall i :: 0 <= i < |tools| && tools[i].definition.name in cache ==>
      cache[tools[i].definition.name] == tools[i].definition
  }

  /** cachedRuntimeToolDefinition. */
  method CachedDefinition(cache: map<string, Definition>, tools: seq<Tool>, i: nat)
    returns (d: Definition, cache': map<string, Definition>)
    requires i < |tools| && Registered(tools) && CacheFits(cache, tools)
    ensures d == tools[i].definition && CacheFits(cache', tools)
  {
    var t := tools[i];
    cache' := cache;
    if t.definition.name in cache {
      return cache[t.definition.name], cache';
    }
    cache' := cache[t.definition.name := t.definition];
    return t.definition, cache';
  }

  /** The definitions of the tools `keep` picks, as the appending loops collect them. */
  method Collect(tools: seq<Tool>, keep: Tool -> bool, cache: map<string, Definition>)
    returns (ds: seq<Definition>, cache': map<string, Definition>)
    requires Registered(tools) && CacheFits(cache, tools)
    ensures CacheFits(cache', tools)
    ensures Lists(ds, set t | t in tools && keep(t))
  {
    hide Ascending;
    var found: seq<Definition> := [];
    cache' := cache;
    for i := 0 to |tools|
      invariant CacheFits(cache', tools)
      invariant forall d :: d in found <==> exists k :: 0 <= k < i && keep(tools[k]) && tools[k].definition == d
      invariant forall a, b :: 0 <= a < b < |found| ==> found[a].name != found[b].name
    {
      if keep(tools[i]) {
        var d: Definition;
        d, cache' := CachedDefinition(cache', tools, i);
        forall a | 0 <= a < |found| ensures found[a].name != d.name {
          assert found[a] in found;
        }
        found := found + [d];
      }
    }
    ds := SortBy(found, NameOf);
    ghost var picked := set t | t in tools && keep(t);
    forall d ensures d in ds <==> d in Definitions(picked) {
      if d in ds {
        var k :| 0 <= k < |tools| && keep(tools[k]) && tools[k].definition == d;
        assert tools[k] in picked;
      }
      if d in Definitions(picked) {
        var t :| t in picked && t.definition == d;
        var k :| 0 <= k < |tools| && tools[k] == t;
      }
    }
  }

  method CountEligible(tools: seq<Tool>) returns (n: nat)
    requires Registered(tools)
    ensures n == |Counted(All(tools))|
  {
    n := 0;
    for i := 0 to |tools|
      invariant n == |Counted(All(tools[..i]))|
    {
      assert tools[..i + 1] == tools[..i] + [tools[i]];
      var before, after := Counted(All(tools[..i])), Counted(All(tools[..i + 1]));
      if tools[i].visible && tools[i].eligible {
        assert after == before + {tools[i]};
        assert tools[i] !in before;
        n := n + 1;
      } else {
        assert after == before;
      }
    }
    assert tools[..|tools|] == tools;
  }

  /** registry.Get(tool_search), usable or not. */
  method FindLoader(tools: seq<Tool>, setup: Setup) returns (loader: Option<Tool>)
    ensures loader.Some? ==> loader.value in All(tools) && Usable(setup, loader.value)
    ensures loader.None? ==> forall t :: t in All(tools) ==> !Usable(setup, t)
  {
    for i := 0 to |tools|
      invariant forall k :: 0 <= k < i ==> !Usable(setup, tools[k])
    {
      if Usable(setup, tools[i]) {
        return Some(tools[i]);
      }
    }
    return None;
  }

  /** partitionToolsCached, on any enumeration of the registry and any cache an earlier turn left. */
  method PartitionToolsCached(tools: seq<Tool>, setup: Setup, loaded: set<string>, cache: map<string, Definition>)
    returns (ds: seq<Definition>, discovery: string, cache': map<string, Definition>)
    requires Registered(tools) && CacheFits(cache, tools)
    ensures Partition(All(tools), setup, loaded, ds, discovery)
    ensures CacheFits(cache', tools)
  {
    hide Lists, CacheFits, Registered;
    ghost var ts := All(tools);
    var eligible := CountEligible(tools);
    var loader := FindLoader(tools, setup);
    if !(setup.threshold > 0 && eligible >= setup.threshold && loader.Some?) {
      var keep := (t: Tool) => t.visible && !IsLoader(t);
      ds, cache' := Collect(tools, keep, cache);
      assert (set t | t in tools && keep(t)) == Offered(ts);
      discovery := "";
      return;
    }
    var keepEager := (t: Tool) => t.visible && !IsLoader(t) && !t.deferred;
    var keepLoaded := (t: Tool) => t.visible && !IsLoader(t) && t.deferred && t.definition.name in loaded;
    var eager, tail: seq<Definition>;
    eager, cache' := Collect(tools, keepEager, cache);
    assert (set t | t in tools && keepEager(t)) == Eager(ts);
    tail, cache' := Collect(tools, keepLoaded, cache');
    assert (set t | t in tools && keepLoaded(t)) == Pulled(ts, loaded);
    var hidden := set t | t in tools && t.visible && !IsLoader(t) && t.deferred && t.definition.name !in loaded;
    assert hidden == Hidden(ts, loaded);
    discovery := if hidden == {} then "" else setup.describe(hidden);
    var entry := LoaderEntry(loader.value, discovery);
    ds := eager + [entry] + tail;
    assert ActiveLayout(ts, setup, loaded, ds, loader.value, eager, tail);
  }
}
