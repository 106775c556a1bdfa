/** Choice of a cloud provider by capacity, platform and priority (infra/cloud/provider_selection.py). */
module ProviderSelection {
  import opened Prelude

  datatype Adapter = Adapter(name: Provider, platformChecks: seq<string -> bool>)

  datatype ProviderConfig = ProviderConfig(maxNodes: int, priority: int)

  type Configs = map<Provider, ProviderConfig>
  type Counts = map<Provider, nat>

  function CountOf(counts: Counts, name: Provider): nat {
    if name in counts then counts[name] else 0
  }

  ghost predicate Supports(adapter: Adapter, platform: string) {
    exists c :: 0 <= c < |adapter.platformChecks| && adapter.platformChecks[c](platform)
  }

  ghost predicate SupportsAny(adapter: Adapter, platforms: seq<string>) {
    exists p :: 0 <= p < |platforms| && Supports(adapter, platforms[p])
  }

  ghost predicate Suitable(adapter: Adapter, configs: Configs, platforms: seq<string>, counts: Counts) {
    && adapter.name in configs
    && CountOf(counts, adapter.name) < configs[adapter.name].maxNodes
    && SupportsAny(adapter, platforms)
  }

  /** Index i holds the first suitable adapter among those of the highest priority. */
  ghost predicate IsChoice(adapters: seq<Adapter>, configs: Configs, platforms: seq<string>, counts: Counts, i: nat) {
    && i < |adapters|
    && Suitable(adapters[i], configs, platforms, counts)
    && forall j :: 0 <= j < |adapters| && Suitable(adapters[j], configs, platforms, counts) ==>
         if j < i then configs[adapters[j].name].priority < configs[adapters[i].name].priority
         else configs[adapters[j].name].priority <= configs[adapters[i].name].priority
  }

  lemma {:induction false} ChoiceIsUnique(adapters: seq<Adapter>, configs: Configs, platforms: seq<string>,
                                          counts: Counts, i: nat, j: nat)
    requires IsChoice(adapters, configs, platforms, counts, i)
    requires IsChoice(adapters, configs, platforms, counts, j)
    ensures i == j
  {
    assert Suitable(adapters[i], configs, platforms, counts);
    assert Suitable(adapters[j], configs, platforms, counts);
  }

  method AdapterSupportsAnyPlatform(adapter: Adapter, platforms: seq<string>) returns (supported: bool)
    ensures supported <==> SupportsAny(adapter, platforms)
  {
    for p := 0 to |platforms|
      invariant forall q :: 0 <= q < p ==> !Supports(adapter, platforms[q])
    {
      for c := 0 to |adapter.platformChecks|
        invariant forall d :: 0 <= d < c ==> !adapter.platformChecks[d](platforms[p])
      {
        if adapter.platformChecks[c](platforms[p]) {
          assert Supports(adapter, platforms[p]);
          return true;
        }
      }
    }
    supported := false;
  }

  /** Stable descending insertion: a new element goes behind every element of at least its key. */
  function InsertDescending(sorted: seq<nat>, key: nat -> int, x: nat): (r: seq<nat>)
    ensures r != [] && r[0] == if sorted == [] || key(sorted[0]) < key(x) then x else sorted[0]
  {
    if sorted == [] || key(sorted[0]) < key(x) then [x] + sorted
    else [sorted[0]] + InsertDescending(sorted[1..], key, x)
  }

  /** Python's sort with reverse=True keeps the order of equal keys. */
  function SortDescending(xs: seq<nat>, key: nat -> int): seq<nat> {
    if xs == [] then []
    else InsertDescending(SortDescending(xs[..|xs| - 1], key), key, xs[|xs| - 1])
  }

  /** Index i holds the first of the greatest elements. */
  predicate IsFirstMax(xs: seq<nat>, key: nat -> int, i: nat) {
    && i < |xs|
    && (forall j :: 0 <= j < i ==> key(xs[j]) < key(xs[i]))
    && (forall j :: i <= j < |xs| ==> key(xs[j]) <= key(xs[i]))
  }

  /** A new last element takes over exactly when it is greater than the greatest so far. */
  lemma FirstMaxAppend(xs: seq<nat>, key: nat -> int, i: nat)
    requires |xs| > 1 && IsFirstMax(xs[..|xs| - 1], key, i)
    ensures IsFirstMax(xs, key, if key(xs[i]) < key(xs[|xs| - 1]) then |xs| - 1 else i)
  {
    var front := xs[..|xs| - 1];
    assert forall j :: 0 <= j < |front| ==> xs[j] == front[j];
  }

  lemma SortAppend(xs: seq<nat>, key: nat -> int)
    requires |xs| > 1 && SortDescending(xs[..|xs| - 1], key) != []
    ensures var best, last := SortDescending(xs[..|xs| - 1], key)[0], xs[|xs| - 1];
            SortDescending(xs, key) != [] && SortDescending(xs, key)[0] == if key(best) < key(last) then last else best
  {
    hide InsertDescending;
  }

  /** The head of the sorted list is the first of the greatest. */
  lemma {:induction false} SortedHead(xs: seq<nat>, key: nat -> int) returns (i: nat)
    requires xs != []
    ensures SortDescending(xs, key) != []
    ensures IsFirstMax(xs, key, i) && xs[i] == SortDescending(xs, key)[0]
  {
    if |xs| == 1 {
      EmptySorts(key);
      i := 0;
    } else {
      hide SortDescending, IsFirstMax;
      var front := xs[..|xs| - 1];
      i := SortedHead(front, key);
      FirstMaxAppend(xs, key, i);
      SortAppend(xs, key);
      FirstMaxIsIndex(front, key, i);
      if key(xs[i]) < key(xs[|xs| - 1]) {
        i := |xs| - 1;
      }
    }
  }

  lemma FirstMaxIsIndex(xs: seq<nat>, key: nat -> int, i: nat)
    requires IsFirstMax(xs, key, i)
    ensures i < |xs|
  {
  }

  lemma EmptySorts(key: nat -> int)
    ensures SortDescending([], key) == []
  {
  }

  /** Positions of the suitable adapters among the first n, in order. */
  ghost function SuitableUpTo(adapters: seq<Adapter>, configs: Configs, platforms: seq<string>, counts: Counts,
                              n: nat): seq<nat>
    requires n <= |adapters|
  {
    if n == 0 then [] else
      var before := SuitableUpTo(adapters, configs, platforms, counts, n - 1);
      if Suitable(adapters[n - 1], configs, platforms, counts) then before + [n - 1] else before
  }

  lemma {:induction false} SuitableUpToIsComplete(adapters: seq<Adapter>, configs: Configs, platforms: seq<string>,
                                                  counts: Counts, n: nat)
    requires n <= |adapters|
    ensures var found := SuitableUpTo(adapters, configs, platforms, counts, n);
            && (forall j :: j in found <==> 0 <= j < n && Suitable(adapters[j], configs, platforms, counts))
            && (forall k, l :: 0 <= k < l < |found| ==> found[k] < found[l])
  {
    if n > 0 {
      SuitableUpToIsComplete(adapters, configs, platforms, counts, n - 1);
      var before := SuitableUpTo(adapters, configs, platforms, counts, n - 1);
      assert forall k :: 0 <= k < |before| ==> before[k] in before;
    }
  }

  method FilterSuitable(adapters: seq<Adapter>, configs: Configs, platforms: seq<string>, counts: Counts)
    returns (suitable: seq<nat>)
    ensures suitable == SuitableUpTo(adapters, configs, platforms, counts, |adapters|)
  {
    suitable := [];
    for i := 0 to |adapters|
      invariant suitable == SuitableUpTo(adapters, configs, platforms, counts, i)
    {
      var adapter := adapters[i];
      if adapter.name !in configs {
        continue;
      }
      if CountOf(counts, adapter.name) >= configs[adapter.name].maxNodes {
        continue;
      }
      var supported := AdapterSupportsAnyPlatform(adapter, platforms);
      if !supported {
        continue;
      }
      suitable := suitable + [i];
    }
  }

  function Priority(adapters: seq<Adapter>, configs: Configs, i: nat): int {
    if i < |adapters| && adapters[i].name in configs then configs[adapters[i].name].priority else 0
  }

  method SelectProviderPure(adapters: seq<Adapter>, configs: Configs, platforms: seq<string>, counts: Counts)
    returns (chosen: Option<nat>)
    ensures chosen.Some? ==> IsChoice(adapters, configs, platforms, counts, chosen.value)
    ensures chosen.None? <==> forall j :: 0 <= j < |adapters| ==> !Suitable(adapters[j], configs, platforms, counts)
  {
    var suitable := FilterSuitable(adapters, configs, platforms, counts);
    SuitableUpToIsComplete(adapters, configs, platforms, counts, |adapters|);
    if suitable == [] {
      return None;
    }
    assert suitable[0] in suitable;
    var key := (i: nat) => Priority(adapters, configs, i);
    var best := SortDescending(suitable, key);
    ghost var at := SortedHead(suitable, key);
    chosen := Some(best[0]);
    assert suitable[at] in suitable;
    forall j | 0 <= j < |adapters| && Suitable(adapters[j], configs, platforms, counts)
      ensures if j < best[0] then Priority(adapters, configs, j) < Priority(adapters, configs, best[0])
              else Priority(adapters, configs, j) <= Priority(adapters, configs, best[0])
    {
      assert j in suitable;
      var k :| 0 <= k < |suitable| && suitable[k] == j;
      assert key(suitable[k]) == Priority(adapters, configs, j);
    }
  }
}
