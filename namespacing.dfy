/** Properties of the hybrid namespacing computed by `ToolAggregator.aggregate_tools`
    (mcp/aggregator.py): which raw names conflict, what name each tool is exposed under,
    and when the exposed names are unique. */
module Namespacing {
  import opened Wrappers
  import opened Strings
  import opened Dicts
  import opened Protocol
  import opened Aggregator

  predicate NamesDistinct(ts: seq<Tool>) {
    forall a, b :: 0 <= a < b < |ts| ==> ts[a].name != ts[b].name
  }

  predicate ColonFree(s: string) {
    ':' !in s
  }

  predicate DistinctProviders(ps: seq<ProviderInfo>) {
    forall i, j :: 0 <= i < j < |ps| ==> ps[i].name != ps[j].name
  }

  // ---------------------------------------------------------------------------------------
  // Counting

  lemma TwoOccurrences(s: seq<string>, i: nat, j: nat)
    requires i < j < |s| && s[i] == s[j]
    ensures multiset(s)[s[i]] >= 2
  {
    assert s == s[..i] + [s[i]] + s[i + 1..j] + [s[j]] + s[j + 1..];
  }

  lemma RepeatedOccurrence(s: seq<string>, n: string)
    requires multiset(s)[n] >= 2
    ensures exists i, j :: 0 <= i < j < |s| && s[i] == n && s[j] == n
  {
    var i :| 0 <= i < |s| && s[i] == n;
    assert s == s[..i] + [n] + s[i + 1..];
    assert multiset(s[..i] + s[i + 1..])[n] >= 1;
    assert n in s[..i] + s[i + 1..];
    var k :| 0 <= k < |s[..i] + s[i + 1..]| && (s[..i] + s[i + 1..])[k] == n;
    if k < i {
      assert s[k] == n;
    } else {
      assert s[k + 1] == n;
    }
  }

  /** A raw name conflicts exactly when it occurs at two different places among all the
      listings step 1 kept. */
  lemma ConflictIffRepeated(pt: Dict<string, seq<Tool>>, n: string)
    ensures n in ConflictSet(pt) <==>
      exists i, j :: 0 <= i < j < |AllNames(pt)| && AllNames(pt)[i] == n && AllNames(pt)[j] == n
  {
    var s := AllNames(pt);
    assert n in ConflictSet(pt) <==> n in s && multiset(s)[n] > 1;
    if n in ConflictSet(pt) {
      RepeatedOccurrence(s, n);
    }
    forall i, j | 0 <= i < j < |s| && s[i] == n && s[j] == n ensures n in ConflictSet(pt) {
      TwoOccurrences(s, i, j);
      assert s[i] in s;
    }
  }

  lemma {:induction false} ListingInAllNames(pt: Dict<string, seq<Tool>>, i: nat)
    requires i < |pt|
    ensures multiset(Names(pt[i].1)) <= multiset(AllNames(pt))
    decreases |pt|
  {
    var init := pt[..|pt| - 1];
    if i < |pt| - 1 {
      assert init[i] == pt[i];
      ListingInAllNames(init, i);
    }
  }

  lemma {:induction false} TwoListingsInAllNames(pt: Dict<string, seq<Tool>>, i: nat, j: nat)
    requires i < j < |pt|
    ensures multiset(Names(pt[i].1)) + multiset(Names(pt[j].1)) <= multiset(AllNames(pt))
    decreases |pt|
  {
    var init := pt[..|pt| - 1];
    assert init[i] == pt[i];
    if j == |pt| - 1 {
      ListingInAllNames(init, i);
    } else {
      assert init[j] == pt[j];
      TwoListingsInAllNames(init, i, j);
    }
  }

  /** The same name listed twice by one provider is a conflict. */
  lemma RepeatedInOneListing(pt: Dict<string, seq<Tool>>, i: nat, a: nat, b: nat)
    requires i < |pt| && a < b < |pt[i].1| && pt[i].1[a].name == pt[i].1[b].name
    ensures pt[i].1[a].name in ConflictSet(pt)
  {
    var n := pt[i].1[a].name;
    TwoOccurrences(Names(pt[i].1), a, b);
    ListingInAllNames(pt, i);
    assert multiset(AllNames(pt))[n] >= 2;
  }

  /** A name listed by two different entries of `provider_tools` is a conflict. */
  lemma InTwoListings(pt: Dict<string, seq<Tool>>, i: nat, j: nat, a: nat, b: nat)
    requires i < j < |pt| && a < |pt[i].1| && b < |pt[j].1| && pt[i].1[a].name == pt[j].1[b].name
    ensures pt[i].1[a].name in ConflictSet(pt)
  {
    var n := pt[i].1[a].name;
    assert Names(pt[i].1)[a] == n && Names(pt[j].1)[b] == n;
    TwoListingsInAllNames(pt, i, j);
    assert multiset(AllNames(pt))[n] >= 2;
  }

  /** With distinct provider names nothing is overwritten in step 1, so the i-th entry of
      `provider_tools` holds the i-th provider's listing. */
  lemma DistinctProviderTools(ps: seq<ProviderInfo>, listings: seq<Result<seq<Tool>>>)
    requires |listings| == |ps| && DistinctProviders(ps)
    ensures ProviderTools(ps, listings) == ToolEntries(ps, listings)
    ensures UniqueKeys(ProviderTools(ps, listings))
    ensures forall i :: 0 <= i < |ps| ==> ToolsOf(ProviderTools(ps, listings), ps[i]) == Listed(listings[i])
  {
    var entries := ToolEntries(ps, listings);
    PutAllFresh([], entries);
    forall i | 0 <= i < |ps| ensures ToolsOf(entries, ps[i]) == Listed(listings[i]) {
      GetAt(entries, i);
    }
  }

  // ---------------------------------------------------------------------------------------
  // Exposed names

  /** Splitting at the last ':' when both suffixes are colon-free. */
  lemma SplitAtLastColon(x: string, a: string, y: string, b: string)
    requires ColonFree(a) && ColonFree(b)
    ensures x + ":" + a == y + ":" + b ==> x == y && a == b
  {
    var s := x + ":" + a;
    if s == y + ":" + b {
      assert s[|x|] == ':' && s[|y|] == ':';
      assert forall k :: |x| < k < |s| ==> s[k] == a[k - |x| - 1];
      assert forall k :: |y| < k < |s| ==> s[k] == b[k - |y| - 1];
      assert |x| == |y|;
      assert x == s[..|x|] && y == s[..|y|];
      assert a == s[|x| + 1..] && b == s[|y| + 1..];
    }
  }

  /** Splitting at the first ':' when both prefixes are colon-free. */
  lemma SplitAtFirstColon(x: string, a: string, y: string, b: string)
    requires ColonFree(x) && ColonFree(y)
    ensures x + ":" + a == y + ":" + b ==> x == y && a == b
  {
    var s := x + ":" + a;
    if s == y + ":" + b {
      assert s[|x|] == ':' && s[|y|] == ':';
      assert forall k :: 0 <= k < |x| ==> s[k] == x[k];
      assert forall k :: 0 <= k < |y| ==> s[k] == y[k];
      assert |x| == |y|;
      assert x == s[..|x|] && y == s[..|y|];
      assert a == s[|x| + 1..] && b == s[|y| + 1..];
    }
  }

  lemma ColonAt(x: string, a: string)
    ensures !ColonFree(x + ":" + a)
  {
    assert (x + ":" + a)[|x|] == ':';
  }

  /** One provider exposes distinct raw names under distinct names. */
  lemma ExposedInjective(p: string, a: string, b: string, conflicts: set<string>)
    requires ColonFree(a) && ColonFree(b) && a != b
    ensures Exposed(p, a, conflicts) != Exposed(p, b, conflicts)
  {
    SplitAtLastColon(p, a, p, b);
    ColonAt(p, a);
    ColonAt(p, b);
  }

  /** Tools of two different providers are exposed under different names, unless the same
      raw name is exposed bare by both, which only a non-conflicting name could be. */
  lemma ExposedAcrossProviders(q: string, a: string, p: string, b: string, conflicts: set<string>)
    requires q != p && ColonFree(a) && ColonFree(b)
    requires a == b ==> a in conflicts
    ensures Exposed(q, a, conflicts) != Exposed(p, b, conflicts)
  {
    SplitAtLastColon(q, a, p, b);
    ColonAt(q, a);
    ColonAt(p, b);
  }

  /** Every aggregated tool is the enrichment of some listed tool of some provider. */
  lemma {:induction false} AggregatedOrigin(ps: seq<ProviderInfo>, pt: Dict<string, seq<Tool>>,
                                           conflicts: set<string>, x: nat)
    requires x < |Aggregated(ps, pt, conflicts)|
    ensures exists i, k :: (0 <= i < |ps| && 0 <= k < |ToolsOf(pt, ps[i])|
                            && Aggregated(ps, pt, conflicts)[x] == Enrich(ps[i], ToolsOf(pt, ps[i])[k], conflicts))
    decreases |ps|
  {
    var n := |ps| - 1;
    var init := ps[..n];
    var front := Aggregated(init, pt, conflicts);
    if x < |front| {
      AggregatedOrigin(init, pt, conflicts, x);
      var i, k :| 0 <= i < |init| && 0 <= k < |ToolsOf(pt, init[i])|
        && front[x] == Enrich(init[i], ToolsOf(pt, init[i])[k], conflicts);
      assert init[i] == ps[i];
    } else {
      var k := x - |front|;
      assert Aggregated(ps, pt, conflicts)[x] == EnrichAll(ps[n], ToolsOf(pt, ps[n]), conflicts)[k];
    }
  }

  /** Exposed names are unique when provider names are distinct, each listing names its
      tools distinctly, no raw name contains ':' and a name shared by two providers is a
      conflict. */
  lemma {:induction false} AggregatedUnique(ps: seq<ProviderInfo>, pt: Dict<string, seq<Tool>>,
                                           conflicts: set<string>)
    requires DistinctProviders(ps)
    requires forall i :: 0 <= i < |ps| ==> NamesDistinct(ToolsOf(pt, ps[i]))
    requires forall i, k :: 0 <= i < |ps| && 0 <= k < |ToolsOf(pt, ps[i])| ==> ColonFree(ToolsOf(pt, ps[i])[k].name)
    requires forall i, j, a, b ::
      (0 <= i < j < |ps| && 0 <= a < |ToolsOf(pt, ps[i])| && 0 <= b < |ToolsOf(pt, ps[j])|
       && ToolsOf(pt, ps[i])[a].name == ToolsOf(pt, ps[j])[b].name) ==> ToolsOf(pt, ps[i])[a].name in conflicts
    ensures NamesDistinct(Aggregated(ps, pt, conflicts))
    decreases |ps|
  {
    if ps != [] {
      var n := |ps| - 1;
      var init, p := ps[..n], ps[n];
      assert forall i :: 0 <= i < |init| ==> init[i] == ps[i];
      AggregatedUnique(init, pt, conflicts);
      var front := Aggregated(init, pt, conflicts);
      var tools := ToolsOf(pt, p);
      var seg := EnrichAll(p, tools, conflicts);
      SegmentUnique(p, tools, conflicts);
      forall x, y | 0 <= x < |front| && 0 <= y < |seg| ensures front[x].name != seg[y].name {
        FrontApart(ps, pt, conflicts, x, y);
      }
      assert Aggregated(ps, pt, conflicts) == front + seg;
      ConcatDistinct(front, seg);
    }
  }

  /** One provider's tools get distinct exposed names. */
  lemma SegmentUnique(p: ProviderInfo, tools: seq<Tool>, conflicts: set<string>)
    requires NamesDistinct(tools) && forall k :: 0 <= k < |tools| ==> ColonFree(tools[k].name)
    ensures NamesDistinct(EnrichAll(p, tools, conflicts))
  {
    var seg := EnrichAll(p, tools, conflicts);
    forall a, b | 0 <= a < b < |seg| ensures seg[a].name != seg[b].name {
      ExposedInjective(p.name, tools[a].name, tools[b].name, conflicts);
    }
  }

  /** A tool of an earlier provider and one of the last provider get different names. */
  lemma FrontApart(ps: seq<ProviderInfo>, pt: Dict<string, seq<Tool>>, conflicts: set<string>, x: nat, y: nat)
    requires |ps| > 0 && DistinctProviders(ps)
    requires forall i, k :: 0 <= i < |ps| && 0 <= k < |ToolsOf(pt, ps[i])| ==> ColonFree(ToolsOf(pt, ps[i])[k].name)
    requires forall i, j, a, b ::
      (0 <= i < j < |ps| && 0 <= a < |ToolsOf(pt, ps[i])| && 0 <= b < |ToolsOf(pt, ps[j])|
       && ToolsOf(pt, ps[i])[a].name == ToolsOf(pt, ps[j])[b].name) ==> ToolsOf(pt, ps[i])[a].name in conflicts
    requires x < |Aggregated(ps[..|ps| - 1], pt, conflicts)| && y < |ToolsOf(pt, ps[|ps| - 1])|
    ensures Aggregated(ps[..|ps| - 1], pt, conflicts)[x].name != Enrich(ps[|ps| - 1], ToolsOf(pt, ps[|ps| - 1])[y], conflicts).name
  {
    var n := |ps| - 1;
    var init, p := ps[..n], ps[n];
    var tools := ToolsOf(pt, p);
    AggregatedOrigin(init, pt, conflicts, x);
    var i, k :| 0 <= i < |init| && 0 <= k < |ToolsOf(pt, init[i])|
      && Aggregated(init, pt, conflicts)[x] == Enrich(init[i], ToolsOf(pt, init[i])[k], conflicts);
    assert init[i] == ps[i];
    ExposedAcrossProviders(ps[i].name, ToolsOf(pt, ps[i])[k].name, p.name, tools[y].name, conflicts);
  }

  lemma ConcatDistinct(front: seq<Tool>, seg: seq<Tool>)
    requires NamesDistinct(front) && NamesDistinct(seg)
    requires forall x, y :: 0 <= x < |front| && 0 <= y < |seg| ==> front[x].name != seg[y].name
    ensures NamesDistinct(front + seg)
  {
    var all := front + seg;
    forall a, b | 0 <= a < b < |all| ensures all[a].name != all[b].name {
      if b < |front| {
        assert all[a] == front[a] && all[b] == front[b];
      } else if a < |front| {
        assert all[a] == front[a] && all[b] == seg[b - |front|];
      } else {
        assert all[a] == seg[a - |front|] && all[b] == seg[b - |front|];
      }
    }
  }

  /** Under the same conditions, stated on what the providers listed: `aggregate_tools`
      returns tools with pairwise distinct names. */
  lemma ExposedNamesUnique(ps: seq<ProviderInfo>, listings: seq<Result<seq<Tool>>>)
    requires |listings| == |ps| && DistinctProviders(ps)
    requires forall i :: 0 <= i < |ps| ==> NamesDistinct(Listed(listings[i]))
    requires forall i, k :: 0 <= i < |ps| && 0 <= k < |Listed(listings[i])| ==> ColonFree(Listed(listings[i])[k].name)
    ensures var pt := ProviderTools(ps, listings);
      NamesDistinct(Aggregated(ps, pt, ConflictSet(pt)))
  {
    var pt := ProviderTools(ps, listings);
    DistinctProviderTools(ps, listings);
    forall i, j, a, b | 0 <= i < j < |ps| && 0 <= a < |ToolsOf(pt, ps[i])| && 0 <= b < |ToolsOf(pt, ps[j])|
      && ToolsOf(pt, ps[i])[a].name == ToolsOf(pt, ps[j])[b].name
      ensures ToolsOf(pt, ps[i])[a].name in ConflictSet(pt)
    {
      assert pt[i].1 == ToolsOf(pt, ps[i]) && pt[j].1 == ToolsOf(pt, ps[j]);
      InTwoListings(pt, i, j, a, b);
    }
    AggregatedUnique(ps, pt, ConflictSet(pt));
  }

  /** A tool whose raw name does not conflict is never exposed as `p:name` when provider
      and raw names are colon-free. */
  lemma NoNamespacedFormForUnique(ps: seq<ProviderInfo>, pt: Dict<string, seq<Tool>>,
                                  conflicts: set<string>, p: string, t: string)
    requires forall i :: 0 <= i < |ps| ==> ColonFree(ps[i].name)
    requires forall i, k :: 0 <= i < |ps| && 0 <= k < |ToolsOf(pt, ps[i])| ==> ColonFree(ToolsOf(pt, ps[i])[k].name)
    requires ColonFree(p) && t !in conflicts
    ensures forall x :: 0 <= x < |Aggregated(ps, pt, conflicts)| ==> Aggregated(ps, pt, conflicts)[x].name != p + ":" + t
  {
    forall x | 0 <= x < |Aggregated(ps, pt, conflicts)| ensures Aggregated(ps, pt, conflicts)[x].name != p + ":" + t {
      AggregatedOrigin(ps, pt, conflicts, x);
      var i, k :| 0 <= i < |ps| && 0 <= k < |ToolsOf(pt, ps[i])|
        && Aggregated(ps, pt, conflicts)[x] == Enrich(ps[i], ToolsOf(pt, ps[i])[k], conflicts);
      SplitAtFirstColon(ps[i].name, ToolsOf(pt, ps[i])[k].name, p, t);
      ColonAt(p, t);
    }
  }

  /** A colon-free conflicting name is never exposed bare. */
  lemma ConflictNeverBare(ps: seq<ProviderInfo>, pt: Dict<string, seq<Tool>>, conflicts: set<string>, n: string)
    requires ColonFree(n) && n in conflicts
    ensures forall x :: 0 <= x < |Aggregated(ps, pt, conflicts)| ==> Aggregated(ps, pt, conflicts)[x].name != n
  {
    forall x | 0 <= x < |Aggregated(ps, pt, conflicts)| ensures Aggregated(ps, pt, conflicts)[x].name != n {
      AggregatedOrigin(ps, pt, conflicts, x);
      var i, k :| 0 <= i < |ps| && 0 <= k < |ToolsOf(pt, ps[i])|
        && Aggregated(ps, pt, conflicts)[x] == Enrich(ps[i], ToolsOf(pt, ps[i])[k], conflicts);
      ColonAt(ps[i].name, ToolsOf(pt, ps[i])[k].name);
    }
  }

  /** After aggregating into empty maps with unique exposed names, each exposed name looks
      up its own tool and its own provider. */
  lemma LookupAfterAggregation(tools: seq<Tool>, x: nat)
    requires NamesDistinct(tools) && x < |tools|
    ensures Get(PutAll([], CacheEntries(tools)), tools[x].name) == Some(tools[x])
    ensures Get(PutAll([], OwnerEntries(tools)), tools[x].name) == Some(tools[x].provider.GetOr(""))
  {
    GetPutAll([], CacheEntries(tools), tools[x].name);
    GetPutAll([], OwnerEntries(tools), tools[x].name);
    LastAssignedUnique(CacheEntries(tools), x, None);
    LastAssignedUnique(OwnerEntries(tools), x, None);
  }

  /** Re-aggregation only adds or overwrites map entries: a name exposed by an earlier
      aggregation is still found afterwards. */
  lemma StaleNamesPersist(d: Dict<string, string>, tools: seq<Tool>, name: string)
    requires name in Keys(d)
    ensures name in Keys(PutAll(d, OwnerEntries(tools)))
  {
    GetPutAll(d, OwnerEntries(tools), name);
    LastAssignedKeepsSome(OwnerEntries(tools), name, Get(d, name));
  }

  lemma {:induction false} LastAssignedKeepsSome(kvs: seq<(string, string)>, k: string, prior: Option<string>)
    requires prior.Some?
    ensures LastAssigned(kvs, k, prior).Some?
    decreases |kvs|
  {
    if kvs != [] && kvs[|kvs| - 1].0 != k {
      LastAssignedKeepsSome(kvs[..|kvs| - 1], k, prior);
    }
  }

  /** A name that no aggregated tool carries and that was not in the map before stays
      absent. */
  lemma AbsentStaysAbsent(d: Dict<string, string>, tools: seq<Tool>, name: string)
    requires name !in Keys(d)
    requires forall x :: 0 <= x < |tools| ==> tools[x].name != name
    ensures name !in Keys(PutAll(d, OwnerEntries(tools)))
  {
    GetPutAll(d, OwnerEntries(tools), name);
    LastAssignedAbsent(OwnerEntries(tools), name, Get(d, name));
  }

  /** Every name counted in step 2 is the raw name of some listed tool. */
  lemma {:induction false} AllNamesOrigin(pt: Dict<string, seq<Tool>>, n: string)
    requires n in AllNames(pt)
    ensures exists i, k :: 0 <= i < |pt| && 0 <= k < |pt[i].1| && pt[i].1[k].name == n
    decreases |pt|
  {
    var m := |pt| - 1;
    if n in AllNames(pt[..m]) {
      AllNamesOrigin(pt[..m], n);
      var i, k :| 0 <= i < m && 0 <= k < |pt[..m][i].1| && pt[..m][i].1[k].name == n;
      assert pt[..m][i] == pt[i];
    } else {
      assert n in Names(pt[m].1);
      var k :| 0 <= k < |pt[m].1| && Names(pt[m].1)[k] == n;
    }
  }
}
