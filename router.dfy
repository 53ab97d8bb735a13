/** Tool and resource routing (mcp/router.py): resolve an exposed tool name or a
    provider-prefixed uri to the provider that serves it and the name or uri that provider
    knows. Sending the call is the provider's business; the routers return the dispatch
    they make. */
module Router {
  import opened Wrappers
  import opened Strings
  import opened Dicts
  import opened Protocol
  import opened Aggregator
  import opened Namespacing

  /** The gateway's `providers` dict. The gateway and both routers hold the same object,
      so a provider the gateway drops is no longer routable. */
  class ProviderTable {
    var entries: Dict<string, ProviderInfo>

    constructor()
      ensures entries == []
    {
      entries := [];
    }
  }

  /** The call a router hands to a provider. */
  datatype Dispatch =
    | CallTool(provider: string, tool: string, arguments: Json)
    | ReadResource(provider: string, uri: string)

  /** `name.split(":", 1)` for a name containing ':' (it always has two parts). */
  function SplitName(name: string): (r: (string, string))
    requires ':' in name
    ensures ColonFree(r.0) && name == r.0 + ":" + r.1
  {
    ContainsChar(name, ':');
    var (before, after) := SplitOnce(name, ":").value;
    ContainsChar(before, ':');
    (before, after)
  }

  function NotAvailable(providerName: string): Error {
    RuntimeError("Provider '" + providerName + "' not available or not connected")
  }

  class ToolRouter {
    const providers: ProviderTable
    const aggregator: ToolAggregator

    constructor(providers: ProviderTable, aggregator: ToolAggregator)
      ensures this.providers == providers && this.aggregator == aggregator
    {
      this.providers := providers;
      this.aggregator := aggregator;
    }

    /** `_parse_tool_name`: a name with ':' must be a key of the provider map owned by the
        provider before the first ':'; a bare name is looked up as is. Every failure is a
        ValueError. */
    function ParseToolName(toolName: string): (r: Result<(string, string)>)
      reads aggregator
      ensures ':' in toolName ==>
        (r.Ok? <==> Get(aggregator.providerMap, toolName) == Some(SplitName(toolName).0))
      ensures ':' in toolName && r.Ok? ==> r.value == SplitName(toolName)
      ensures ':' in toolName && toolName !in Keys(aggregator.providerMap) ==>
        r == Err(ValueError(if toolName in aggregator.conflicts then AmbiguityMessage(toolName)
                            else "Tool '" + toolName + "' not found"))
      ensures ':' !in toolName ==> (r.Ok? <==> toolName in Keys(aggregator.providerMap))
      ensures ':' !in toolName && r.Ok? ==> r.value == (Get(aggregator.providerMap, toolName).value, toolName)
      ensures ':' !in toolName && toolName !in Keys(aggregator.providerMap) ==>
        r == Err(ValueError(if toolName in aggregator.conflicts then AmbiguityMessage(toolName)
                            else "Tool '" + toolName + "' not found. Use 'tools/list' to see available tools."))
      ensures r.Err? ==> r.error.ValueError?
    {
      var lookup := aggregator.GetProviderForTool(toolName);
      if ':' in toolName then
        var (providerName, actualToolName) := SplitName(toolName);
        if lookup.Ok? then
          if lookup.value != providerName then
            Err(ValueError("Tool '" + toolName + "' does not belong to provider '" + providerName + "'"))
          else Ok((providerName, actualToolName))
        else if lookup.error.KeyError? then Err(ValueError("Tool '" + toolName + "' not found"))
        else Err(lookup.error)
      else if lookup.Ok? then Ok((lookup.value, toolName))
      else if lookup.error.ValueError? then Err(ValueError(lookup.error.msg))
      else Err(ValueError("Tool '" + toolName + "' not found. Use 'tools/list' to see available tools."))
    }

    /** `route_tool_call`: resolve, then dispatch only to a provider that is in the table. */
    function RouteToolCall(toolName: string, arguments: Json): (r: Result<Dispatch>)
      reads providers, aggregator
      ensures ParseToolName(toolName).Err? ==> r == Err(ParseToolName(toolName).error)
      ensures ParseToolName(toolName).Ok? ==>
        var (p, t) := ParseToolName(toolName).value;
        r == if p in Keys(providers.entries) then Ok(CallTool(p, t, arguments)) else Err(NotAvailable(p))
    {
      var parsed :- ParseToolName(toolName);
      var (providerName, actualToolName) := parsed;
      if providerName !in Keys(providers.entries) then Err(NotAvailable(providerName))
      else Ok(CallTool(providerName, actualToolName, arguments))
    }
  }

  /** `_parse_tool_name` given a value that is not a string, as a JSON request can pass one:
      `":" in tool_name` raises TypeError for a scalar; a list or dict holding ":" reaches
      `tool_name.split`, which raises AttributeError; any other list or dict reaches the
      aggregator's `tool_name in self._provider_map`, which cannot hash it. Neither error is
      one the router or the gateway catches. */
  function ParseNonStringName(name: Json): (r: Error)
    requires !name.JStr?
    ensures PyIn(":", name).Err? ==> r == PyIn(":", name).error
    ensures PyIn(":", name) == Ok(true) ==> r == AttributeError("'" + TypeName(name) + "' object has no attribute 'split'")
    ensures PyIn(":", name) == Ok(false) ==> r == TypeError("unhashable type: '" + TypeName(name) + "'")
    ensures r.TypeError? || r.AttributeError?
  {
    match PyIn(":", name)
    case Err(e) => e
    case Ok(found) =>
      if found then AttributeError("'" + TypeName(name) + "' object has no attribute 'split'")
      else TypeError("unhashable type: '" + TypeName(name) + "'")
  }

  /** `route_resource_read` given a value that is not a string: the aggregator's ValueError
      is wrapped as for a string uri, and its other errors pass through. */
  function RouteNonStringUri(uri: Json): (r: Error)
    requires !uri.JStr?
    ensures ProviderForNonStringUri(uri).ValueError? ==>
      r == ValueError("Invalid resource URI: " + ProviderForNonStringUri(uri).msg)
    ensures !ProviderForNonStringUri(uri).ValueError? ==> r == ProviderForNonStringUri(uri)
  {
    var e := ProviderForNonStringUri(uri);
    if e.ValueError? then ValueError("Invalid resource URI: " + e.msg) else e
  }

  class ResourceRouter {
    const providers: ProviderTable
    const aggregator: ResourceAggregator

    constructor(providers: ProviderTable, aggregator: ResourceAggregator)
      ensures this.providers == providers && this.aggregator == aggregator
    {
      this.providers := providers;
      this.aggregator := aggregator;
    }

    /** `route_resource_read`: an invalid uri is reported with the prefix
        "Invalid resource URI: "; a known scheme whose provider is not in the table is a
        RuntimeError; otherwise the provider receives the uri with its scheme stripped. */
    function RouteResourceRead(uri: string): (r: Result<Dispatch>)
      reads providers, aggregator
      ensures aggregator.GetProviderForUri(uri).Err? ==>
        r == Err(ValueError("Invalid resource URI: " + aggregator.GetProviderForUri(uri).error.msg))
      ensures aggregator.GetProviderForUri(uri).Ok? ==>
        var p := aggregator.GetProviderForUri(uri).value;
        r == if p in Keys(providers.entries) then Ok(ReadResource(p, StripProviderPrefix(uri)))
             else Err(NotAvailable(p))
      ensures r.Ok? ==> uri == SplitOnce(uri, "://").value.0 + "://" + r.value.uri
    {
      match aggregator.GetProviderForUri(uri)
      case Err(e) => Err(ValueError("Invalid resource URI: " + e.msg))
      case Ok(providerName) =>
        if providerName !in Keys(providers.entries) then Err(NotAvailable(providerName))
        else Ok(ReadResource(providerName, StripProviderPrefix(uri)))
    }
  }

  // ---------------------------------------------------------------------------------------
  // Routing after one aggregation

  /** What providers report: distinct colon-free provider names, and listings whose raw
      names are colon-free and distinct within the listing. */
  ghost predicate WellNamed(ps: seq<ProviderInfo>, listings: seq<Result<seq<Tool>>>) {
    && |listings| == |ps| && DistinctProviders(ps)
    && (forall i :: 0 <= i < |ps| ==> ColonFree(ps[i].name))
    && (forall i :: 0 <= i < |ps| ==> NamesDistinct(Listed(listings[i])))
    && (forall i, k :: 0 <= i < |ps| && 0 <= k < |Listed(listings[i])| ==> ColonFree(Listed(listings[i])[k].name))
  }

  /** The aggregator's maps after one `aggregate_tools` call on empty maps. */
  ghost predicate FreshlyAggregated(agg: ToolAggregator, ps: seq<ProviderInfo>, listings: seq<Result<seq<Tool>>>)
    requires |listings| == |ps|
    reads agg
  {
    var pt := ProviderTools(ps, listings);
    agg.conflicts == ConflictSet(pt)
    && agg.providerMap == PutAll([], OwnerEntries(Aggregated(ps, pt, ConflictSet(pt))))
  }

  /** Every exposed name routes back to the provider that listed the tool and to the raw
      name that provider knows it by. */
  lemma RoutesEveryExposedName(r: ToolRouter, ps: seq<ProviderInfo>, listings: seq<Result<seq<Tool>>>, x: nat)
    requires WellNamed(ps, listings) && FreshlyAggregated(r.aggregator, ps, listings)
    requires x < |Aggregated(ps, ProviderTools(ps, listings), ConflictSet(ProviderTools(ps, listings)))|
    ensures var pt := ProviderTools(ps, listings);
      var exposed := Aggregated(ps, pt, ConflictSet(pt))[x];
      exists i, k :: 0 <= i < |ps| && 0 <= k < |Listed(listings[i])|
        && exposed == Enrich(ps[i], Listed(listings[i])[k], ConflictSet(pt))
        && r.ParseToolName(exposed.name) == Ok((ps[i].name, Listed(listings[i])[k].name))
  {
    var pt := ProviderTools(ps, listings);
    var C := ConflictSet(pt);
    var A := Aggregated(ps, pt, C);
    ExposedNamesUnique(ps, listings);
    var i, k := ExposedOrigin(ps, listings, x);
    RouteOne(r, A, x, ps[i], Listed(listings[i])[k], C);
  }

  /** The provider and listed tool an aggregated tool comes from. */
  lemma ExposedOrigin(ps: seq<ProviderInfo>, listings: seq<Result<seq<Tool>>>, x: nat) returns (i: nat, k: nat)
    requires |listings| == |ps| && DistinctProviders(ps)
    requires x < |Aggregated(ps, ProviderTools(ps, listings), ConflictSet(ProviderTools(ps, listings)))|
    ensures var pt := ProviderTools(ps, listings);
      i < |ps| && k < |Listed(listings[i])|
      && Aggregated(ps, pt, ConflictSet(pt))[x] == Enrich(ps[i], Listed(listings[i])[k], ConflictSet(pt))
  {
    var pt := ProviderTools(ps, listings);
    var C := ConflictSet(pt);
    DistinctProviderTools(ps, listings);
    AggregatedOrigin(ps, pt, C, x);
    i, k :| 0 <= i < |ps| && 0 <= k < |ToolsOf(pt, ps[i])| && Aggregated(ps, pt, C)[x] == Enrich(ps[i], ToolsOf(pt, ps[i])[k], C);
  }

  /** With distinct exposed names recorded in a fresh provider map, the exposed name of a
      colon-free tool of a colon-free provider resolves to that provider and raw name. */
  lemma RouteOne(r: ToolRouter, A: seq<Tool>, x: nat, p: ProviderInfo, t: Tool, C: set<string>)
    requires NamesDistinct(A) && x < |A| && r.aggregator.providerMap == PutAll([], OwnerEntries(A))
    requires A[x] == Enrich(p, t, C) && ColonFree(p.name) && ColonFree(t.name)
    ensures r.ParseToolName(A[x].name) == Ok((p.name, t.name))
  {
    LookupAfterAggregation(A, x);
    ParseOwnedName(r, A[x].name, p.name, t.name);
  }

  /** A name the provider map assigns to `p` that is `p:t` (with `p` colon-free) or the
      colon-free `t` itself resolves to `(p, t)`. */
  lemma ParseOwnedName(r: ToolRouter, name: string, p: string, t: string)
    requires Get(r.aggregator.providerMap, name) == Some(p)
    requires (ColonFree(p) && name == p + ":" + t) || (ColonFree(t) && name == t)
    ensures r.ParseToolName(name) == Ok((p, t))
  {
    if ColonFree(p) && name == p + ":" + t {
      ColonAt(p, t);
      SplitAtFirstColon(SplitName(name).0, SplitName(name).1, p, t);
    }
  }

  /** The tools the aggregation counted are the listings, whose names are colon-free. */
  lemma ListingsColonFree(ps: seq<ProviderInfo>, listings: seq<Result<seq<Tool>>>)
    requires WellNamed(ps, listings)
    ensures var pt := ProviderTools(ps, listings);
      forall i, k :: 0 <= i < |ps| && 0 <= k < |ToolsOf(pt, ps[i])| ==> ColonFree(ToolsOf(pt, ps[i])[k].name)
  {
    var pt := ProviderTools(ps, listings);
    DistinctProviderTools(ps, listings);
    forall i, k | 0 <= i < |ps| && 0 <= k < |ToolsOf(pt, ps[i])| ensures ColonFree(ToolsOf(pt, ps[i])[k].name) {
      assert ToolsOf(pt, ps[i]) == Listed(listings[i]);
    }
  }

  /** So is every conflicting name. */
  lemma ConflictsColonFree(ps: seq<ProviderInfo>, listings: seq<Result<seq<Tool>>>, n: string)
    requires WellNamed(ps, listings)
    ensures n in ConflictSet(ProviderTools(ps, listings)) ==> ColonFree(n)
  {
    var pt := ProviderTools(ps, listings);
    if n in ConflictSet(pt) {
      AllNamesOrigin(pt, n);
      var i, k :| 0 <= i < |pt| && 0 <= k < |pt[i].1| && pt[i].1[k].name == n;
      assert pt[i].1 == Listed(listings[i]) by {
        DistinctProviderTools(ps, listings);
      }
    }
  }

  /** A namespaced form of a name that does not conflict is not found, even when the
      provider exists and lists that tool: unique tools are stored bare only. */
  lemma NamespacedUniqueNotFound(r: ToolRouter, ps: seq<ProviderInfo>, listings: seq<Result<seq<Tool>>>,
                                 p: string, t: string)
    requires WellNamed(ps, listings) && FreshlyAggregated(r.aggregator, ps, listings)
    requires ColonFree(p) && t !in ConflictSet(ProviderTools(ps, listings))
    ensures r.ParseToolName(p + ":" + t) == Err(ValueError("Tool '" + (p + ":" + t) + "' not found"))
  {
    var pt := ProviderTools(ps, listings);
    var C := ConflictSet(pt);
    var name := p + ":" + t;
    NamespacedFormAbsent(ps, listings, p, t);
    ColonAt(p, t);
    ConflictsColonFree(ps, listings, name);
    ParseAbsentNamespaced(r, name);
  }

  /** The provider map of one aggregation has no `p:t` key for a non-conflicting `t`. */
  lemma NamespacedFormAbsent(ps: seq<ProviderInfo>, listings: seq<Result<seq<Tool>>>, p: string, t: string)
    requires WellNamed(ps, listings)
    requires ColonFree(p) && t !in ConflictSet(ProviderTools(ps, listings))
    ensures var pt := ProviderTools(ps, listings);
      p + ":" + t !in Keys(PutAll([], OwnerEntries(Aggregated(ps, pt, ConflictSet(pt)))))
  {
    var pt := ProviderTools(ps, listings);
    var C := ConflictSet(pt);
    ListingsColonFree(ps, listings);
    NoNamespacedFormForUnique(ps, pt, C, p, t);
    AbsentStaysAbsent([], Aggregated(ps, pt, C), p + ":" + t);
  }

  lemma ParseAbsentNamespaced(r: ToolRouter, name: string)
    requires ':' in name && name !in Keys(r.aggregator.providerMap) && name !in r.aggregator.conflicts
    ensures r.ParseToolName(name) == Err(ValueError("Tool '" + name + "' not found"))
  {
  }

  /** Under the same conditions, a bare name that does not conflict resolves to the
      provider that listed it. */
  lemma BareUniqueResolves(r: ToolRouter, ps: seq<ProviderInfo>, listings: seq<Result<seq<Tool>>>,
                           i: nat, k: nat)
    requires WellNamed(ps, listings) && FreshlyAggregated(r.aggregator, ps, listings)
    requires i < |ps| && k < |Listed(listings[i])|
    requires Listed(listings[i])[k].name !in ConflictSet(ProviderTools(ps, listings))
    ensures r.ParseToolName(Listed(listings[i])[k].name) == Ok((ps[i].name, Listed(listings[i])[k].name))
  {
    var pt := ProviderTools(ps, listings);
    var C := ConflictSet(pt);
    var A := Aggregated(ps, pt, C);
    var t := Listed(listings[i])[k];
    DistinctProviderTools(ps, listings);
    var x := AggregatedPosition(ps, pt, C, i, k);
    ExposedNamesUnique(ps, listings);
    RouteOne(r, A, x, ps[i], t, C);
  }

  /** The position in the aggregated list of provider i's k-th tool. */
  lemma {:induction false} AggregatedPosition(ps: seq<ProviderInfo>, pt: Dict<string, seq<Tool>>,
                                              C: set<string>, i: nat, k: nat) returns (x: nat)
    requires i < |ps| && k < |ToolsOf(pt, ps[i])|
    ensures x < |Aggregated(ps, pt, C)| && Aggregated(ps, pt, C)[x] == Enrich(ps[i], ToolsOf(pt, ps[i])[k], C)
    decreases |ps|
  {
    var n := |ps| - 1;
    var front := Aggregated(ps[..n], pt, C);
    assert Aggregated(ps, pt, C) == front + EnrichAll(ps[n], ToolsOf(pt, ps[n]), C);
    if i == n {
      x := |front| + k;
    } else {
      assert ps[..n][i] == ps[i];
      x := AggregatedPosition(ps[..n], pt, C, i, k);
    }
  }

  /** An ambiguous bare name carries the aggregator's message. */
  lemma AmbiguousBareName(r: ToolRouter, ps: seq<ProviderInfo>, listings: seq<Result<seq<Tool>>>,
                          i: nat, j: nat, a: nat, b: nat)
    requires WellNamed(ps, listings) && FreshlyAggregated(r.aggregator, ps, listings)
    requires i < j < |ps| && a < |Listed(listings[i])| && b < |Listed(listings[j])|
    requires Listed(listings[i])[a].name == Listed(listings[j])[b].name
    ensures var n := Listed(listings[i])[a].name;
      r.ParseToolName(n) == Err(ValueError(AmbiguityMessage(n)))
  {
    var pt := ProviderTools(ps, listings);
    var C := ConflictSet(pt);
    var n := Listed(listings[i])[a].name;
    DistinctProviderTools(ps, listings);
    assert pt[i].1 == Listed(listings[i]) && pt[j].1 == Listed(listings[j]);
    InTwoListings(pt, i, j, a, b);
    ConflictNeverBare(ps, pt, C, n);
    AbsentStaysAbsent([], Aggregated(ps, pt, C), n);
  }

  // ---------------------------------------------------------------------------------------
  // Resources

  /** With the scheme map the resource aggregator builds, a scheme routes to itself exactly
      when it is a provider's name. */
  lemma SchemeLookup(ps: seq<ProviderInfo>, s: string)
    ensures Get(PutAll([], SchemeEntries(ps)), s) == if exists i :: 0 <= i < |ps| && ps[i].name == s then Some(s) else None
  {
    GetPutAll([], SchemeEntries(ps), s);
    SelfAssigned(SchemeEntries(ps), s);
  }

  lemma {:induction false} SelfAssigned(kvs: seq<(string, string)>, k: string)
    requires forall i :: 0 <= i < |kvs| ==> kvs[i].0 == kvs[i].1
    ensures LastAssigned(kvs, k, None) == if exists i :: 0 <= i < |kvs| && kvs[i].0 == k then Some(k) else None
    decreases |kvs|
  {
    if kvs != [] {
      var n := |kvs| - 1;
      SelfAssigned(kvs[..n], k);
      if kvs[n].0 != k {
        assert forall i :: 0 <= i < n ==> kvs[..n][i] == kvs[i];
      }
    }
  }

  /** Prefix then strip: reading an exposed uri of a routable provider whose name has no
      "://" reaches that provider with the uri it listed, except that a uri the provider
      had already prefixed with its own scheme arrives with that scheme removed. */
  lemma ExposedUriRoutesBack(r: ResourceRouter, ps: seq<ProviderInfo>, i: nat, u: string)
    requires r.aggregator.providerMap == PutAll([], SchemeEntries(ps))
    requires i < |ps| && !Contains(ps[i].name, "://") && ps[i].name in Keys(r.providers.entries)
    ensures var p := ps[i].name;
      r.RouteResourceRead(PrefixedUri(p, u))
        == Ok(ReadResource(p, if StartsWith(u, p + "://") then u[|p| + 3..] else u))
  {
    var p := ps[i].name;
    var exposed := PrefixedUri(p, u);
    var stripped := if StartsWith(u, p + "://") then u[|p| + 3..] else u;
    assert exposed == p + "://" + stripped;
    SchemeSeparatorUnbordered();
    SplitOnceJoin(p, "://", stripped);
    SchemeLookup(ps, p);
  }

  /** A uri whose scheme is no provider's name is rejected with the aggregator's message
      behind the router's prefix. */
  lemma UnknownSchemeRejected(r: ResourceRouter, ps: seq<ProviderInfo>, scheme: string, path: string)
    requires r.aggregator.providerMap == PutAll([], SchemeEntries(ps))
    requires !Contains(scheme, "://") && forall i :: 0 <= i < |ps| ==> ps[i].name != scheme
    ensures var uri := scheme + "://" + path;
      r.RouteResourceRead(uri) == Err(ValueError("Invalid resource URI: " + ("Unknown provider scheme '" + scheme
        + "' in URI: " + uri + ". " + "Available providers: " + ReprList(Keys(r.aggregator.providerMap)))))
  {
    SchemeSeparatorUnbordered();
    SplitOnceJoin(scheme, "://", path);
    SchemeLookup(ps, scheme);
  }
}
