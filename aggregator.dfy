/** Tool, resource and prompt aggregation across providers (mcp/aggregator.py).

    A provider's `list_tools` / `list_resources` / `list_prompts` call is not executed here:
    each aggregation receives, per provider and in provider order, the outcome that call had
    (the listed items, or the exception it raised). */
module Aggregator {
  import opened Wrappers
  import opened Strings
  import opened Dicts
  import opened Protocol
  import opened Categories

  /** What the aggregators read from a connected provider: `provider.name` and `provider.category`. */
  datatype ProviderInfo = ProviderInfo(name: string, category: ProviderCategory)

  /** The items a listing call produced; a call that raised contributes nothing. */
  function Listed<T>(outcome: Result<seq<T>>): (r: seq<T>)
    ensures outcome.Ok? ==> r == outcome.value
    ensures outcome.Err? ==> r == []
  {
    if outcome.Ok? then outcome.value else []
  }

  function Names(tools: seq<Tool>): (r: seq<string>)
    ensures |r| == |tools| && forall k :: 0 <= k < |tools| ==> r[k] == tools[k].name
  {
    seq(|tools|, k requires 0 <= k < |tools| => tools[k].name)
  }

  // ---------------------------------------------------------------------------------------
  // Specification of aggregate_tools

  /** The `(provider.name, tools)` pairs step 1 stores, in provider order. */
  function ToolEntries(providers: seq<ProviderInfo>, listings: seq<Result<seq<Tool>>>)
    : (r: seq<(string, seq<Tool>)>)
    requires |listings| == |providers|
    ensures |r| == |providers|
    ensures forall i :: 0 <= i < |r| ==> r[i] == (providers[i].name, Listed(listings[i]))
  {
    seq(|providers|, i requires 0 <= i < |providers| => (providers[i].name, Listed(listings[i])))
  }

  /** `provider_tools` after step 1: a later provider of the same name overwrites the listing. */
  function ProviderTools(providers: seq<ProviderInfo>, listings: seq<Result<seq<Tool>>>)
    : Dict<string, seq<Tool>>
    requires |listings| == |providers|
  {
    PutAll([], ToolEntries(providers, listings))
  }

  /** Every raw tool name in `provider_tools`, in its iteration order. */
  function AllNames(pt: Dict<string, seq<Tool>>): seq<string>
    decreases |pt|
  {
    if pt == [] then [] else AllNames(pt[..|pt| - 1]) + Names(pt[|pt| - 1].1)
  }

  /** `_conflicts`: the raw names counted more than once in step 2. */
  function ConflictSet(pt: Dict<string, seq<Tool>>): set<string> {
    set n | n in AllNames(pt) && multiset(AllNames(pt))[n] > 1
  }

  /** The name a tool is exposed under. */
  function Exposed(provider: string, raw: string, conflicts: set<string>): string {
    if raw in conflicts then provider + ":" + raw else raw
  }

  /** The enriched tool step 3 builds for one listed tool. */
  function Enrich(p: ProviderInfo, t: Tool, conflicts: set<string>): (r: Tool)
    ensures r.name == Exposed(p.name, t.name, conflicts)
    ensures r.namespaceReason == (if t.name in conflicts then Some("conflict") else None)
    ensures r.description == t.description && r.inputSchema == t.inputSchema
    ensures r.provider == Some(p.name) && r.category == Some(p.category.Value())
  {
    Tool(Exposed(p.name, t.name, conflicts), t.description, t.inputSchema, Some(p.name),
         Some(p.category.Value()), if t.name in conflicts then Some("conflict") else None)
  }

  function EnrichAll(p: ProviderInfo, tools: seq<Tool>, conflicts: set<string>): (r: seq<Tool>)
    ensures |r| == |tools| && forall k :: 0 <= k < |tools| ==> r[k] == Enrich(p, tools[k], conflicts)
  {
    seq(|tools|, k requires 0 <= k < |tools| => Enrich(p, tools[k], conflicts))
  }

  /** `provider_tools.get(provider.name, [])` */
  function ToolsOf(pt: Dict<string, seq<Tool>>, p: ProviderInfo): seq<Tool> {
    Get(pt, p.name).GetOr([])
  }

  /** The list `aggregate_tools` returns: per provider in order, its tools in listing order. */
  function Aggregated(providers: seq<ProviderInfo>, pt: Dict<string, seq<Tool>>, conflicts: set<string>)
    : seq<Tool>
    decreases |providers|
  {
    if providers == [] then []
    else
      var last := providers[|providers| - 1];
      Aggregated(providers[..|providers| - 1], pt, conflicts) + EnrichAll(last, ToolsOf(pt, last), conflicts)
  }

  /** The `_tool_cache` assignments step 3 performs, in order. */
  function CacheEntries(tools: seq<Tool>): (r: seq<(string, Tool)>)
    ensures |r| == |tools| && forall k :: 0 <= k < |tools| ==> r[k] == (tools[k].name, tools[k])
  {
    seq(|tools|, k requires 0 <= k < |tools| => (tools[k].name, tools[k]))
  }

  /** The `_provider_map` assignments step 3 performs; every enriched tool names its provider. */
  function OwnerEntries(tools: seq<Tool>): (r: seq<(string, string)>)
    ensures |r| == |tools| && forall k :: 0 <= k < |tools| ==> r[k] == (tools[k].name, tools[k].provider.GetOr(""))
  {
    seq(|tools|, k requires 0 <= k < |tools| => (tools[k].name, tools[k].provider.GetOr("")))
  }

  /** One more provider appends its enriched listing. */
  lemma AggregatedSnoc(providers: seq<ProviderInfo>, i: nat, pt: Dict<string, seq<Tool>>, conflicts: set<string>)
    requires i < |providers|
    ensures Aggregated(providers[..i + 1], pt, conflicts)
         == Aggregated(providers[..i], pt, conflicts) + EnrichAll(providers[i], ToolsOf(pt, providers[i]), conflicts)
  {
    assert providers[..i + 1][..i] == providers[..i];
  }

  lemma EnrichAllSnoc(p: ProviderInfo, tools: seq<Tool>, j: nat, conflicts: set<string>)
    requires j < |tools|
    ensures EnrichAll(p, tools[..j + 1], conflicts) == EnrichAll(p, tools[..j], conflicts) + [Enrich(p, tools[j], conflicts)]
  {
    assert EnrichAll(p, tools[..j + 1], conflicts) == EnrichAll(p, tools[..j], conflicts) + [Enrich(p, tools[j], conflicts)];
  }

  lemma EntriesAppend(a: seq<Tool>, b: seq<Tool>)
    ensures CacheEntries(a + b) == CacheEntries(a) + CacheEntries(b)
    ensures OwnerEntries(a + b) == OwnerEntries(a) + OwnerEntries(b)
  {
    assert CacheEntries(a + b) == CacheEntries(a) + CacheEntries(b);
    assert OwnerEntries(a + b) == OwnerEntries(a) + OwnerEntries(b);
  }

  /** The text of the ValueError `get_provider_for_uri` raises for a uri without "://"; `text`
      is what the f-string writes for the uri. */
  function InvalidUriFormat(text: string): string {
    "Invalid URI format: " + text + ". Expected: <provider>://<path>"
  }

  /** `get_provider_for_uri` given a value that is not a string, as a JSON request can pass
      one: `"://" not in uri` raises TypeError for a scalar; a list or dict without a "://"
      element or key is an invalid URI; with one, `uri.split` raises AttributeError. No
      provider is ever found. */
  function ProviderForNonStringUri(uri: Json): (r: Error)
    requires !uri.JStr?
    ensures PyIn("://", uri).Err? ==> r == PyIn("://", uri).error
    ensures PyIn("://", uri) == Ok(false) ==> r == ValueError(InvalidUriFormat(Repr(uri)))
    ensures PyIn("://", uri) == Ok(true) ==> r == AttributeError("'" + TypeName(uri) + "' object has no attribute 'split'")
  {
    match PyIn("://", uri)
    case Err(e) => e
    case Ok(found) =>
      if found then AttributeError("'" + TypeName(uri) + "' object has no attribute 'split'")
      else ValueError(InvalidUriFormat(PyStr(uri)))
  }

  /** Python's `repr` of a list of strings, as put in error messages. */
  function ReprList(xs: seq<string>): string {
    "[" + Join(", ", seq(|xs|, i requires 0 <= i < |xs| => "'" + xs[i] + "'")) + "]"
  }

  /** The repr of a list of names is the repr of that JSON list. */
  lemma {:induction false} ReprListIsRepr(xs: seq<string>)
    ensures ReprList(xs) == Repr(StrList(xs))
  {
    ReprItemsOfNames(xs);
  }

  lemma {:induction false} ReprItemsOfNames(xs: seq<string>)
    ensures Join(", ", seq(|xs|, i requires 0 <= i < |xs| => "'" + xs[i] + "'")) == ReprItems(StrList(xs).items)
    decreases |xs|
  {
    var quoted := seq(|xs|, i requires 0 <= i < |xs| => "'" + xs[i] + "'");
    var items := StrList(xs).items;
    if |xs| > 1 {
      ReprItemsOfNames(xs[1..]);
      assert quoted[1..] == seq(|xs[1..]|, i requires 0 <= i < |xs[1..]| => "'" + xs[1..][i] + "'");
      assert items[1..] == StrList(xs[1..]).items;
    }
  }

  /** Step 1 of `aggregate_tools`: `provider_tools[provider.name] = tools`, or `[]` when
      the call raised. */
  method CollectListings(providers: seq<ProviderInfo>, listings: seq<Result<seq<Tool>>>)
    returns (pt: Dict<string, seq<Tool>>)
    requires |listings| == |providers|
    ensures pt == ProviderTools(providers, listings)
  {
    ghost var entries := ToolEntries(providers, listings);
    pt := [];
    var i := 0;
    while i < |providers|
      invariant 0 <= i <= |providers|
      invariant pt == PutAll([], entries[..i])
    {
      var tools := if listings[i].Ok? then listings[i].value else [];
      PutAllSnoc([], entries[..i], providers[i].name, tools);
      assert entries[..i + 1] == entries[..i] + [(providers[i].name, tools)];
      pt := Put(pt, providers[i].name, tools);
      i := i + 1;
    }
    assert entries[..|providers|] == entries;
  }

  /** `counts` holds, for every name seen so far, how often it was seen. */
  ghost predicate Tally(counts: map<string, int>, seen: seq<string>) {
    forall n :: (n in counts <==> n in seen) && (n in counts ==> counts[n] == multiset(seen)[n])
  }

  /** The counting loop of step 2: `tool_name_counts`, one count per raw name seen. */
  method CountNames(pt: Dict<string, seq<Tool>>) returns (counts: map<string, int>)
    ensures forall n :: n in counts <==> n in AllNames(pt)
    ensures forall n :: n in counts ==> counts[n] == multiset(AllNames(pt))[n]
  {
    counts := map[];
    var i := 0;
    while i < |pt|
      invariant 0 <= i <= |pt|
      invariant Tally(counts, AllNames(pt[..i]))
    {
      counts := CountListing(counts, AllNames(pt[..i]), pt[i].1);
      assert pt[..i + 1][..i] == pt[..i];
      i := i + 1;
    }
    assert pt[..|pt|] == pt;
  }

  /** The inner loop of step 2: count the names of one listing on top of `counts`. */
  method CountListing(counts: map<string, int>, ghost seen: seq<string>, tools: seq<Tool>)
    returns (counts': map<string, int>)
    requires Tally(counts, seen)
    ensures Tally(counts', seen + Names(tools))
  {
    counts' := counts;
    var j := 0;
    while j < |tools|
      invariant 0 <= j <= |tools|
      invariant Tally(counts', seen + Names(tools[..j]))
    {
      var name := tools[j].name;
      ghost var before := seen + Names(tools[..j]);
      assert seen + Names(tools[..j + 1]) == before + [name];
      TallyStep(counts', before, name);
      counts' := counts'[name := (if name in counts' then counts'[name] else 0) + 1];
      j := j + 1;
    }
    assert tools[..j] == tools;
  }

  lemma TallyStep(counts: map<string, int>, seen: seq<string>, name: string)
    requires Tally(counts, seen)
    ensures Tally(counts[name := (if name in counts then counts[name] else 0) + 1], seen + [name])
  {
    assert multiset(seen + [name]) == multiset(seen) + multiset{name};
  }

  /** Step 2 of `aggregate_tools`: the names whose count exceeds one. */
  method DetectConflicts(pt: Dict<string, seq<Tool>>) returns (conflicts: set<string>)
    ensures conflicts == ConflictSet(pt)
  {
    var counts := CountNames(pt);
    conflicts := set n | n in counts && counts[n] > 1;
    assert forall n :: n in conflicts <==> n in ConflictSet(pt);
  }

  // ---------------------------------------------------------------------------------------

  /** The message of the ValueError raised for a bare name that several providers list. */
  function AmbiguityMessage(toolName: string): string {
    "Ambiguous tool name '" + toolName + "'. This tool exists in multiple providers. "
      + "Please use namespaced form: <provider>:" + toolName
  }

  class ToolAggregator {
    const providers: seq<ProviderInfo>
    var toolCache: Dict<string, Tool>
    var providerMap: Dict<string, string>
    var conflicts: set<string>

    constructor(providers: seq<ProviderInfo>)
      ensures this.providers == providers
      ensures toolCache == [] && providerMap == [] && conflicts == {}
    {
      this.providers := providers;
      toolCache := [];
      providerMap := [];
      conflicts := {};
    }

    /** Step 1 collects the listings by provider name, step 2 counts raw names and replaces
        the conflict set, step 3 emits one enriched tool per listed tool and records it in
        both lookup maps, which are added to and never cleared. */
    method AggregateTools(listings: seq<Result<seq<Tool>>>) returns (aggregated: seq<Tool>)
      requires |listings| == |providers|
      modifies this
      ensures conflicts == ConflictSet(ProviderTools(providers, listings))
      ensures aggregated == Aggregated(providers, ProviderTools(providers, listings), conflicts)
      ensures toolCache == PutAll(old(toolCache), CacheEntries(aggregated))
      ensures providerMap == PutAll(old(providerMap), OwnerEntries(aggregated))
    {
      var pt := CollectListings(providers, listings);
      conflicts := DetectConflicts(pt);

      aggregated := [];
      var i := 0;
      while i < |providers|
        invariant 0 <= i <= |providers|
        invariant conflicts == ConflictSet(pt)
        invariant aggregated == Aggregated(providers[..i], pt, conflicts)
        invariant toolCache == PutAll(old(toolCache), CacheEntries(aggregated))
        invariant providerMap == PutAll(old(providerMap), OwnerEntries(aggregated))
      {
        var provider := providers[i];
        var tools := ToolsOf(pt, provider);
        var emitted := EmitProvider(provider, tools);
        AggregatedSnoc(providers, i, pt, conflicts);
        EntriesAppend(aggregated, emitted);
        PutAllAppend(old(toolCache), CacheEntries(aggregated), CacheEntries(emitted));
        PutAllAppend(old(providerMap), OwnerEntries(aggregated), OwnerEntries(emitted));
        aggregated := aggregated + emitted;
        i := i + 1;
      }
      assert providers[..|providers|] == providers;
    }

    /** The inner loop of step 3 for one provider: enrich each listed tool and record it
        in `_tool_cache` and `_provider_map`. */
    method EmitProvider(provider: ProviderInfo, tools: seq<Tool>) returns (emitted: seq<Tool>)
      modifies this
      ensures emitted == EnrichAll(provider, tools, conflicts)
      ensures toolCache == PutAll(old(toolCache), CacheEntries(emitted))
      ensures providerMap == PutAll(old(providerMap), OwnerEntries(emitted))
      ensures conflicts == old(conflicts)
    {
      emitted := [];
      var j := 0;
      while j < |tools|
        invariant 0 <= j <= |tools|
        invariant conflicts == old(conflicts)
        invariant emitted == EnrichAll(provider, tools[..j], conflicts)
        invariant toolCache == PutAll(old(toolCache), CacheEntries(emitted))
        invariant providerMap == PutAll(old(providerMap), OwnerEntries(emitted))
      {
        var tool := tools[j];
        var namespacedName := if tool.name in conflicts then provider.name + ":" + tool.name else tool.name;
        var reason: Option<string> := if tool.name in conflicts then Some("conflict") else None;
        var enriched := Tool(namespacedName, tool.description, tool.inputSchema, Some(provider.name),
                             Some(provider.category.Value()), reason);
        assert enriched == Enrich(provider, tool, conflicts);
        EnrichAllSnoc(provider, tools, j, conflicts);
        EntriesAppend(emitted, [enriched]);
        assert CacheEntries([enriched]) == [(namespacedName, enriched)];
        assert OwnerEntries([enriched]) == [(namespacedName, provider.name)];
        PutAllSnoc(old(toolCache), CacheEntries(emitted), namespacedName, enriched);
        PutAllSnoc(old(providerMap), OwnerEntries(emitted), namespacedName, provider.name);
        emitted := emitted + [enriched];
        toolCache := Put(toolCache, namespacedName, enriched);
        providerMap := Put(providerMap, namespacedName, provider.name);
        j := j + 1;
      }
      assert tools[..j] == tools;
    }

    /** `get_provider_for_tool`: an exposed name maps to its owner; otherwise a conflicting
        bare name is ambiguous; otherwise the tool is unknown. */
    function GetProviderForTool(toolName: string): (r: Result<string>)
      reads this
      ensures r.Ok? <==> toolName in Keys(providerMap)
      ensures r.Ok? ==> Get(providerMap, toolName) == Some(r.value)
      ensures r.Err? && r.error.ValueError? <==> toolName !in Keys(providerMap) && toolName in conflicts
      ensures r.Err? && r.error.ValueError? ==> r.error == ValueError(AmbiguityMessage(toolName))
      ensures r.Err? ==> r.error.ValueError? || r.error.KeyError?
    {
      match Get(providerMap, toolName)
      case Some(p) => Ok(p)
      case None =>
        if toolName in conflicts then
          Err(ValueError(AmbiguityMessage(toolName)))
        else Err(KeyError("Tool '" + toolName + "' not found"))
    }

    /** `get_conflicting_tools` returns a copy; a Dafny set is a value, so no caller can change it. */
    function GetConflictingTools(): (r: set<string>)
      reads this
      ensures r == conflicts
    {
      conflicts
    }

    /** `get_tool_info` */
    function GetToolInfo(toolName: string): (r: Result<Tool>)
      reads this
      ensures r.Ok? <==> toolName in Keys(toolCache)
      ensures r.Ok? ==> Get(toolCache, toolName) == Some(r.value)
      ensures r.Err? ==> r.error == KeyError("Tool '" + toolName + "' not found")
    {
      match Get(toolCache, toolName)
      case Some(t) => Ok(t)
      case None => Err(KeyError("Tool '" + toolName + "' not found"))
    }
  }

  // ---------------------------------------------------------------------------------------
  // Resources

  /** The uri a resource is exposed under: prefixed with `name://` unless it already is. */
  function PrefixedUri(provider: string, uri: string): (r: string)
    ensures StartsWith(r, provider + "://")
    ensures StartsWith(uri, provider + "://") ==> r == uri
    ensures !StartsWith(uri, provider + "://") ==> r == provider + "://" + uri
  {
    if StartsWith(uri, provider + "://") then uri else provider + "://" + uri
  }

  function PrefixResource(p: ProviderInfo, r: Resource): Resource {
    r.(uri := PrefixedUri(p.name, r.uri))
  }

  /** The list `aggregate_resources` returns. */
  function AggregatedResources(providers: seq<ProviderInfo>, listings: seq<Result<seq<Resource>>>)
    : seq<Resource>
    requires |listings| == |providers|
    decreases |providers|
  {
    if providers == [] then []
    else
      var n := |providers| - 1;
      var items := Listed(listings[n]);
      AggregatedResources(providers[..n], listings[..n])
        + seq(|items|, k requires 0 <= k < |items| => PrefixResource(providers[n], items[k]))
  }

  /** The inner loop of `aggregate_resources` for one provider that listed successfully. */
  method PrefixListing(p: ProviderInfo, resources: seq<Resource>) returns (prefixed: seq<Resource>)
    ensures prefixed == seq(|resources|, k requires 0 <= k < |resources| => PrefixResource(p, resources[k]))
  {
    prefixed := [];
    var j := 0;
    while j < |resources|
      invariant 0 <= j <= |resources|
      invariant prefixed == seq(j, k requires 0 <= k < j => PrefixResource(p, resources[k]))
    {
      var originalUri := resources[j].uri;
      var prefixedUri := if !StartsWith(originalUri, p.name + "://") then p.name + "://" + originalUri else originalUri;
      var resource := Resource(prefixedUri, resources[j].name, resources[j].description,
                               resources[j].mimeType, resources[j].resourceType);
      prefixed := prefixed + [resource];
      j := j + 1;
    }
  }

  lemma AggregatedResourcesSnoc(providers: seq<ProviderInfo>, listings: seq<Result<seq<Resource>>>, i: nat)
    requires |listings| == |providers| && i < |providers|
    ensures var items := Listed(listings[i]);
      AggregatedResources(providers[..i + 1], listings[..i + 1])
        == AggregatedResources(providers[..i], listings[..i])
           + seq(|items|, k requires 0 <= k < |items| => PrefixResource(providers[i], items[k]))
  {
    assert providers[..i + 1][..i] == providers[..i] && listings[..i + 1][..i] == listings[..i];
    assert listings[..i + 1][i] == listings[i];
  }

  /** The `(name, name)` assignments the constructor makes to the scheme map. */
  function SchemeEntries(providers: seq<ProviderInfo>): (r: seq<(string, string)>)
    ensures |r| == |providers| && forall i :: 0 <= i < |r| ==> r[i] == (providers[i].name, providers[i].name)
  {
    seq(|providers|, i requires 0 <= i < |providers| => (providers[i].name, providers[i].name))
  }

  /** `strip_provider_prefix`: the text after the first "://", or the uri itself. */
  function StripProviderPrefix(uri: string): (r: string)
    ensures !Contains(uri, "://") ==> r == uri
    ensures Contains(uri, "://") ==> exists scheme :: uri == scheme + "://" + r && !Contains(scheme, "://")
  {
    match SplitOnce(uri, "://")
    case Some((_, path)) => path
    case None => uri
  }

  class ResourceAggregator {
    const providers: seq<ProviderInfo>
    var providerMap: Dict<string, string>

    /** Builds the scheme map: each provider's name is the scheme that routes to it. */
    constructor(providers: seq<ProviderInfo>)
      ensures this.providers == providers
      ensures providerMap == PutAll([], SchemeEntries(providers))
    {
      var schemes: Dict<string, string> := [];
      var i := 0;
      while i < |providers|
        invariant 0 <= i <= |providers|
        invariant schemes == PutAll([], SchemeEntries(providers)[..i])
      {
        PutAllSnoc([], SchemeEntries(providers)[..i], providers[i].name, providers[i].name);
        assert SchemeEntries(providers)[..i + 1] == SchemeEntries(providers)[..i] + [(providers[i].name, providers[i].name)];
        schemes := Put(schemes, providers[i].name, providers[i].name);
        i := i + 1;
      }
      assert SchemeEntries(providers)[..|providers|] == SchemeEntries(providers);
      this.providers := providers;
      providerMap := schemes;
    }

    /** `aggregate_resources`: changes no state. */
    method AggregateResources(listings: seq<Result<seq<Resource>>>) returns (aggregated: seq<Resource>)
      requires |listings| == |providers|
      ensures aggregated == AggregatedResources(providers, listings)
    {
      aggregated := [];
      var i := 0;
      while i < |providers|
        invariant 0 <= i <= |providers|
        invariant aggregated == AggregatedResources(providers[..i], listings[..i])
      {
        AggregatedResourcesSnoc(providers, listings, i);
        if listings[i].Ok? {
          var prefixed := PrefixListing(providers[i], listings[i].value);
          aggregated := aggregated + prefixed;
        }
        i := i + 1;
      }
      assert providers[..|providers|] == providers && listings[..|listings|] == listings;
    }

    /** `get_provider_for_uri` */
    function GetProviderForUri(uri: string): (r: Result<string>)
      reads this
      ensures !Contains(uri, "://") ==> r == Err(ValueError(InvalidUriFormat(uri)))
      ensures r.Ok? <==> Contains(uri, "://") && SplitOnce(uri, "://").value.0 in Keys(providerMap)
      ensures r.Ok? ==> Get(providerMap, SplitOnce(uri, "://").value.0) == Some(r.value)
      ensures r.Err? ==> r.error.ValueError?
    {
      match SplitOnce(uri, "://")
      case None => Err(ValueError(InvalidUriFormat(uri)))
      case Some((scheme, _)) =>
        match Get(providerMap, scheme)
        case Some(p) => Ok(p)
        case None =>
          Err(ValueError("Unknown provider scheme '" + scheme + "' in URI: " + uri + ". "
                         + "Available providers: " + ReprList(Keys(providerMap))))
    }
  }

  // ---------------------------------------------------------------------------------------
  // Prompts

  /** The list `aggregate_prompts` returns: the prompts of every provider whose call
      succeeded, concatenated without renaming. */
  function AllPrompts(listings: seq<Result<seq<Prompt>>>): seq<Prompt>
    decreases |listings|
  {
    if listings == [] then []
    else AllPrompts(listings[..|listings| - 1]) + Listed(listings[|listings| - 1])
  }

  class PromptAggregator {
    const providers: seq<ProviderInfo>

    constructor(providers: seq<ProviderInfo>)
      ensures this.providers == providers
    {
      this.providers := providers;
    }

    /** `aggregate_prompts`: changes no state. */
    method AggregatePrompts(listings: seq<Result<seq<Prompt>>>) returns (aggregated: seq<Prompt>)
      requires |listings| == |providers|
      ensures aggregated == AllPrompts(listings)
    {
      aggregated := [];
      var i := 0;
      while i < |listings|
        invariant 0 <= i <= |listings|
        invariant aggregated == AllPrompts(listings[..i])
      {
        assert listings[..i + 1][..i] == listings[..i];
        if listings[i].Ok? {
          aggregated := aggregated + listings[i].value;
        }
        i := i + 1;
      }
      assert listings[..|listings|] == listings;
    }
  }
}
