/** The gateway of mcp/gateway.py: it connects the enabled providers, builds the aggregators
    and routers over them, caches the aggregated lists, and answers the MCP methods it
    registers with the server. The providers it talks to are abstract: what connecting to
    each enabled provider led to, and what each provider answers when asked, are inputs. */
module Gateway {
  import opened Wrappers
  import opened Dicts
  import opened Protocol
  import opened Categories
  import opened Aggregator
  import opened Namespacing
  import opened Router
  import opened ConflictResolution
  import Client
  import Server = StdioServer

  /** What the connected providers answer, by provider name: their listings, and the
      outcome of a tool call or a resource read. */
  datatype Backend = Backend(
    tools: string -> Result<seq<Tool>>,
    resources: string -> Result<seq<Resource>>,
    prompts: string -> Result<seq<Prompt>>,
    callTool: (string, string, Json) -> Result<ToolCallResult>,
    readResource: (string, string) -> Result<ResourceContent>)

  function ToolListings(b: Backend, ps: seq<ProviderInfo>): (r: seq<Result<seq<Tool>>>)
    ensures |r| == |ps| && forall i :: 0 <= i < |ps| ==> r[i] == b.tools(ps[i].name)
  {
    seq(|ps|, i requires 0 <= i < |ps| => b.tools(ps[i].name))
  }

  function ResourceListings(b: Backend, ps: seq<ProviderInfo>): (r: seq<Result<seq<Resource>>>)
    ensures |r| == |ps| && forall i :: 0 <= i < |ps| ==> r[i] == b.resources(ps[i].name)
  {
    seq(|ps|, i requires 0 <= i < |ps| => b.resources(ps[i].name))
  }

  function PromptListings(b: Backend, ps: seq<ProviderInfo>): (r: seq<Result<seq<Prompt>>>)
    ensures |r| == |ps| && forall i :: 0 <= i < |ps| ==> r[i] == b.prompts(ps[i].name)
  {
    seq(|ps|, i requires 0 <= i < |ps| => b.prompts(ps[i].name))
  }

  // ---------------------------------------------------------------------------------------
  // Connecting the enabled providers

  /** The provider table after the connect loop: each provider whose creation and connection
      succeeded is stored under its name, in the order of `enabled`. */
  function Connected(d: Dict<string, ProviderInfo>, enabled: seq<string>, attempts: seq<Result<ProviderCategory>>)
    : Dict<string, ProviderInfo>
    requires |attempts| == |enabled|
    decreases |enabled|
  {
    if enabled == [] then d
    else
      var n := |enabled| - 1;
      var before := Connected(d, enabled[..n], attempts[..n]);
      if attempts[n].Ok? then Put(before, enabled[n], ProviderInfo(enabled[n], attempts[n].value)) else before
  }

  /** Every provider in the table is stored under its own name. */
  ghost predicate Keyed(d: Dict<string, ProviderInfo>) {
    forall i :: 0 <= i < |d| ==> d[i].1.name == d[i].0
  }

  /** A provider is in the table after the loop exactly when it was before or one of its
      attempts succeeded; the table stays keyed by name and free of duplicate keys. */
  lemma {:induction false} ConnectedProviders(d: Dict<string, ProviderInfo>, enabled: seq<string>,
                                               attempts: seq<Result<ProviderCategory>>, name: string)
    requires |attempts| == |enabled| && Keyed(d) && UniqueKeys(d)
    ensures var c := Connected(d, enabled, attempts);
      (name in Keys(c) <==> name in Keys(d) || exists i :: 0 <= i < |enabled| && enabled[i] == name && attempts[i].Ok?)
      && Keyed(c) && UniqueKeys(c)
    decreases |enabled|
  {
    if enabled != [] {
      var n := |enabled| - 1;
      var before := Connected(d, enabled[..n], attempts[..n]);
      ConnectedProviders(d, enabled[..n], attempts[..n], name);
      if attempts[n].Ok? {
        var info := ProviderInfo(enabled[n], attempts[n].value);
        PutKeys(before, enabled[n], info);
        PutUnique(before, enabled[n], info);
        var after := Put(before, enabled[n], info);
        forall i | 0 <= i < |after| ensures after[i].1.name == after[i].0 {
          PutEntries(before, enabled[n], info, after[i]);
        }
      }
      if exists i :: 0 <= i < |enabled| && enabled[i] == name && attempts[i].Ok? {
        var i :| 0 <= i < |enabled| && enabled[i] == name && attempts[i].Ok?;
        if i < n {
          assert enabled[..n][i] == name && attempts[..n][i].Ok?;
        }
      }
    }
  }

  /** The providers of a keyed table, in insertion order, have the table's keys as names. */
  lemma ValuesNamed(d: Dict<string, ProviderInfo>)
    requires Keyed(d)
    ensures forall i :: 0 <= i < |d| ==> Values(d)[i].name in Keys(d)
  {
    forall i | 0 <= i < |d| ensures Values(d)[i].name in Keys(d) {
      assert Keys(d)[i] == d[i].0;
    }
  }

  // ---------------------------------------------------------------------------------------
  // Handler results

  /** Python truthiness of a JSON value (`if not x`). */
  predicate Truthy(j: Json) {
    match j
    case JNull => false
    case JBool(b) => b
    case JInt(i) => i != 0
    case JStr(s) => s != ""
    case JArr(items) => items != []
    case JObj(fields) => fields != map[]
  }

  /** `params.get(key)` */
  function Param(params: Object, key: string): Json {
    if key in params then params[key] else JNull
  }

  /** `params.get("arguments", {})` */
  function ArgumentsOf(params: Object): (r: Json)
    ensures "arguments" !in params ==> r == JObj(map[])
  {
    if "arguments" in params then params["arguments"] else JObj(map[])
  }

  /** The handlers' `except` clauses: a ValueError becomes a ProtocolError and a
      RuntimeError a ProviderError, each with the same message; anything else propagates. */
  function Translate(e: Error): (r: Error)
    ensures !r.IsValueError()
    ensures e.IsValueError() ==> r == ProtocolError(e.msg)
    ensures e.IsRuntimeError() ==> r == ProviderError(e.msg)
    ensures !e.IsValueError() && !e.IsRuntimeError() ==> r == e
  {
    if e.IsValueError() then ProtocolError(e.msg)
    else if e.IsRuntimeError() then ProviderError(e.msg)
    else e
  }


  /** `[item.model_dump(mode="json", exclude_none=True) for item in items]` under `key`. */
  function ListPayload<T>(key: string, items: seq<T>, dump: T -> Object): (r: Object)
    ensures r.Keys == {key} && r[key].JArr? && |r[key].items| == |items|
    ensures forall k :: 0 <= k < |items| ==> r[key].items[k] == JObj(dump(items[k]))
  {
    map[key := JArr(seq(|items|, k requires 0 <= k < |items| => JObj(dump(items[k]))))]
  }

  lemma {:induction false} ItemsReadBack<T>(items: seq<Json>, xs: seq<T>, key: string, dump: T -> Object, parse: Object -> Result<T>)
    requires |items| == |xs| && forall k :: 0 <= k < |xs| ==> items[k] == JObj(dump(xs[k])) && parse(dump(xs[k])) == Ok(xs[k])
    ensures Client.ParseItems(items, key, parse) == Ok(xs)
    decreases |items|
  {
    if items != [] {
      ItemsReadBack(items[1..], xs[1..], key, dump, parse);
      assert [xs[0]] + xs[1..] == xs;
    }
  }

  /** A client listing the gateway's tools reads back exactly the cached tools. */
  lemma ToolsPayloadReadBack(tools: seq<Tool>)
    ensures Client.ParseList(ListPayload("tools", tools, ToolToJson), "tools", ParseTool) == Ok(tools)
  {
    var o := ListPayload("tools", tools, ToolToJson);
    forall k | 0 <= k < |tools| ensures ParseTool(ToolToJson(tools[k])) == Ok(tools[k]) {
      ToolRoundTrip(tools[k]);
    }
    ItemsReadBack(o["tools"].items, tools, "tools", ToolToJson, ParseTool);
  }

  /** A client listing the gateway's resources reads back exactly the cached resources. */
  lemma ResourcesPayloadReadBack(resources: seq<Resource>)
    ensures Client.ParseList(ListPayload("resources", resources, ResourceToJson), "resources", ParseResource) == Ok(resources)
  {
    var o := ListPayload("resources", resources, ResourceToJson);
    forall k | 0 <= k < |resources| ensures ParseResource(ResourceToJson(resources[k])) == Ok(resources[k]) {
      ResourceRoundTrip(resources[k]);
    }
    ItemsReadBack(o["resources"].items, resources, "resources", ResourceToJson, ParseResource);
  }

  /** The dumped prompts validate back to the cached prompts. */
  lemma PromptsPayloadReadBack(prompts: seq<Prompt>)
    ensures Client.ParseList(ListPayload("prompts", prompts, PromptToJson), "prompts", ParsePrompt) == Ok(prompts)
  {
    var o := ListPayload("prompts", prompts, PromptToJson);
    forall k | 0 <= k < |prompts| ensures ParsePrompt(PromptToJson(prompts[k])) == Ok(prompts[k]) {
      PromptRoundTrip(prompts[k]);
    }
    ItemsReadBack(o["prompts"].items, prompts, "prompts", PromptToJson, ParsePrompt);
  }

  const NO_PROVIDERS: string := "No providers connected. Check configuration."
  const NOT_INITIALIZED: string := "Gateway not initialized"
  const PROMPTS_GET_MISSING: string := "Prompt routing not yet implemented"

  /** `handle_prompts_get`: prompt routing does not exist; every call fails. */
  function HandlePromptsGet(params: Object): (r: Result<Object>)
    ensures r == Err(NotImplementedError(PROMPTS_GET_MISSING))
  {
    Err(NotImplementedError(PROMPTS_GET_MISSING))
  }

  /** The six handlers `register_handlers` installs, by method. */
  const GATEWAY_HANDLERS: map<string, Server.Handler> := map[
    TOOLS_LIST := Server.Handler("handle_tools_list"),
    TOOLS_CALL := Server.Handler("handle_tools_call"),
    RESOURCES_LIST := Server.Handler("handle_resources_list"),
    RESOURCES_READ := Server.Handler("handle_resources_read"),
    PROMPTS_LIST := Server.Handler("handle_prompts_list"),
    PROMPTS_GET := Server.Handler("handle_prompts_get")]

  lemma MergeUpdate<K, V>(m: map<K, V>, e: map<K, V>, k: K, v: V)
    ensures m + e[k := v] == (m + e)[k := v]
  {
  }

  /** Registering the six handlers one after the other installs `GATEWAY_HANDLERS`. */
  lemma InstallsGatewayHandlers(h: map<string, Server.Handler>)
    ensures h[TOOLS_LIST := Server.Handler("handle_tools_list")][TOOLS_CALL := Server.Handler("handle_tools_call")]
             [RESOURCES_LIST := Server.Handler("handle_resources_list")][RESOURCES_READ := Server.Handler("handle_resources_read")]
             [PROMPTS_LIST := Server.Handler("handle_prompts_list")][PROMPTS_GET := Server.Handler("handle_prompts_get")]
            == h + GATEWAY_HANDLERS
  {
    var e0: map<string, Server.Handler> := map[];
    var e1 := e0[TOOLS_LIST := Server.Handler("handle_tools_list")];
    var e2 := e1[TOOLS_CALL := Server.Handler("handle_tools_call")];
    var e3 := e2[RESOURCES_LIST := Server.Handler("handle_resources_list")];
    var e4 := e3[RESOURCES_READ := Server.Handler("handle_resources_read")];
    var e5 := e4[PROMPTS_LIST := Server.Handler("handle_prompts_list")];
    var e6 := e5[PROMPTS_GET := Server.Handler("handle_prompts_get")];
    assert h + e0 == h;
    MergeUpdate(h, e0, TOOLS_LIST, Server.Handler("handle_tools_list"));
    MergeUpdate(h, e1, TOOLS_CALL, Server.Handler("handle_tools_call"));
    MergeUpdate(h, e2, RESOURCES_LIST, Server.Handler("handle_resources_list"));
    MergeUpdate(h, e3, RESOURCES_READ, Server.Handler("handle_resources_read"));
    MergeUpdate(h, e4, PROMPTS_LIST, Server.Handler("handle_prompts_list"));
    MergeUpdate(h, e5, PROMPTS_GET, Server.Handler("handle_prompts_get"));
    assert e6 == GATEWAY_HANDLERS;
  }

  class MCPGateway {
    /** `config.enabled_providers` */
    const enabled: seq<string>
    /** `self.providers`, which the routers share. */
    const providers: ProviderTable
    var toolAggregator: Option<ToolAggregator>
    var resourceAggregator: Option<ResourceAggregator>
    var promptAggregator: Option<PromptAggregator>
    var toolRouter: Option<ToolRouter>
    var resourceRouter: Option<ResourceRouter>
    var resolver: Option<ConflictResolver>
    var toolsCache: Option<seq<Tool>>
    var resourcesCache: Option<seq<Resource>>
    var promptsCache: Option<seq<Prompt>>

    /** The routers and the resolver work over this gateway's table and aggregators, and the
        table holds each provider once, under its own name. */
    ghost predicate Valid()
      reads this, providers
    {
      && Keyed(providers.entries) && UniqueKeys(providers.entries)
      && (toolRouter.Some? ==> toolAggregator.Some? && toolRouter.value.aggregator == toolAggregator.value
                               && toolRouter.value.providers == providers)
      && (resourceRouter.Some? ==> resourceAggregator.Some? && resourceRouter.value.aggregator == resourceAggregator.value
                                   && resourceRouter.value.providers == providers)
      && (resolver.Some? ==> toolAggregator.Some? && resolver.value.aggregator == toolAggregator.value)
    }

    /** What a refresh may change besides the gateway: the tool aggregator's maps. */
    function AggregatorFrame(): set<object>
      reads this
    {
      if toolAggregator.Some? then {toolAggregator.value} else {}
    }

    /** A new gateway: no provider, no aggregator, router or cache yet. */
    constructor(enabled: seq<string>)
      ensures this.enabled == enabled && fresh(providers) && providers.entries == []
      ensures toolAggregator.None? && resourceAggregator.None? && promptAggregator.None?
      ensures toolRouter.None? && resourceRouter.None? && resolver.None?
      ensures toolsCache.None? && resourcesCache.None? && promptsCache.None?
      ensures Valid()
    {
      this.enabled := enabled;
      providers := new ProviderTable();
      toolAggregator, resourceAggregator, promptAggregator := None, None, None;
      toolRouter, resourceRouter, resolver := None, None, None;
      toolsCache, resourcesCache, promptsCache := None, None, None;
    }

    /** The state `_refresh_aggregations` leaves: aggregators, routers and resolver as they
        were; each existing aggregator's cache holds what it aggregates from the backend now,
        and the tool aggregator's maps have taken the new entries; a missing aggregator's
        cache is left alone. */
    twostate predicate Refreshed(b: Backend)
      reads this, AggregatorFrame()
    {
      && toolAggregator == old(toolAggregator) && resourceAggregator == old(resourceAggregator)
      && promptAggregator == old(promptAggregator)
      && toolRouter == old(toolRouter) && resourceRouter == old(resourceRouter) && resolver == old(resolver)
      && (toolAggregator.None? ==> toolsCache == old(toolsCache))
      && (toolAggregator.Some? ==>
            var agg := toolAggregator.value;
            var pt := ProviderTools(agg.providers, ToolListings(b, agg.providers));
            agg.conflicts == ConflictSet(pt) && toolsCache == Some(Aggregated(agg.providers, pt, agg.conflicts))
            && agg.toolCache == PutAll(old(agg.toolCache), CacheEntries(toolsCache.value))
            && agg.providerMap == PutAll(old(agg.providerMap), OwnerEntries(toolsCache.value)))
      && (resourceAggregator.None? ==> resourcesCache == old(resourcesCache))
      && (resourceAggregator.Some? ==>
            var agg := resourceAggregator.value;
            resourcesCache == Some(AggregatedResources(agg.providers, ResourceListings(b, agg.providers))))
      && (promptAggregator.None? ==> promptsCache == old(promptsCache))
      && (promptAggregator.Some? ==>
            promptsCache == Some(AllPrompts(PromptListings(b, promptAggregator.value.providers))))
    }

    /** `_refresh_aggregations`: each aggregator that exists re-aggregates what the backend
        lists now, and its cache takes the result. */
    method Refresh(b: Backend)
      modifies this, AggregatorFrame()
      ensures Refreshed(b)
    {
      if toolAggregator.Some? {
        var agg := toolAggregator.value;
        var tools := agg.AggregateTools(ToolListings(b, agg.providers));
        toolsCache := Some(tools);
      }
      if resourceAggregator.Some? {
        var agg := resourceAggregator.value;
        var resources := agg.AggregateResources(ResourceListings(b, agg.providers));
        resourcesCache := Some(resources);
      }
      if promptAggregator.Some? {
        var agg := promptAggregator.value;
        var prompts := agg.AggregatePrompts(PromptListings(b, agg.providers));
        promptsCache := Some(prompts);
      }
    }

    /** The connect loop of `start`: each enabled provider whose creation and connection
        succeeded is stored under its name; a failure is logged and skipped. */
    method ConnectProviders(attempts: seq<Result<ProviderCategory>>)
      requires |attempts| == |enabled| && Keyed(providers.entries) && UniqueKeys(providers.entries)
      modifies providers
      ensures providers.entries == Connected(old(providers.entries), enabled, attempts)
      ensures Keyed(providers.entries) && UniqueKeys(providers.entries)
    {
      var i := 0;
      while i < |enabled|
        invariant 0 <= i <= |enabled|
        invariant providers.entries == Connected(old(providers.entries), enabled[..i], attempts[..i])
        invariant Keyed(providers.entries) && UniqueKeys(providers.entries)
      {
        assert enabled[..i + 1][..i] == enabled[..i] && attempts[..i + 1][..i] == attempts[..i];
        ConnectedProviders(old(providers.entries), enabled[..i + 1], attempts[..i + 1], enabled[i]);
        if attempts[i].Ok? {
          providers.entries := Put(providers.entries, enabled[i], ProviderInfo(enabled[i], attempts[i].value));
        }
        i := i + 1;
      }
      assert enabled[..i] == enabled && attempts[..i] == attempts;
    }

    /** The aggregators `start` creates once a provider connected: fresh ones over the
        stored providers in table order. The routers are not rebuilt here. */
    method CreateAggregators()
      modifies this
      ensures providers.entries == old(providers.entries)
      ensures toolRouter == old(toolRouter) && resourceRouter == old(resourceRouter) && resolver == old(resolver)
      ensures toolsCache == old(toolsCache) && resourcesCache == old(resourcesCache) && promptsCache == old(promptsCache)
      ensures var ps := Values(providers.entries);
        && toolAggregator.Some? && fresh(toolAggregator.value) && toolAggregator.value.providers == ps
        && toolAggregator.value.toolCache == [] && toolAggregator.value.providerMap == []
        && resourceAggregator.Some? && resourceAggregator.value.providers == ps
        && promptAggregator.Some? && promptAggregator.value.providers == ps
    {
      var ps := Values(providers.entries);
      var tools := new ToolAggregator(ps);
      var resources := new ResourceAggregator(ps);
      var prompts := new PromptAggregator(ps);
      toolAggregator, resourceAggregator, promptAggregator := Some(tools), Some(resources), Some(prompts);
    }

    /** The routers and the resolver `start` creates over the table and the aggregators. */
    method CreateRouters()
      requires toolAggregator.Some? && resourceAggregator.Some?
      requires Keyed(providers.entries) && UniqueKeys(providers.entries)
      modifies this
      ensures Valid() && toolRouter.Some? && resourceRouter.Some? && resolver.Some?
      ensures providers.entries == old(providers.entries)
      ensures toolAggregator == old(toolAggregator) && resourceAggregator == old(resourceAggregator)
      ensures promptAggregator == old(promptAggregator)
      ensures toolsCache == old(toolsCache) && resourcesCache == old(resourcesCache) && promptsCache == old(promptsCache)
    {
      var toolRoutes := new ToolRouter(providers, toolAggregator.value);
      var resourceRoutes := new ResourceRouter(providers, resourceAggregator.value);
      var conflicts := new ConflictResolver(toolAggregator.value);
      toolRouter, resourceRouter, resolver := Some(toolRoutes), Some(resourceRoutes), Some(conflicts);
    }

    /** `start`: the connect loop stores each provider whose attempt succeeded and skips the
        others; with none stored it fails and builds nothing; otherwise it builds fresh
        aggregators over the stored providers, routers and a resolver over those, and fills
        every cache. */
    method Start(attempts: seq<Result<ProviderCategory>>, b: Backend) returns (r: Result<()>)
      requires |attempts| == |enabled| && Valid()
      modifies this, providers
      ensures Valid()
      ensures providers.entries == Connected(old(providers.entries), enabled, attempts)
      ensures providers.entries == [] ==>
        r == Err(RuntimeError(NO_PROVIDERS)) && toolAggregator == old(toolAggregator)
        && toolRouter == old(toolRouter) && resourceRouter == old(resourceRouter) && resolver == old(resolver)
        && toolsCache == old(toolsCache) && resourcesCache == old(resourcesCache) && promptsCache == old(promptsCache)
      ensures providers.entries != [] ==>
        var ps := Values(providers.entries);
        r == Ok(()) && toolAggregator.Some? && fresh(toolAggregator.value) && toolAggregator.value.providers == ps
        && resourceAggregator.Some? && resourceAggregator.value.providers == ps
        && promptAggregator.Some? && promptAggregator.value.providers == ps
        && toolRouter.Some? && resourceRouter.Some? && resolver.Some?
        && FreshlyAggregated(toolAggregator.value, ps, ToolListings(b, ps))
        && toolsCache == Some(Aggregated(ps, ProviderTools(ps, ToolListings(b, ps)), ConflictSet(ProviderTools(ps, ToolListings(b, ps)))))
        && resourcesCache == Some(AggregatedResources(ps, ResourceListings(b, ps)))
        && promptsCache == Some(AllPrompts(PromptListings(b, ps)))
    {
      ConnectProviders(attempts);
      if providers.entries == [] {
        return Err(RuntimeError(NO_PROVIDERS));
      }
      CreateAggregators();
      CreateRouters();
      Refresh(b);
      r := Ok(());
    }

    /** `stop`: every provider is asked to disconnect, failures are passed over, and the
        table is emptied. The aggregators, routers and caches stay as they were. */
    method Stop()
      requires Valid()
      modifies providers
      ensures providers.entries == [] && Valid()
    {
      providers.entries := [];
    }

    /** `handle_tools_list`: the cached tools, refreshing every cache first when there is no
        tool cache yet. */
    method HandleToolsList(params: Object, b: Backend) returns (r: Object)
      modifies this, AggregatorFrame()
      ensures old(toolsCache).Some? ==>
        r == ListPayload("tools", old(toolsCache).value, ToolToJson) && unchanged(this) && unchanged(AggregatorFrame())
      ensures old(toolsCache).None? ==> Refreshed(b)
      ensures old(toolsCache).None? && toolAggregator.None? ==> r == ListPayload("tools", [], ToolToJson)
      ensures old(toolsCache).None? && toolAggregator.Some? ==>
        var agg := old(toolAggregator).value;
        var pt := ProviderTools(agg.providers, ToolListings(b, agg.providers));
        r == ListPayload("tools", Aggregated(agg.providers, pt, ConflictSet(pt)), ToolToJson)
    {
      if toolsCache.None? {
        Refresh(b);
      }
      r := ListPayload("tools", toolsCache.GetOr([]), ToolToJson);
    }

    /** `handle_resources_list` */
    method HandleResourcesList(params: Object, b: Backend) returns (r: Object)
      modifies this, AggregatorFrame()
      ensures old(resourcesCache).Some? ==>
        r == ListPayload("resources", old(resourcesCache).value, ResourceToJson) && unchanged(this)
        && unchanged(AggregatorFrame())
      ensures old(resourcesCache).None? ==> Refreshed(b)
      ensures old(resourcesCache).None? && resourceAggregator.None? ==> r == ListPayload("resources", [], ResourceToJson)
      ensures old(resourcesCache).None? && resourceAggregator.Some? ==>
        var agg := old(resourceAggregator).value;
        r == ListPayload("resources", AggregatedResources(agg.providers, ResourceListings(b, agg.providers)), ResourceToJson)
    {
      if resourcesCache.None? {
        Refresh(b);
      }
      r := ListPayload("resources", resourcesCache.GetOr([]), ResourceToJson);
    }

    /** `handle_prompts_list` */
    method HandlePromptsList(params: Object, b: Backend) returns (r: Object)
      modifies this, AggregatorFrame()
      ensures old(promptsCache).Some? ==>
        r == ListPayload("prompts", old(promptsCache).value, PromptToJson) && unchanged(this) && unchanged(AggregatorFrame())
      ensures old(promptsCache).None? ==> Refreshed(b)
      ensures old(promptsCache).None? && promptAggregator.None? ==> r == ListPayload("prompts", [], PromptToJson)
      ensures old(promptsCache).None? && promptAggregator.Some? ==>
        r == ListPayload("prompts", AllPrompts(PromptListings(b, old(promptAggregator).value.providers)), PromptToJson)
    {
      if promptsCache.None? {
        Refresh(b);
      }
      r := ListPayload("prompts", promptsCache.GetOr([]), PromptToJson);
    }

    /** `handle_tools_call`: a missing or falsy name is refused before anything else, then an
        uninitialised gateway; otherwise the router's dispatch is carried out and its
        failures, and the provider's, are translated. No ValueError leaves the handler. */
    method HandleToolsCall(params: Object, b: Backend) returns (r: Result<Object>)
      requires Valid()
      ensures !Truthy(Param(params, "name")) ==> r == Err(ProtocolError("Tool name required"))
      ensures Truthy(Param(params, "name")) && (toolRouter.None? || resolver.None?) ==>
        r == Err(RuntimeError(NOT_INITIALIZED))
      ensures Truthy(Param(params, "name")) && toolRouter.Some? && resolver.Some? && !Param(params, "name").JStr? ==>
        r == Err(ParseNonStringName(Param(params, "name")))
      ensures Truthy(Param(params, "name")) && toolRouter.Some? && resolver.Some? && Param(params, "name").JStr? ==>
        var route := toolRouter.value.RouteToolCall(Param(params, "name").s, ArgumentsOf(params));
        (route.Err? ==> r == Err(Translate(route.error))) &&
        (route.Ok? ==>
          var outcome := b.callTool(route.value.provider, route.value.tool, route.value.arguments);
          r == if outcome.Ok? then Ok(ToolCallResultToJson(outcome.value)) else Err(Translate(outcome.error)))
      ensures r.Err? ==> !r.error.IsValueError()
    {
      var name := Param(params, "name");
      var arguments := ArgumentsOf(params);
      if !Truthy(name) {
        return Err(ProtocolError("Tool name required"));
      }
      if toolRouter.None? || resolver.None? {
        return Err(RuntimeError(NOT_INITIALIZED));
      }
      if !name.JStr? {
        return Err(Translate(ParseNonStringName(name)));
      }
      var route := toolRouter.value.RouteToolCall(name.s, arguments);
      if route.Err? {
        return Err(Translate(route.error));
      }
      var outcome := b.callTool(route.value.provider, route.value.tool, route.value.arguments);
      if outcome.Err? {
        return Err(Translate(outcome.error));
      }
      r := Ok(ToolCallResultToJson(outcome.value));
    }

    /** `handle_resources_read`: a missing or falsy uri is refused, then an uninitialised
        gateway; otherwise the router's dispatch is carried out and failures are translated. */
    method HandleResourcesRead(params: Object, b: Backend) returns (r: Result<Object>)
      requires Valid()
      ensures !Truthy(Param(params, "uri")) ==> r == Err(ProtocolError("Resource URI required"))
      ensures Truthy(Param(params, "uri")) && resourceRouter.None? ==> r == Err(RuntimeError(NOT_INITIALIZED))
      ensures Truthy(Param(params, "uri")) && resourceRouter.Some? && !Param(params, "uri").JStr? ==>
        r == Err(Translate(RouteNonStringUri(Param(params, "uri"))))
      ensures Truthy(Param(params, "uri")) && resourceRouter.Some? && Param(params, "uri").JStr? ==>
        var route := resourceRouter.value.RouteResourceRead(Param(params, "uri").s);
        (route.Err? ==> r == Err(Translate(route.error))) &&
        (route.Ok? ==>
          var outcome := b.readResource(route.value.provider, route.value.uri);
          r == if outcome.Ok? then Ok(ResourceContentToJson(outcome.value)) else Err(Translate(outcome.error)))
      ensures r.Err? ==> !r.error.IsValueError()
    {
      var uri := Param(params, "uri");
      if !Truthy(uri) {
        return Err(ProtocolError("Resource URI required"));
      }
      if resourceRouter.None? {
        return Err(RuntimeError(NOT_INITIALIZED));
      }
      if !uri.JStr? {
        return Err(Translate(RouteNonStringUri(uri)));
      }
      var route := resourceRouter.value.RouteResourceRead(uri.s);
      if route.Err? {
        return Err(Translate(route.error));
      }
      var outcome := b.readResource(route.value.provider, route.value.uri);
      if outcome.Err? {
        return Err(Translate(outcome.error));
      }
      r := Ok(ResourceContentToJson(outcome.value));
    }

    /** `register_handlers`: the six gateway methods are installed, replacing any handler
        they had; other methods keep theirs. */
    method RegisterHandlers(server: Server.StdioMCPServer)
      modifies server
      ensures server.handlers == old(server.handlers) + GATEWAY_HANDLERS
      ensures server.running == old(server.running) && server.written == old(server.written)
    {
      ghost var before := server.handlers;
      server.RegisterHandler(TOOLS_LIST, Server.Handler("handle_tools_list"));
      server.RegisterHandler(TOOLS_CALL, Server.Handler("handle_tools_call"));
      server.RegisterHandler(RESOURCES_LIST, Server.Handler("handle_resources_list"));
      server.RegisterHandler(RESOURCES_READ, Server.Handler("handle_resources_read"));
      server.RegisterHandler(PROMPTS_LIST, Server.Handler("handle_prompts_list"));
      server.RegisterHandler(PROMPTS_GET, Server.Handler("handle_prompts_get"));
      InstallsGatewayHandlers(before);
    }
  }

  /** A tool name that is not a string reaches the caller as the error Python raises for
      it, untranslated: a TypeError for a number or a bool, and for a list or dict either an
      AttributeError (it holds ":") or an unhashable TypeError (it does not). */
  lemma NonStringNameUntranslated(name: Json)
    requires !name.JStr?
    ensures Translate(ParseNonStringName(name)) == ParseNonStringName(name)
  {
  }

  /** An integer name fails the `":" in tool_name` test itself. */
  lemma IntNameNotIterable(n: int)
    ensures ParseNonStringName(JInt(n)) == TypeError("argument of type 'int' is not iterable")
  {
    var text := "argument of type '" + TypeName(JInt(n)) + "' is not iterable";
    assert PyIn(":", JInt(n)) == Err(TypeError(text));
    assert TypeName(JInt(n)) == "int";
    assert text == "argument of type 'int' is not iterable";
  }

  /** The AttributeError text of `split` on a list. */
  lemma ListNoSplitText(v: Json)
    requires v.JArr?
    ensures "'" + TypeName(v) + "' object has no attribute 'split'" == "'list' object has no attribute 'split'"
  {
    assert TypeName(v) == "list";
  }

  /** A list holding ":" passes the membership test and fails at `split`. */
  lemma ColonListNameNoSplit()
    ensures ParseNonStringName(JArr([JStr(":")])) == AttributeError("'list' object has no attribute 'split'")
  {
    assert JStr(":") in [JStr(":")];
    ListNoSplitText(JArr([JStr(":")]));
  }

  /** A list without a ":" element fails when used as a dict key. */
  lemma ListNameUnhashable()
    ensures ParseNonStringName(JArr([JStr("a:b")])) == TypeError("unhashable type: 'list'")
  {
    assert JStr(":") !in [JStr("a:b")];
    assert "unhashable type: '" + "list" + "'" == "unhashable type: 'list'";
  }

  /** A list uri without a "://" element is an invalid resource uri, which the gateway
      raises as a ProtocolError naming the list's repr. */
  lemma ListUriInvalid(items: seq<Json>)
    requires JStr("://") !in items
    ensures Translate(RouteNonStringUri(JArr(items)))
      == ProtocolError("Invalid resource URI: " + InvalidUriFormat("[" + ReprItems(items) + "]"))
  {
  }

  /** With a "://" element, the gateway passes on the AttributeError of `uri.split`. */
  lemma ListUriNoSplit(items: seq<Json>)
    requires JStr("://") in items
    ensures Translate(RouteNonStringUri(JArr(items))) == AttributeError("'list' object has no attribute 'split'")
  {
    var uri := JArr(items);
    var text := "'" + TypeName(uri) + "' object has no attribute 'split'";
    assert PyIn("://", uri) == Ok(true);
    assert ProviderForNonStringUri(uri) == AttributeError(text);
    assert RouteNonStringUri(uri) == AttributeError(text);
    ListNoSplitText(uri);
  }

  /** After a successful start, every tool in the cache is routed to the provider that listed
      it, under the raw name that provider knows, provided the providers report sound names. */
  lemma CachedToolsRoute(g: MCPGateway, b: Backend, x: nat, arguments: Json)
    requires g.Valid() && g.toolRouter.Some? && g.providers.entries != []
    requires var ps := Values(g.providers.entries);
      g.toolRouter.value.aggregator.providers == ps && WellNamed(ps, ToolListings(b, ps))
      && FreshlyAggregated(g.toolRouter.value.aggregator, ps, ToolListings(b, ps))
    requires var ps := Values(g.providers.entries); var pt := ProviderTools(ps, ToolListings(b, ps));
      x < |Aggregated(ps, pt, ConflictSet(pt))|
    ensures var ps := Values(g.providers.entries); var ls := ToolListings(b, ps); var pt := ProviderTools(ps, ls);
      var exposed := Aggregated(ps, pt, ConflictSet(pt))[x];
      exists i, k :: 0 <= i < |ps| && 0 <= k < |Listed(ls[i])|
        && exposed == Enrich(ps[i], Listed(ls[i])[k], ConflictSet(pt))
        && g.toolRouter.value.RouteToolCall(exposed.name, arguments) == Ok(CallTool(ps[i].name, Listed(ls[i])[k].name, arguments))
  {
    var ps := Values(g.providers.entries);
    var ls := ToolListings(b, ps);
    ValuesNamed(g.providers.entries);
    RoutesEveryExposedName(g.toolRouter.value, ps, ls, x);
  }

  /** Two `tools/list` requests in a row list the same tools: the first fills the cache
      when it is empty and the second is served from it, whatever the providers list by
      then; without a tool aggregator both list nothing. */
  method ListToolsTwice(g: MCPGateway, b1: Backend, b2: Backend) returns (first: Object, second: Object)
    modifies g, g.AggregatorFrame()
    ensures second == first
    ensures g.toolAggregator == old(g.toolAggregator)
  {
    first := g.HandleToolsList(map[], b1);
    second := g.HandleToolsList(map[], b2);
  }
}
