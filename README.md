# startmcp gateway model

A model of the startmcp MCP gateway in Dafny. The gateway speaks JSON-RPC 2.0 and the
Model Context Protocol (MCP). It connects to several back-end MCP providers, over a
subprocess's standard streams or over server-sent events (SSE). It merges their tools,
resources and prompts into one catalogue and serves that catalogue on its own stdin/stdout.

Each part of the Python package has its own module:

- `Wrappers`: Option, Result and the Python exceptions as an `Error` datatype.
- `Strings`: the `str` operations the code uses, on `seq<char>`: `split` (at the first
  separator, or at every occurrence of one character), `strip`, `replace`, `startswith`, `in`,
  `join`, `lower`, `upper` and integer text. Casing is ASCII only.
- `Dicts`: a Python dict keeps insertion order, so it is an association list of key-value
  pairs with distinct keys. `Put` replaces in place or appends, as assignment to a key does.
- `Protocol`: the pydantic message and catalogue models, given as JSON parsers and dumpers,
  with round-trip lemmas. It also has Python's `in`, `repr` and `str` on decoded JSON values.
- `Aggregator` and `Namespacing`: the hybrid namespacing of tools. A tool whose raw name is
  unique keeps it; a tool whose name clashes is exposed as `provider:tool`.
  Resource URIs get the `provider://` prefix.
- `Router` and `ConflictResolution`: routing an exposed name or URI back to its provider,
  and the structured errors for ambiguous or unknown names.
- `Client`, `Provider`, `Registry`, `Configuration`, `Categories`, `ApiKey` and `Atlassian`:
  the request/response client, the provider life cycle, the provider registry, the YAML
  configuration and the enterprise Atlassian provider.
- `Pending`, `StdioTransport` and `SseTransport`: the two transports' pending-request tables
  and background listen loops.
- `StdioServer` and `Gateway`: the stdin/stdout JSON-RPC server and the gateway that wires
  everything together.

Objects whose fields the Python code updates are Dafny classes with `modifies` frames:
aggregators, routers, transports, the client, the provider, the registry, the config, the
token store, the server and the gateway. Loops in the source are methods with loop
invariants, proved against specification functions. Everything the outside world supplies
is a parameter:

- what a subprocess, an HTTP endpoint or a back-end provider answers;
- the lines read from a stream;
- environment variables;
- the random suffix of request ids.

JSON values are the datatype `Protocol.Json`. Pydantic validation is modelled as a parser
that returns `Err(ValidationError(field))`. Python exceptions are the `Wrappers.Error`
datatype, with the predicates `IsValueError`, `IsRuntimeError` and `IsTransportError`
mirroring the exception class hierarchy.

Where the code and its documentation disagree, the model follows the code:

- `SSETransport._listen_loop` tests `"id" in message and "result" in message or "error" in message`.
  Python parses this as `("id" and "result") or "error"`. An error message without an `id`
  therefore raises `KeyError` and ends the loop. The model keeps this (`Pending.SseDispatch`,
  `SseTransport.ErrorWithoutIdStopsListener`).
- In `ToolRouter._parse_tool_name`, the "does not belong to provider" `ValueError` raised
  inside the `try` is not caught by `except KeyError`, so it reaches the caller.
  The model lets it through.
- `MCPClient._send_request` tests `if response.error`. A pydantic model is always truthy, so
  an error object with empty fields still counts as an error. The result is tested with
  `is None`, so only a missing result is refused and an empty result dictionary is returned.
  `Client.CheckReply` follows the code; `Client.EmptyResultAccepted` shows the empty-result
  case.
- `Config.save` writes provider settings after the reserved keys and lets them overwrite
  them. A provider named `logging` therefore replaces the logging section on the next load
  (`Configuration.ReservedNameClobbers`).
- `Config.disable_provider` removes only the first occurrence (`Configuration.DisableLeavesDuplicate`).

## Model

| member | source | states |
|---|---|---|
| Protocol.MethodsDistinct | mcp/protocol.py:152-172 | the nine MCP method names are pairwise distinct |
| Protocol.RequiredStr | mcp/protocol.py:24-25 | a required string field parses exactly when the key is present and holds a string, and yields that string |
| Protocol.RequiredInt | mcp/protocol.py:15 | a required int field parses exactly when the key holds an integer |
| Protocol.OptionalStr | mcp/protocol.py:62-63 | an optional string is None when absent or null, Some when a string, an error otherwise |
| Protocol.OptionalObject | mcp/protocol.py:26 | an optional dict is None when absent or null, Some when an object, an error otherwise |
| Protocol.ObjectOrEmpty | mcp/protocol.py:93-97 | a dict field with a default factory is `{}` when absent and must be an object when present |
| Protocol.BoolOrFalse | mcp/protocol.py:116 | a bool field defaulting to False is False when absent and must be a bool when present |
| Protocol.ParseId | mcp/protocol.py:24 | an id is accepted exactly when it is a string or an integer, and dumps back to the same JSON |
| Protocol.ParseRpcError | mcp/protocol.py:12-17 | an error object parses only from a JSON object |
| Protocol.ParseRequest | mcp/protocol.py:20-26 | a request parses only with `jsonrpc` equal to "2.0" (or absent), an id and a method, and keeps both |
| Protocol.ParseResponse | mcp/protocol.py:29-35 | a response keeps its id; result and error are None exactly when absent or null |
| Protocol.ParseNotification | mcp/protocol.py:38-43 | a notification needs the 2.0 version and a method, which it keeps |
| Protocol.ParseResourceType | mcp/protocol.py:49-54 | a resource type string maps to the one enum member with that value |
| Protocol.ParseResource | mcp/protocol.py:57-64 | a resource keeps its uri and name fields |
| Protocol.ParseTool | mcp/protocol.py:86-109 | a tool keeps its name and description; the schema is read under its alias `inputSchema` |
| Protocol.ParseToolCallResult | mcp/protocol.py:112-116 | a tool result needs `content`; `is_error` is true only when given as true |
| Protocol.ParseNamedArguments | mcp/protocol.py:212-216 | `tools/call` parameters keep the name; arguments default to `{}` |
| Protocol.ParsePromptParameter | mcp/protocol.py:119-124 | a prompt parameter is an object that keeps its name |
| Protocol.ParsePromptParameters | mcp/protocol.py:132 | a parsed parameter list has as many entries as the JSON list |
| Protocol.ParsePrompt | mcp/protocol.py:127-132 | a prompt keeps its name; parameters default to the empty list |
| Protocol.ParseResourceContent | mcp/protocol.py:67-73 | content keeps its uri; text and blob are None exactly when absent or null |
| Protocol.ParseRole | mcp/protocol.py:138 | a role string maps to the one literal with that value, and nothing else is a role |
| Protocol.ParsePromptMessage | mcp/protocol.py:135-139 | a message is an object that keeps its role and its content |
| Protocol.ParsePromptMessages | mcp/protocol.py:145 | a parsed message list has as many entries as the JSON list |
| Protocol.ParsePromptResult | mcp/protocol.py:142-146 | a prompt result needs a `messages` list, parsed in full; the description is None exactly when absent or null |
| Protocol.RequestRoundTrip | mcp/protocol.py:20-26 | parsing a dumped request gives the request back |
| Protocol.ResponseRoundTrip | mcp/protocol.py:29-35 | parsing a dumped response (with exclude_none) gives the response back |
| Protocol.ToolRoundTrip | mcp/protocol.py:86-109 | parsing a dumped tool, gateway metadata included, gives the tool back |
| Protocol.ResourceRoundTrip | mcp/protocol.py:57-64 | parsing a dumped resource gives the resource back |
| Protocol.NamedArgumentsRoundTrip | mcp/protocol.py:212-216 | parsing dumped call parameters gives them back |
| Protocol.ToolCallResultRoundTrip | mcp/protocol.py:112-116 | parsing a dumped tool result gives it back |
| Protocol.PromptParametersRoundTrip | mcp/protocol.py:119-124 | parsing a dumped parameter list gives it back |
| Protocol.PromptRoundTrip | mcp/protocol.py:127-132 | parsing a dumped prompt gives it back |
| Protocol.ResourceContentRoundTrip | mcp/protocol.py:67-73 | parsing dumped resource content gives it back |
| Protocol.ResourceContentDefaults | mcp/protocol.py:70-73 | content with only a uri and text has no MIME type and no blob |
| Protocol.PromptMessagesRoundTrip | mcp/protocol.py:135-139 | parsing a dumped message list gives it back |
| Protocol.PromptResultRoundTrip | mcp/protocol.py:142-146 | parsing a dumped prompt result gives it back |
| Protocol.UnknownRoleRejected | mcp/protocol.py:138 | a role outside user, assistant and system is rejected |
| Protocol.VersionEnforced | mcp/protocol.py:23 | any `jsonrpc` other than "2.0" is rejected by request, response and notification alike |
| Protocol.ResponseDefaults | mcp/protocol.py:32-35 | a response with only an id has no result and no error |
| Protocol.ToolDefaults | mcp/protocol.py:93-109 | a tool with only a name and description has an empty schema and no metadata |
| Protocol.ResourceDefaults | mcp/protocol.py:62-64 | a resource with only uri and name is a text resource with no description or MIME type |
| Protocol.ToolCallResultDefaults | mcp/protocol.py:115-116 | a tool result without `is_error` is not an error |
| Categories.FromValue | mcp/categories.py:6-14 | `ProviderCategory(s)` finds the member whose value is `s`, and fails exactly when no member has it |
| Categories.ValuesDistinct | mcp/categories.py:9-14 | two categories share a value only when they are the same; values parse back to their category |
| Categories.InfoTotal | mcp/categories.py:17-48 | every category has an entry in `CATEGORY_INFO` |
| Categories.GetCategoryDisplayName | mcp/categories.py:51-53 | the lookup never fails and returns the table's display name |
| Categories.GetCategoryIcon | mcp/categories.py:56-58 | the lookup never fails and returns the table's icon |
| Categories.GetCategoryDescription | mcp/categories.py:61-63 | the lookup never fails and returns the table's description |
| Categories.EnterpriseEntry | mcp/categories.py:18-22 | the enterprise category displays as "Enterprise & Collaboration" with the office-building icon |
| Aggregator.Listed | mcp/aggregator.py:36-43 | a provider whose listing fails contributes no tools; otherwise its whole listing |
| Aggregator.Enrich | mcp/aggregator.py:70-87 | an exposed tool keeps description and schema, gets provider, category and `namespace_reason`, and is renamed exactly when its raw name conflicts |
| Aggregator.AggregatedSnoc | mcp/aggregator.py:60-93 | the aggregate of n+1 providers is the aggregate of n followed by the last provider's enriched tools |
| Aggregator.EnrichAllSnoc | mcp/aggregator.py:66-91 | enriching j+1 tools extends the result for j tools by one |
| Aggregator.EntriesAppend | mcp/aggregator.py:92-93 | cache and owner entries of a concatenation are the concatenated entries |
| Aggregator.CollectListings | mcp/aggregator.py:34-43 | the step-1 loop builds exactly `ProviderTools` of the listings |
| Aggregator.CountNames | mcp/aggregator.py:46-52 | the counting loop maps every raw name to its number of occurrences, and nothing else |
| Aggregator.CountListing | mcp/aggregator.py:48-52 | the inner counting loop extends a correct tally by one listing |
| Aggregator.TallyStep | mcp/aggregator.py:50-52 | adding one name keeps the tally exact |
| Aggregator.DetectConflicts | mcp/aggregator.py:55-57 | the conflict set is exactly the names counted more than once |
| Aggregator.ToolAggregator.constructor | mcp/aggregator.py:14-24 | a new aggregator has the given providers and empty caches |
| Aggregator.ToolAggregator.AggregateTools | mcp/aggregator.py:26-95 | the result is `Aggregated` over the providers' listings, the conflict set is recomputed, and both caches are updated entry by entry |
| Aggregator.ToolAggregator.EmitProvider | mcp/aggregator.py:66-93 | the per-provider loop emits the enriched tools and records each in both caches |
| Aggregator.ToolAggregator.GetProviderForTool | mcp/aggregator.py:97-121 | a known exposed name gives its provider; an unknown conflicting name gives the ambiguity ValueError; otherwise KeyError |
| Aggregator.ToolAggregator.GetConflictingTools | mcp/aggregator.py:123-130 | the conflicting raw names |
| Aggregator.ToolAggregator.GetToolInfo | mcp/aggregator.py:132-148 | a cached tool is returned; any other name raises KeyError "Tool '…' not found" |
| Aggregator.PrefixedUri | mcp/aggregator.py:185-191 | a URI gets the `provider://` prefix unless it already has it |
| Aggregator.PrefixListing | mcp/aggregator.py:183-200 | the per-provider loop prefixes every resource in place |
| Aggregator.AggregatedResourcesSnoc | mcp/aggregator.py:177-207 | one more provider appends its prefixed resources |
| Aggregator.StripProviderPrefix | mcp/aggregator.py:238-251 | without `://` the URI is unchanged; otherwise the result is what follows the first `://` |
| Aggregator.ResourceAggregator.constructor | mcp/aggregator.py:154-167 | the scheme map holds each provider under its own name |
| Aggregator.ResourceAggregator.AggregateResources | mcp/aggregator.py:169-209 | the loop yields `AggregatedResources`: each successful listing, prefixed, in provider order |
| Aggregator.ResourceAggregator.GetProviderForUri | mcp/aggregator.py:211-236 | a URI without `://` is invalid; otherwise it routes exactly when its scheme is a known provider; every failure is a ValueError |
| Aggregator.ProviderForNonStringUri | mcp/aggregator.py:225-228 | a non-string URI: the TypeError of the `in` test for a scalar; the "Invalid URI format" ValueError with the value's repr when no element or key is `://`; the AttributeError of `split` otherwise |
| Aggregator.ReprListIsRepr | mcp/aggregator.py:233 | the repr of the provider names is the repr of that list of strings |
| Aggregator.PromptAggregator.constructor | mcp/aggregator.py:257-264 | a new prompt aggregator has the given providers |
| Aggregator.PromptAggregator.AggregatePrompts | mcp/aggregator.py:266-286 | the loop concatenates every successful prompt listing, in provider order |
| Namespacing.TwoOccurrences | mcp/aggregator.py:46-57 | a name at two positions is counted at least twice |
| Namespacing.RepeatedOccurrence | mcp/aggregator.py:46-57 | a name counted twice occurs at two distinct positions |
| Namespacing.ConflictIffRepeated | mcp/aggregator.py:55-57 | a raw name conflicts exactly when it occurs at two positions of the combined listings |
| Namespacing.ListingInAllNames | mcp/aggregator.py:46-52 | each listing's names are among all the counted names |
| Namespacing.TwoListingsInAllNames | mcp/aggregator.py:46-52 | two different listings' names are counted together |
| Namespacing.RepeatedInOneListing | mcp/aggregator.py:46-57 | a name repeated inside one provider's listing is a conflict |
| Namespacing.InTwoListings | mcp/aggregator.py:46-57 | a name in two providers' listings is a conflict |
| Namespacing.DistinctProviderTools | mcp/aggregator.py:34-43 | with distinct provider names step 1 keys each provider once and keeps its listing |
| Namespacing.SplitAtLastColon | mcp/aggregator.py:74 | `x:a` determines `x` and `a` when `a` has no colon |
| Namespacing.SplitAtFirstColon | mcp/router.py:74 | `x:a` determines `x` and `a` when `x` has no colon |
| Namespacing.ColonAt | mcp/aggregator.py:74 | a namespaced name always contains a colon |
| Namespacing.ExposedInjective | mcp/aggregator.py:70-77 | two different colon-free tools of one provider get different exposed names |
| Namespacing.ExposedAcrossProviders | mcp/aggregator.py:70-77 | tools of different providers get different exposed names when equal raw names are conflicts |
| Namespacing.AggregatedOrigin | mcp/aggregator.py:60-93 | every exposed tool is the enrichment of some provider's listed tool |
| Namespacing.AggregatedUnique | mcp/aggregator.py:60-93 | under distinct and colon-free raw names, the exposed names are pairwise distinct |
| Namespacing.SegmentUnique | mcp/aggregator.py:66-91 | one provider's exposed names are distinct when its raw names are |
| Namespacing.FrontApart | mcp/aggregator.py:60-93 | the last provider's exposed names differ from every earlier one |
| Namespacing.ConcatDistinct | mcp/aggregator.py:60-93 | two name-disjoint distinct lists concatenate to a distinct list |
| Namespacing.ExposedNamesUnique | mcp/aggregator.py:26-95 | hybrid namespacing never exposes the same name twice, for providers with distinct names and colon-free tool names |
| Namespacing.NoNamespacedFormForUnique | mcp/aggregator.py:70-77 | a non-conflicting tool is never exposed under a `provider:tool` form |
| Namespacing.ConflictNeverBare | mcp/aggregator.py:70-77 | a conflicting raw name is never exposed unprefixed |
| Namespacing.LookupAfterAggregation | mcp/aggregator.py:92-93 | after aggregation each exposed name looks up its own tool and provider |
| Namespacing.StaleNamesPersist | mcp/aggregator.py:92-93 | a name from an earlier aggregation stays in the provider map, since the caches are never cleared |
| Namespacing.LastAssignedKeepsSome | mcp/aggregator.py:93 | once a key is mapped, later assignments keep it mapped |
| Namespacing.AbsentStaysAbsent | mcp/aggregator.py:93 | a name neither cached nor exposed stays unmapped |
| Namespacing.AllNamesOrigin | mcp/aggregator.py:46-52 | every counted name comes from some listed tool |
| Router.ProviderTable.constructor | mcp/gateway.py:48 | the gateway's provider table starts empty |
| Router.SplitName | mcp/router.py:73-79 | `split(":", 1)` yields a colon-free provider part and the rest |
| Router.ToolRouter.constructor | mcp/router.py:13-24 | the router holds the given table and aggregator |
| Router.ToolRouter.ParseToolName | mcp/router.py:59-107 | a namespaced name resolves only when the provider map assigns it to its own prefix; a bare name resolves to its mapped provider; ambiguity and not-found give the source's ValueError texts |
| Router.ToolRouter.RouteToolCall | mcp/router.py:26-57 | a parse failure propagates; a provider missing from the table gives the "not available or not connected" RuntimeError; otherwise the call goes to that provider's raw tool |
| Router.ResourceRouter.constructor | mcp/router.py:113-124 | the router holds the given table and aggregator |
| Router.ResourceRouter.RouteResourceRead | mcp/router.py:126-160 | an invalid URI gives "Invalid resource URI: …"; an absent provider a RuntimeError; otherwise the read goes to the provider with the prefix stripped |
| Router.ParseNonStringName | mcp/router.py:73-74 | a non-string tool name: the TypeError of the `":" in` test for a scalar; the AttributeError of `split` for a list or dict holding ":"; otherwise the unhashable TypeError of the provider-map lookup (mcp/aggregator.py:110) |
| Router.RouteNonStringUri | mcp/router.py:141-144 | a non-string URI: the aggregator's ValueError behind "Invalid resource URI: ", any other error passed on |
| Router.RoutesEveryExposedName | mcp/router.py:59-107 | after a fresh aggregation every exposed tool name parses back to the provider and raw name it came from |
| Router.ExposedOrigin | mcp/aggregator.py:60-93 | an exposed tool is identified by a provider index and a listing index |
| Router.RouteOne | mcp/router.py:59-107 | an exposed name mapped by the fresh provider map parses to its origin |
| Router.ParseOwnedName | mcp/router.py:73-96 | a name owned by `p` in either form parses to `(p, t)` |
| Router.ListingsColonFree | mcp/router.py:73-79 | well-named listings have colon-free raw names |
| Router.ConflictsColonFree | mcp/aggregator.py:55-57 | conflicts of well-named listings have no colon |
| Router.NamespacedUniqueNotFound | mcp/router.py:81-89 | `p:t` for a non-conflicting `t` is "not found", since unique tools are exposed bare |
| Router.NamespacedFormAbsent | mcp/aggregator.py:70-93 | such a `p:t` never enters the provider map |
| Router.ParseAbsentNamespaced | mcp/router.py:88-89 | an unmapped, non-conflicting namespaced name gives "Tool '…' not found" |
| Router.BareUniqueResolves | mcp/router.py:94-96 | a unique raw name routes to its provider unprefixed |
| Router.AggregatedPosition | mcp/aggregator.py:60-93 | every listed tool appears in the aggregate |
| Router.AmbiguousBareName | mcp/router.py:98-100 | a raw name listed by two providers gives the ambiguity ValueError |
| Router.SchemeLookup | mcp/aggregator.py:165-167 | a scheme is mapped exactly when some provider has that name |
| Router.SelfAssigned | mcp/aggregator.py:165-167 | assignments of names to themselves leave a name mapped to itself exactly when it was assigned |
| Router.ExposedUriRoutesBack | mcp/router.py:126-160 | a URI exposed by resource aggregation routes back to its provider: the original URI, or, for a URI that already began with `provider://` and so was exposed unchanged, the URI with that prefix stripped |
| Router.UnknownSchemeRejected | mcp/aggregator.py:226-234 | a URI with an unknown scheme is rejected with the list of available providers |
| ConflictResolution.PyPrefix | mcp/conflict_resolver.py:113 | Python slicing `xs[:n]`, negative `n` included |
| ConflictResolution.Variants | mcp/conflict_resolver.py:31-38 | each collected variant is a namespaced form of the requested name |
| ConflictResolution.VariantsMembership | mcp/conflict_resolver.py:31-38 | a key is a variant exactly when it is in the provider map and namespaces the name |
| ConflictResolution.BaseIsNamespaced | mcp/conflict_resolver.py:34-36 | a variant splits into a colon-free prefix and the name |
| ConflictResolution.SplitNamespaced | mcp/conflict_resolver.py:34-36 | a namespaced form `p:t` is a variant of `t` with prefix `p` |
| ConflictResolution.FormsMatchVariants | mcp/conflict_resolver.py:132-162 | when every namespaced key belongs to its prefix, the summary's forms equal the ambiguity error's variants |
| ConflictResolution.ScoreNeverTen | mcp/conflict_resolver.py:91-109 | a score is 0, 3 or 5, never the unreachable 10, and a substring match scores above 0 |
| ConflictResolution.Scored | mcp/conflict_resolver.py:91-109 | the scored candidates are cached names with their positive scores |
| ConflictResolution.Bucket | mcp/conflict_resolver.py:112 | the entries with one score, in order |
| ConflictResolution.BucketAppend | mcp/conflict_resolver.py:112 | selecting a score distributes over concatenation |
| ConflictResolution.BucketOfBucket | mcp/conflict_resolver.py:112 | selecting twice selects once, or nothing for a different score |
| ConflictResolution.BucketCount | mcp/conflict_resolver.py:112 | selection keeps exactly the entries with that score |
| ConflictResolution.SortIsPermutation | mcp/conflict_resolver.py:112 | the sort by descending score is a permutation |
| ConflictResolution.SortIsOrdered | mcp/conflict_resolver.py:112 | the sort is in descending score order |
| ConflictResolution.SortIsStable | mcp/conflict_resolver.py:112 | entries with equal scores keep their order, as Python's stable sort does |
| ConflictResolution.SortByScoreIsStableSort | mcp/conflict_resolver.py:112 | the sort is a stable descending sort: a permutation, ordered, and order-preserving within a score |
| ConflictResolution.BucketNone | mcp/conflict_resolver.py:112 | no entry has an absent score |
| ConflictResolution.ScoredScores | mcp/conflict_resolver.py:91-109 | every candidate's score is a valid score |
| ConflictResolution.SortMembers | mcp/conflict_resolver.py:112 | sorting adds nothing |
| ConflictResolution.SimilarTools | mcp/conflict_resolver.py:74-113 | at most `max_suggestions` names, each a cached name with a positive score |
| ConflictResolution.SubstringSuggested | mcp/conflict_resolver.py:95-100 | a cached name containing the query (ignoring case) is suggested when the limit allows all names |
| ConflictResolution.SortedHolds | mcp/conflict_resolver.py:91-112 | a substring match survives scoring and sorting |
| ConflictResolution.ScoredComplete | mcp/conflict_resolver.py:91-109 | every positively scored name is a candidate |
| ConflictResolution.ScoredLength | mcp/conflict_resolver.py:91-109 | there are no more candidates than cached names |
| ConflictResolution.CollectProviders | mcp/conflict_resolver.py:146-150 | the summary loop collects `ProvidersOf` the name |
| ConflictResolution.CollectVariants | mcp/conflict_resolver.py:31-38 | the ambiguity loop collects exactly `Variants` |
| ConflictResolution.ScoreAll | mcp/conflict_resolver.py:91-109 | the scoring loop yields exactly `Scored` |
| ConflictResolution.ScoreOne | mcp/conflict_resolver.py:92-107 | the per-name scoring yields `Score` |
| ConflictResolution.CollectDetails | mcp/conflict_resolver.py:143-155 | the summary has one detail per conflict and nothing else |
| ConflictResolution.ConflictResolver.constructor | mcp/conflict_resolver.py:11 | the resolver reads the given aggregator |
| ConflictResolution.ConflictResolver.GetAmbiguityError | mcp/conflict_resolver.py:20-49 | the error object has the six documented keys, the collected variants and an example naming the first variant |
| ConflictResolution.ConflictResolver.FindSimilarTools | mcp/conflict_resolver.py:74-113 | the suggestions are `SimilarTools` over the tool cache |
| ConflictResolution.ConflictResolver.GetNotFoundError | mcp/conflict_resolver.py:51-72 | up to five similar names; the suggestion names at most three, or points to tools/list |
| ConflictResolution.ConflictResolver.GetProviderUnavailableError | mcp/conflict_resolver.py:115-130 | the error object names the provider with the documented message |
| ConflictResolution.ConflictResolver.GetConflictSummary | mcp/conflict_resolver.py:132-162 | the count is the number of conflicts and each conflict has its detail |
| ConflictResolution.FreshMapPrefixOwned | mcp/aggregator.py:70-93 | after a fresh aggregation every namespaced key belongs to its prefix |
| ConflictResolution.OwnedEntry | mcp/aggregator.py:70-93 | each owner entry with a colon is owned by its prefix |
| ConflictResolution.AmbiguityListsEveryProvider | mcp/conflict_resolver.py:31-38 | every provider listing a conflicting name shows up among its variants |
| ConflictResolution.SummaryAgreesWithAmbiguity | mcp/conflict_resolver.py:132-162 | the summary and the ambiguity error list the same forms |
| Client.RequestIdText | mcp/client.py:47-50 | request ids start with "req-" |
| Client.RequestIdsDistinct | mcp/client.py:47-50 | ids with different counters differ, whatever the 8-hex-digit suffixes are |
| Client.CheckReply | mcp/client.py:74-86 | a transport error propagates; an error object gives "MCP error code: message"; no result gives "No result in response for …"; otherwise the result |
| Client.EmptyResultAccepted | mcp/client.py:82-84 | an empty result dict is still returned, since only None is rejected |
| Client.NamedParams | mcp/client.py:156-158 | call parameters carry the name and the arguments, `{}` when none |
| Client.NamedParamsRoundTrip | mcp/client.py:156-158 | the request parameters parse back as `ToolsCallParams` |
| Client.ReadParams | mcp/client.py:117 | read parameters carry only the URI |
| Client.ParseList | mcp/client.py:100-102 | a list parses only from an array under the key, element by element |
| Client.ParseItems | mcp/client.py:100-102 | a list parses exactly when every element is an object that parses |
| Client.Outgoing | mcp/client.py:66-71 | the request has a "req-" id, the method and the parameters |
| Client.ResourcesListed | mcp/client.py:90-102 | a failed reply's error propagates to `list_resources` |
| Client.ToolsListed | mcp/client.py:125-137 | a failed reply's error propagates to `list_tools` |
| Client.PromptsListed | mcp/client.py:166-178 | a failed reply's error propagates to `list_prompts` |
| Client.ToolCalled | mcp/client.py:139-162 | a failed reply's error propagates; a result is parsed as `ToolCallResult` |
| Client.ResourceRead | mcp/client.py:104-121 | a failed reply's error propagates; a result is parsed as `ResourceContent` |
| Client.PromptGot | mcp/client.py:180-203 | a failed reply's error propagates; a result is parsed as `PromptResult` |
| Client.MCPClient.constructor | mcp/client.py:29-37 | a client starts with counter 0 on its transport |
| Client.MCPClient.GenerateRequestId | mcp/client.py:47-50 | the counter increases by one and the id carries it |
| Client.MCPClient.SendRequest | mcp/client.py:52-86 | one id per request; the reply is checked by `CheckReply` |
| Client.MCPClient.ListResources | mcp/client.py:90-102 | sends `resources/list` without parameters and parses the list |
| Client.MCPClient.ReadResource | mcp/client.py:104-121 | sends `resources/read` with the URI and parses the content |
| Client.MCPClient.ListTools | mcp/client.py:125-137 | sends `tools/list` and parses the list |
| Client.MCPClient.CallTool | mcp/client.py:139-162 | sends `tools/call` with name and arguments and parses the result |
| Client.MCPClient.ListPrompts | mcp/client.py:166-178 | sends `prompts/list` and parses the list |
| Client.MCPClient.GetPrompt | mcp/client.py:180-203 | sends `prompts/get` with name and arguments and parses the prompt result |
| Provider.Names | mcp/provider.py:135-147 | every declared field name is in the schema's name set |
| Provider.NameDeclared | mcp/provider.py:135-147 | a schema name belongs to some declared field |
| Provider.Validate | mcp/provider.py:135-147 | a validated config has exactly the schema's fields |
| Provider.ValidateSucceeds | mcp/provider.py:135-147 | validation succeeds exactly when every given field has its declared type |
| Provider.ValidateValue | mcp/provider.py:135-147 | each validated field is the given value or the field's default |
| Provider.ValidateIdempotent | mcp/provider.py:135-147 | validating a validated config changes nothing |
| Provider.ProviderConfigDefaults | mcp/provider.py:14-17 | the base config has only `enabled`, defaulting to true; a string that spells no boolean is refused |
| Provider.BaseClass | mcp/provider.py:23-31 | the base class attributes: no name, the custom category, SSE, no OAuth |
| Provider.MCPProvider.constructor | mcp/provider.py:33-43 | a new provider is disconnected with no transport or client |
| Provider.MCPProvider.Connect | mcp/provider.py:55-60 | a created transport gets a fresh client; the provider is connected only when the transport opened |
| Provider.MCPProvider.Disconnect | mcp/provider.py:62-68 | a successful close (or no client) clears transport and client; a failing close leaves everything as it was |
| Provider.MCPProvider.ListResources | mcp/provider.py:77-81 | without a client "Not connected"; otherwise exactly the client's `list_resources` |
| Provider.MCPProvider.ReadResource | mcp/provider.py:83-87 | without a client "Not connected"; otherwise the client's `read_resource` |
| Provider.MCPProvider.ListTools | mcp/provider.py:89-93 | without a client "Not connected"; otherwise the client's `list_tools` |
| Provider.MCPProvider.CallTool | mcp/provider.py:95-101 | without a client "Not connected"; otherwise the client's `call_tool` |
| Provider.MCPProvider.ListPrompts | mcp/provider.py:103-107 | without a client "Not connected"; otherwise the client's `list_prompts` |
| Provider.MCPProvider.GetPrompt | mcp/provider.py:109-115 | without a client "Not connected"; otherwise the client's `get_prompt` |
| Provider.MCPProvider.HealthCheck | mcp/provider.py:119-133 | connects first when needed; healthy exactly when listing resources succeeds; a failed connection is unhealthy |
| Provider.MCPProvider.ValidateConfig | mcp/provider.py:135-147 | true exactly when the config validates against the class schema |
| Provider.MCPProvider.Enter | mcp/provider.py:151-154 | `async with` connects and returns the provider itself, or the connection's error |
| Provider.MCPProvider.Exit | mcp/provider.py:156-158 | leaving the block disconnects |
| Provider.NewProvider | mcp/provider.py:33-43 | construction validates the config (default `{}`) and stores the validated dump, or raises the validation error |
| Registry.OfCategory | mcp/registry.py:52-58 | the filtered classes all have the category |
| Registry.OfCategoryCount | mcp/registry.py:52-58 | filtering keeps every class of the category, as often as it occurs, and nothing else |
| Registry.OfCategoryAppend | mcp/registry.py:55-58 | filtering a concatenation is the concatenation of the filtered parts |
| Registry.OfCategoryOne | mcp/registry.py:55-58 | a single class is kept exactly when it has the category |
| Registry.OfCategoryOrder | mcp/registry.py:55-58 | two classes of the category keep their relative order, with only the filtered classes between and around them |
| Registry.GroupedByCategory | mcp/registry.py:143-156 | each category maps to its classes in registration order, and is absent when it has none |
| Registry.GroupedUnique | mcp/registry.py:143-156 | each category is grouped once |
| Registry.AddToGroup | mcp/registry.py:153-154 | a class is appended to its category's group |
| Registry.ProviderRegistry.constructor | mcp/registry.py:15-18 | a new registry is empty |
| Registry.ProviderRegistry.Register | mcp/registry.py:20-29 | a nameless class raises the ValueError; otherwise it is stored or replaced under its name and nothing else changes |
| Registry.ProviderRegistry.GetProviderClass | mcp/registry.py:31-41 | a class is found exactly when registered |
| Registry.ProviderRegistry.ListProviders | mcp/registry.py:43-58 | all classes in registration order, or exactly the filtered list of those of the category, with their multiplicities |
| Registry.ProviderRegistry.CreateProvider | mcp/registry.py:60-81 | an unknown name raises "not found in registry"; an invalid config its validation error; otherwise a fresh provider recorded as the instance |
| Registry.ProviderRegistry.GetInstance | mcp/registry.py:83-93 | an instance is found exactly when created |
| Registry.ProviderRegistry.ListByCategory | mcp/registry.py:143-156 | the grouping of all registered classes by category |
| Configuration.EnvPrefix | mcp/config.py:163 | the prefix is the upper-cased name followed by `_` |
| Configuration.OverlayKeeps | mcp/config.py:164-168 | a key no variable sets keeps its value |
| Configuration.OverlayLast | mcp/config.py:164-168 | a key set by several variables gets the last one's value |
| Configuration.LoadGlobal | mcp/config.py:74-88 | without logging and timeouts sections the global settings are the defaults |
| Configuration.Names | mcp/config.py:91 | enabled providers parse only from a list of strings |
| Configuration.LoadDocument | mcp/config.py:71 | a falsy document counts as `{}`; a non-empty document must be a mapping |
| Configuration.LoadData | mcp/config.py:74-105 | provider settings are exactly the enabled names present in the file, with their sections |
| Configuration.Load | mcp/config.py:39-110 | a missing file gives the default config; an unparsable one "Failed to parse config.yaml: …" |
| Configuration.Save | mcp/config.py:112-148 | the document has the reserved keys and every provider section, and provider sections replace reserved keys |
| Configuration.NamesOfStrList | mcp/config.py:91-128 | a saved list of names loads back |
| Configuration.SavedGlobal | mcp/config.py:74-88 | saved global settings load back when no provider shadows them |
| Configuration.SavedSettings | mcp/config.py:94-96 | an enabled provider's saved section loads back |
| Configuration.LoadDataOk | mcp/config.py:74-105 | a well-typed document loads as its enabled list, its sections and the global settings |
| Configuration.SaveLoad | mcp/config.py:39-148 | save then load gives back the config, keeping only the enabled providers' settings, when no name is reserved |
| Configuration.LoadObject | mcp/config.py:71 | a non-empty mapping is loaded as is |
| Configuration.SavedEnabled | mcp/config.py:128 | the saved enabled list reads back |
| Configuration.ReservedNameClobbers | mcp/config.py:140-141 | a provider named `logging` overwrites the logging section, so its level is what loads back |
| Configuration.RemoveFirst | mcp/config.py:207-208 | `list.remove` removes one element when present and changes nothing otherwise |
| Configuration.RemoveFirstMembers | mcp/config.py:207-208 | on a list without duplicates removal removes exactly the name |
| Configuration.DisableLeavesDuplicate | mcp/config.py:207-208 | a name enabled twice is still enabled after one disable |
| Configuration.Config.constructor | mcp/config.py:25-36 | the config holds the given data |
| Configuration.Config.IsProviderEnabled | mcp/config.py:172-182 | enabled exactly when the name is in the list |
| Configuration.Config.EnableProvider | mcp/config.py:184-198 | appends the name once, stores non-empty settings, keeps the list free of duplicates |
| Configuration.Config.DisableProvider | mcp/config.py:200-208 | removes the first occurrence; on a duplicate-free list exactly that name stops being enabled |
| Configuration.Config.GetProviderConfig | mcp/config.py:150-170 | the stored settings overlaid with the matching environment variables, written back into the stored dict when there is one |
| Configuration.Config.SaveDocument | mcp/config.py:112-148 | the YAML document `save` writes |
| Configuration.LoadConfig | mcp/config.py:214-227 | a config object with the loaded data, or the load error |
| Configuration.MissingOrEmptyIsDefault | mcp/config.py:14-22 | a missing or empty file gives the defaults INFO, json, 30 and 60 |
| ApiKey.NewApiKeyAuth | mcp/auth/api_key.py:6-22 | omitted header name and prefix default to `Authorization` and `Bearer` |
| ApiKey.GetHeaders | mcp/auth/api_key.py:24-36 | one header whose value is `prefix key`, or the bare key without a prefix |
| ApiKey.HeaderCarriesKey | mcp/auth/api_key.py:33-36 | the key reads back from the header after the prefix |
| ApiKey.DefaultHeaders | mcp/auth/api_key.py:14-36 | by default the header is `Authorization: Bearer <key>` |
| ApiKey.TokenStore.constructor | mcp/auth/api_key.py:39-44 | a new store is empty |
| ApiKey.TokenStore.Get | mcp/auth/api_key.py:56-66 | the stored tokens, or None exactly when nothing is stored |
| ApiKey.TokenStore.Store | mcp/auth/api_key.py:46-54 | replaces the provider's tokens; others unchanged |
| ApiKey.TokenStore.Remove | mcp/auth/api_key.py:68-75 | removes the provider's tokens, silently when absent; others unchanged |
| ApiKey.TokenStore.Clear | mcp/auth/api_key.py:77-79 | no provider has tokens |
| ApiKey.TokenStoreModule.constructor | mcp/auth/api_key.py:83 | the global store starts empty |
| ApiKey.TokenStoreModule.GetTokenStore | mcp/auth/api_key.py:83-88 | always the same global store |
| Atlassian.ConfigWellFormed | provider_mcps/enterprise/atlassian/config.py:8-32 | the Atlassian schema declares each field once with a default of its own type |
| Atlassian.ConfigNames | provider_mcps/enterprise/atlassian/config.py:8-32 | the schema has exactly its six declared fields |
| Atlassian.FieldTyped | provider_mcps/enterprise/atlassian/config.py:8-32 | every validated field has its declared type |
| Atlassian.ValidatedTyped | provider_mcps/enterprise/atlassian/config.py:8-32 | a validated config is a typed dump |
| Atlassian.TypedRoundTrip | provider_mcps/enterprise/atlassian/config.py:8-32 | a typed dump converts to a config and back unchanged |
| Atlassian.DumpRoundTrip | provider_mcps/enterprise/atlassian/config.py:8-32 | a validated config converts and dumps back unchanged |
| Atlassian.DefaultConfig | provider_mcps/enterprise/atlassian/config.py:8-32 | an empty config validates to the defaults |
| Atlassian.BuildCommand | provider_mcps/enterprise/atlassian/provider.py:68-90 | `npx -y mcp-remote[@version] <endpoint>` with npx, `mcp-remote <endpoint>` without |
| Atlassian.DefaultCommand | provider_mcps/enterprise/atlassian/provider.py:68-90 | the defaults run `npx -y mcp-remote https://mcp.atlassian.com/v1/sse` |
| Atlassian.CreateTransport | provider_mcps/enterprise/atlassian/provider.py:37-66 | when npx is required but missing, a ConfigurationError; otherwise a fresh, disconnected stdio transport running the built command |
| Atlassian.SearchJiraIssues | provider_mcps/enterprise/atlassian/provider.py:94-109 | calls `jira_search_issues` with the JQL and `maxResults`, default 50 |
| Atlassian.GetJiraIssue | provider_mcps/enterprise/atlassian/provider.py:111-121 | calls `jira_get_issue` with the issue key |
| Atlassian.SearchConfluencePages | provider_mcps/enterprise/atlassian/provider.py:123-136 | calls `confluence_search` with the query and `limit`, default 25 |
| Atlassian.GetConfluencePage | provider_mcps/enterprise/atlassian/provider.py:138-148 | calls `confluence_get_page` with the page id |
| Atlassian.ConvenienceToolsDistinct | provider_mcps/enterprise/atlassian/provider.py:94-148 | the four convenience methods call four different tools |
| Atlassian.CallConvenience | provider_mcps/enterprise/atlassian/provider.py:94-148 | a convenience call is exactly the provider's `call_tool` |
| Protocol.PyIn | mcp/transport/stdio.py:189 | `key in value` raises TypeError naming the type for None, bools and ints; tests key membership for a dict, element membership for a list and substring for a str |
| Pending.PyIndex | mcp/transport/stdio.py:190 | `message["id"]` yields the value or raises KeyError |
| Pending.KeyTextOfId | mcp/transport/stdio.py:116 | `str(id)` of a parsed id is the pending-table key of the request |
| Pending.Settle | mcp/transport/stdio.py:193-197 | a valid response completes the future; an invalid one completes it with "Invalid response: …" |
| Pending.CompleteEntry | mcp/transport/stdio.py:191-197 | only a waiting future under the message's key is completed |
| Pending.CompleteKeys | mcp/transport/stdio.py:191-197 | completing a future adds and removes no keys |
| Pending.SameKeysUnique | mcp/transport/stdio.py:115-117 | tables with the same keys are equally free of duplicates |
| Pending.IsResponse | mcp/transport/stdio.py:189 | the stdio test `"id" in m and ("result" in m or "error" in m)`; the SSE test as Python groups it |
| Pending.StdioDispatch | mcp/transport/stdio.py:189-197 | a stdio message completes exactly the waiting future its id names |
| Pending.SseDispatch | mcp/transport/sse.py:166-174 | an SSE error without an id raises KeyError; otherwise the matching waiting future is completed |
| Pending.NotificationIgnored | mcp/transport/stdio.py:199-201 | a notification leaves the table unchanged |
| Pending.ScalarEndsLoop | mcp/transport/stdio.py:204-208 | a scalar JSON message ends the listen loop |
| Pending.DeliversResponse | mcp/transport/stdio.py:189-197 | a dumped response completes its own request's future with itself |
| Pending.DispatchKeys | mcp/transport/stdio.py:189-197 | dispatch never changes the table's keys |
| Pending.DispatchAllKeys | mcp/transport/stdio.py:184-208 | the whole loop never changes the table's keys |
| Pending.DispatchAllSnoc | mcp/transport/stdio.py:184-208 | one more message either completes a future or ends the loop |
| Pending.DispatchAllDead | mcp/transport/stdio.py:184-208 | nothing is dispatched after the loop ended |
| Pending.Duration | mcp/transport/stdio.py:130 | `timeout or 60.0`: None and 0.0 give 60 seconds |
| Pending.Answer | mcp/transport/stdio.py:130-135 | a completed future gives its outcome; a waiting one times out with the request id and duration |
| Pending.DefaultTimeoutMessage | mcp/transport/stdio.py:133-135 | the default timeout reads "Request … timed out after 60.0s" |
| StdioTransport.LineMessage | mcp/transport/stdio.py:163-182 | a line yields a message exactly when it is non-blank after stripping and parses |
| StdioTransport.OpenPrefix | mcp/transport/stdio.py:163-182 | a prefix of an open stream is open |
| StdioTransport.MessagesAppend | mcp/transport/stdio.py:163-182 | the messages of an open stream followed by more lines are the concatenation |
| StdioTransport.OneLine | mcp/transport/stdio.py:163-182 | one ordinary line yields its own message |
| StdioTransport.DispatchNext | mcp/transport/stdio.py:184-208 | one more message extends the dispatch |
| StdioTransport.EndingLine | mcp/transport/stdio.py:169-170 | end of file yields nothing and closes the stream |
| StdioTransport.OpenLine | mcp/transport/stdio.py:163-182 | an ordinary line adds its message and keeps the stream open |
| StdioTransport.MessagesPastEnd | mcp/transport/stdio.py:169-170 | nothing is read after end of file |
| StdioTransport.SkippedLine | mcp/transport/stdio.py:172-182 | blank and unparsable lines are skipped |
| StdioTransport.MessageOrigin | mcp/transport/stdio.py:163-182 | every message comes from one line read before end of file |
| StdioTransport.Heard | mcp/transport/stdio.py:184-208 | a stopped listener hears nothing; listening never changes the table's keys |
| StdioTransport.StopActions | mcp/transport/stdio.py:59-92 | disconnect closes stdin when present, always terminates, and kills only a process that ignores terminate |
| StdioTransport.WriteFailure | mcp/transport/stdio.py:137-140 | a write failure surfaces as a TransportError unless it already is one or a timeout |
| StdioTransport.StdioTransport.constructor | mcp/transport/stdio.py:15-29 | a new transport is disconnected with no process and nothing pending |
| StdioTransport.StdioTransport.Connect | mcp/transport/stdio.py:31-57 | a spawn failure raises "Failed to start subprocess …"; otherwise connected, listening when the process has stdout |
| StdioTransport.StdioTransport.Disconnect | mcp/transport/stdio.py:59-92 | the process is shut down by `StopActions` and forgotten; pending requests stay |
| StdioTransport.StdioTransport.ReadLoop | mcp/transport/stdio.py:184-208 | the loop leaves the table and the listening flag as `Heard` says |
| StdioTransport.StdioTransport.ReadStep | mcp/transport/stdio.py:184-208 | one iteration of the listen loop keeps the loop invariant |
| StdioTransport.StdioTransport.SendRequest | mcp/transport/stdio.py:94-143 | "Not connected" when not ready; otherwise registers the request, writes it, answers from the listener's table and always removes the entry |
| StdioTransport.AnsweredRequest | mcp/transport/stdio.py:94-143 | a reply line carrying the response answers the request with it |
| StdioTransport.UnansweredRequest | mcp/transport/stdio.py:130-135 | an unanswered request times out with the source's message |
| SseTransport.EndpointUrls | mcp/transport/sse.py:50-109 | the health and message URLs replace `/sse` in the endpoint |
| SseTransport.EventMessage | mcp/transport/sse.py:148-156 | an event yields a message exactly when its data is non-empty and parses |
| SseTransport.MessagesAppend | mcp/transport/sse.py:131-159 | the messages of an open stream followed by more events are the concatenation |
| SseTransport.MessagesPastEnd | mcp/transport/sse.py:131-159 | nothing is read after the stream ends |
| SseTransport.OpenPrefix | mcp/transport/sse.py:131-159 | a prefix of an open stream is open |
| SseTransport.EndingEvent | mcp/transport/sse.py:158-159 | the end of the stream yields nothing and closes it |
| SseTransport.OpenEvent | mcp/transport/sse.py:148-156 | an event adds its message and keeps the stream open |
| SseTransport.DispatchNext | mcp/transport/sse.py:161-180 | one more message extends the dispatch |
| SseTransport.Heard | mcp/transport/sse.py:161-180 | a stopped listener hears nothing; listening never changes the table's keys |
| SseTransport.SseTransport.constructor | mcp/transport/sse.py:19-32 | headers default to `{}`; nothing is connected or pending |
| SseTransport.SseTransport.ProbeFailure | mcp/transport/sse.py:44-62 | the health probe fails exactly on an HTTP error, another exception or a status of 400 or more, always as a ConnectionError |
| SseTransport.SseTransport.PostFailure | mcp/transport/sse.py:108-126 | the POST fails exactly on an HTTP error, another exception or a status of 400 or more; other exceptions pass through unchanged |
| SseTransport.SseTransport.Connect | mcp/transport/sse.py:34-62 | probes the health URL; a failure is a ConnectionError; success connects and starts listening |
| SseTransport.SseTransport.Disconnect | mcp/transport/sse.py:64-79 | not connected, not listening, no client |
| SseTransport.SseTransport.ReadLoop | mcp/transport/sse.py:161-180 | the loop leaves the table and the listening flag as `Heard` says |
| SseTransport.SseTransport.ReadStep | mcp/transport/sse.py:161-180 | one iteration of the listen loop keeps the loop invariant |
| SseTransport.SseTransport.SendRequest | mcp/transport/sse.py:81-129 | "Not connected" when not ready; otherwise registers, posts, answers from the listener's table and always removes the entry |
| SseTransport.ErrorWithoutIdStopsListener | mcp/transport/sse.py:166-167 | an error event without an id ends the listener and completes nothing |
| StdioServer.HandleRequest | mcp/server/stdio_server.py:118-158 | an unknown method gives -32601 "Method not found"; a handler's failure gives -32000 with its message; the reply keeps the id and never has both result and error |
| StdioServer.CodeTexts | mcp/server/stdio_server.py:135-154 | the error codes print as -32601 and -32000 |
| StdioServer.ClientReadsAnswer | mcp/server/stdio_server.py:118-158 | the gateway's answers read back through the client as the handler's result or the matching MCP error |
| StdioServer.BuildRequest | mcp/server/stdio_server.py:64-65 | a request is built only from a JSON object that parses as one; any other value gives the TypeError "mcp.protocol.JSONRPCRequest() argument after ** must be a mapping, not <type>" |
| StdioServer.StoppedStays | mcp/server/stdio_server.py:54-56 | after end of input nothing more is read or written |
| StdioServer.OneAnswerPerLine | mcp/server/stdio_server.py:44-102 | each non-blank line read before end of input gets exactly one reply, appended after the earlier ones |
| StdioServer.NotJsonAnswered | mcp/server/stdio_server.py:73-82 | invalid JSON gets a -32700 parse error with id "unknown" |
| StdioServer.StaleIdReported | mcp/server/stdio_server.py:84-93 | a malformed request after a good one is reported with the previous request's id, as `locals()` keeps it |
| StdioServer.StdioMCPServer.constructor | mcp/server/stdio_server.py:21-28 | a new server is not running and has no handlers |
| StdioServer.StdioMCPServer.Start | mcp/server/stdio_server.py:21-28 | the server runs |
| StdioServer.StdioMCPServer.Stop | mcp/server/stdio_server.py:30-42 | the server stops |
| StdioServer.StdioMCPServer.RegisterHandler | mcp/server/base.py:40-48 | the handler is installed under the method, replacing any earlier one |
| StdioServer.StdioMCPServer.ReadLoop | mcp/server/stdio_server.py:44-102 | a running server writes exactly what `Serve` produces from the lines |
| Gateway.ConnectedProviders | mcp/gateway.py:68-91 | after the connect loop a name is in the table exactly when it was before or one of its attempts succeeded; the table stays keyed by name |
| Gateway.ValuesNamed | mcp/gateway.py:96-107 | every provider handed to the aggregators is in the table under its own name |
| Gateway.ArgumentsOf | mcp/gateway.py:204 | absent arguments are `{}` |
| Gateway.Translate | mcp/gateway.py:211-218 | a ValueError becomes a ProtocolError and a RuntimeError a ProviderError; no ValueError escapes |
| Gateway.ListPayload | mcp/gateway.py:175-178 | the payload has one key holding each item's dump in order |
| Gateway.ItemsReadBack | mcp/gateway.py:175-178 | dumped items parse back element by element |
| Gateway.MergeUpdate | mcp/gateway.py:304-316 | registering one more handler after a merge is the same as merging the table with it |
| Gateway.ToolsPayloadReadBack | mcp/gateway.py:160-178 | a client reading `tools/list` gets the gateway's tools back |
| Gateway.ResourcesPayloadReadBack | mcp/gateway.py:220-238 | a client reading `resources/list` gets the gateway's resources back |
| Gateway.PromptsPayloadReadBack | mcp/gateway.py:271-289 | a client reading `prompts/list` gets the gateway's prompts back |
| Gateway.HandlePromptsGet | mcp/gateway.py:291-302 | always NotImplementedError "Prompt routing not yet implemented" |
| Gateway.InstallsGatewayHandlers | mcp/gateway.py:304-316 | six successive registrations amount to merging the gateway's handler table |
| Gateway.MCPGateway.constructor | mcp/gateway.py:38-58 | a new gateway has an empty table and no aggregators, routers or caches |
| Gateway.MCPGateway.Refresh | mcp/gateway.py:147-156 | each existing aggregator re-aggregates, and the caches hold the results |
| Gateway.ListToolsTwice | mcp/gateway.py:160-178 | two `tools/list` requests in a row list the same tools, whatever the providers list by the second, since the first fills the cache |
| Gateway.MCPGateway.ConnectProviders | mcp/gateway.py:68-91 | the connect loop builds `Connected` and keeps the table keyed |
| Gateway.MCPGateway.CreateAggregators | mcp/gateway.py:96-100 | three fresh aggregators over the connected providers |
| Gateway.MCPGateway.CreateRouters | mcp/gateway.py:101-107 | routers and resolver over the table and aggregators |
| Gateway.MCPGateway.Start | mcp/gateway.py:60-129 | no connected provider raises "No providers connected. Check configuration."; otherwise everything is built and the caches hold fresh aggregations |
| Gateway.MCPGateway.Stop | mcp/gateway.py:131-145 | the provider table is cleared |
| Gateway.MCPGateway.HandleToolsList | mcp/gateway.py:160-178 | with a tool cache, lists it and changes nothing; without one, refreshes every aggregation as `Refresh` does (aggregators and routers kept, each cache holding its fresh aggregation) and lists the fresh tools, or nothing without a tool aggregator |
| Gateway.MCPGateway.HandleResourcesList | mcp/gateway.py:220-238 | with a resource cache, lists it and changes nothing; without one, refreshes every aggregation as `Refresh` does (aggregators and routers kept, each cache holding its fresh aggregation) and lists the fresh resources, or nothing without a resource aggregator |
| Gateway.MCPGateway.HandlePromptsList | mcp/gateway.py:271-289 | with a prompt cache, lists it and changes nothing; without one, refreshes every aggregation as `Refresh` does (aggregators and routers kept, each cache holding its fresh aggregation) and lists the fresh prompts, or nothing without a prompt aggregator |
| Gateway.MCPGateway.HandleToolsCall | mcp/gateway.py:180-218 | a missing name, an uninitialized gateway, a routing failure and a provider failure give their errors in the source's order; a non-string name gives the router's uncaught TypeError or AttributeError; success dumps the tool result |
| Gateway.MCPGateway.HandleResourcesRead | mcp/gateway.py:240-269 | the same order of checks for a resource read; a non-string URI gives the router's error, translated as for a string; success dumps the provider's `ResourceContent` |
| Gateway.MCPGateway.RegisterHandlers | mcp/gateway.py:304-316 | the server's handlers gain exactly the six gateway methods |
| Gateway.NonStringNameUntranslated | mcp/gateway.py:199-218 | the errors of a non-string name are neither ValueError nor RuntimeError, so the gateway passes them on unchanged |
| Gateway.IntNameNotIterable | mcp/router.py:73 | an integer name raises "argument of type 'int' is not iterable" |
| Gateway.ColonListNameNoSplit | mcp/router.py:73-74 | the name `[":"]` raises "'list' object has no attribute 'split'" |
| Gateway.ListNameUnhashable | mcp/aggregator.py:110 | the name `["a:b"]` raises "unhashable type: 'list'" |
| Gateway.ListUriInvalid | mcp/gateway.py:250-266 | a list URI without a `://` element is a ProtocolError "Invalid resource URI: Invalid URI format: [<items>]. …" |
| Gateway.ListUriNoSplit | mcp/gateway.py:250-269 | a list URI with a `://` element reaches the caller as the AttributeError of `split` |
| Gateway.CachedToolsRoute | mcp/gateway.py:160-218 | every tool the gateway lists routes back to the provider and raw tool it came from |

Some functions are reference definitions rather than promises: each builds a list position by
position, and the lemmas and methods above state what it means.

- `Aggregator.Names`, `Aggregator.ToolEntries`: the step-1 and step-2 inputs. What they mean is
  stated by `Aggregator.CollectListings`, `Aggregator.CountNames` and
  `Namespacing.ConflictIffRepeated`.
- `Aggregator.EnrichAll`: one provider's exposed tools. Stated by `Aggregator.AggregatedSnoc`,
  `Namespacing.SegmentUnique` and `Namespacing.AggregatedOrigin`.
- `Aggregator.CacheEntries`, `Aggregator.OwnerEntries`: the assignments step 3 makes. Stated by
  `Namespacing.LookupAfterAggregation` and `Router.RoutesEveryExposedName`.
- `Aggregator.SchemeEntries`: the scheme map's assignments. Stated by `Router.SchemeLookup`.
- `ConflictResolution.Forms`: stated by `ConflictResolution.FormsMatchVariants`.
- `ConflictResolution.SecondOf`: stated by `ConflictResolution.SimilarTools`.
- `Protocol.StrList`: a list of strings as a JSON array. Stated by `Configuration.NamesOfStrList`.
- `Protocol.PromptParametersToJson`, `Protocol.PromptMessagesToJson`: stated by
  `Protocol.PromptParametersRoundTrip` and `Protocol.PromptMessagesRoundTrip`.
- `Gateway.ToolListings`, `Gateway.ResourceListings`, `Gateway.PromptListings`: what each
  provider lists now. Stated through `Gateway.MCPGateway.Refresh` and `Gateway.CachedToolsRoute`.

## Left out

- I/O, subprocess spawning, HTTP and asyncio scheduling are not modelled. What a process, an
  endpoint or a provider answers is a parameter: an exchange function, the lines or events
  read, or a `Result`.
- The concurrency between a transport's sender and its background listener is not modelled.
  `SendRequest` runs the listener over the replies given, after registering the request.
- Pydantic's lax coercions are not modelled: a numeric string read as an int, and a string such
  as "yes" or "off" read as a bool. A
  validation error carries only the field name, not pydantic's text.
- Exception messages that embed another exception's text use the text modelled for it.
  `type(e).__name__` becomes `Wrappers.Error.ClassName`.
- Floating-point timeouts are modelled as `real`. The `{timeout}s` text is exact only for
  values with at most three decimals. Longer fractions are cut after the third, and
  Python's exponent form (`1e-05`, `1e+16`) is never produced.
- JSON text, YAML text and key order are not modelled. JSON numbers are integers only.
- ASCII-only lower and upper casing, used for environment prefixes and similarity scoring.
- Protocol.ParseResourceContent: `blob` is `bytes` in the source. The model keeps it as the
  JSON string pydantic reads it from, without base64 or UTF-8 decoding.
- Client.Outgoing: the `uuid4().hex[:8]` suffix of request ids is a parameter.
- Gateway.MCPGateway.Stop: the table holds provider descriptions, not provider objects, so
  each provider's `disconnect` is not modelled. Only the clearing is.
- Protocol.Repr: a dict is written `{...}`, without its items, and a string is always put in
  single quotes. Python's repr lists a dict's items and switches to double quotes for a
  string holding a single quote, with escapes. Only the "Invalid URI format" text of a
  non-string URI uses it.
- Aggregator.ReprList: the provider names in "Available providers: […]" are always put in
  single quotes. A name holding a single quote, a backslash or a control character is
  written differently by Python's repr.
- Configuration.LoadData: the "Failed to load configuration: " error leaves out the text of
  the exception it wraps (the `{e}` of mcp/config.py:110). That text comes from pydantic or
  from a failed attribute lookup on a section, and neither is modelled.
- StdioServer.BuildRequest: the module path `mcp.protocol` in the TypeError text assumes the
  package is imported under its own name.
- Gateway.MCPGateway.HandleToolsList: the list handlers ignore their parameters, as in the source.
- `MCPGateway.__aenter__`/`__aexit__` and the `__repr__` methods are not modelled: they only
  call the modelled start/stop or print.
- `ProviderRegistry.discover_providers` imports Python packages by name and is not modelled.
  `get_registry` is the single module-level instance, like `ApiKey.TokenStoreModule`.
- StdioTransport.StdioTransport.Disconnect: a failure while closing stdin is not modelled.
- StdioTransport.LineMessage: a line that is not valid UTF-8 is the input `Undecodable` and is
  skipped, as in the source. The byte decoding itself is not modelled.
- StdioTransport.ListRepr: `str(command)` writes every item in single quotes. Python's repr
  switches to double quotes for an item holding a single quote and escapes backslashes and
  control characters. That quoting is not modelled, so the text of "Failed to start
  subprocess …" differs for such commands.
- Pending.KeyText: a list or dict `id` is filed under no key, where Python files it under its
  `str()` text.
- `StdioTransport.get_stderr` and all stderr logging are not modelled.
- SseTransport.SseTransport.Connect: headers and client timeouts are stored but not
  interpreted.
- SseTransport.SseTransport.SendRequest: the HTTP response text in "Server returned …" is
  part of the outcome parameter.
- StdioServer.StdioMCPServer.ReadLoop: `running` cannot change while the loop runs, since
  `stop` needs another task.
- The `_send_response` dump is `ResponseToJson`. The JSON line and flush are not modelled.
- ConflictResolution.ConflictResolver.GetProviderUnavailableError: the `error_data` a
  resolver builds is discarded by its callers in the source. The gateway's errors are
  modelled without it.
- The gateway keeps the list of enabled providers it was constructed with. Reloading the
  config at run time is not modelled.
- OAuth (mcp/auth/oauth.py), the CLI and the wizard are not part of this model.
