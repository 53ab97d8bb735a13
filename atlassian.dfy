/** The Atlassian provider of provider_mcps/enterprise/atlassian: its class attributes, its
    configuration model, the `mcp-remote` command line it runs over a stdio transport, and its
    convenience tool calls. Whether `npx` is on the PATH is an input. */
module Atlassian {
  import opened Wrappers
  import opened Protocol
  import opened Categories
  import opened Client
  import opened Provider
  import Stdio = StdioTransport

  const ATLASSIAN_ENDPOINT: string := "https://mcp.atlassian.com/v1/sse"

  /** `AtlassianConfig`, field by field in declaration order, with its defaults. */
  const ATLASSIAN_CONFIG: Schema := [
    Field("endpoint", StrField, JStr(ATLASSIAN_ENDPOINT)),
    Field("use_npx", BoolField, JBool(true)),
    Field("mcp_remote_version", OptStrField, JNull),
    Field("default_project", OptStrField, JNull),
    Field("cloud_id", OptStrField, JNull),
    Field("timeout", IntField, JInt(30))]

  /** A validated `AtlassianConfig`. */
  datatype AtlassianConfig = AtlassianConfig(endpoint: string, useNpx: bool, mcpRemoteVersion: Option<string>,
                                             defaultProject: Option<string>, cloudId: Option<string>,
                                             timeout: int)

  const DEFAULT_CONFIG: AtlassianConfig := AtlassianConfig(ATLASSIAN_ENDPOINT, true, None, None, None, 30)

  /** The class attributes of `AtlassianProvider`. */
  const ATLASSIAN_PROVIDER: ProviderClass :=
    ProviderClass("provider_mcps.enterprise.atlassian.provider.AtlassianProvider", "atlassian",
                  "Atlassian Suite", Enterprise, "\U{1F3E2}", "Connect to Jira, Confluence, and Compass",
                  "stdio", true, ATLASSIAN_CONFIG)

  function OptStrDump(v: Option<string>): Json {
    if v.Some? then JStr(v.value) else JNull
  }

  /** `model_dump()` of a configuration. */
  function Dump(c: AtlassianConfig): Object {
    map["endpoint" := JStr(c.endpoint), "use_npx" := JBool(c.useNpx),
        "mcp_remote_version" := OptStrDump(c.mcpRemoteVersion),
        "default_project" := OptStrDump(c.defaultProject), "cloud_id" := OptStrDump(c.cloudId),
        "timeout" := JInt(c.timeout)]
  }

  function StrAt(d: Object, k: string): Option<string> {
    if k in d && d[k].JStr? then Some(d[k].s) else None
  }

  /** The configuration a validated dump describes. */
  function FromDump(d: Object): AtlassianConfig {
    AtlassianConfig(
      StrAt(d, "endpoint").GetOr(""),
      "use_npx" in d && d["use_npx"] == JBool(true),
      StrAt(d, "mcp_remote_version"),
      StrAt(d, "default_project"),
      StrAt(d, "cloud_id"),
      if "timeout" in d && d["timeout"].JInt? then d["timeout"].i else 0)
  }

  const FIELD_NAMES: set<string> := {"endpoint", "use_npx", "mcp_remote_version", "default_project", "cloud_id", "timeout"}

  /** Field names are distinct and every default has its field's type. */
  lemma ConfigWellFormed()
    ensures WellFormed(ATLASSIAN_CONFIG)
  {
  }

  lemma ConfigNames()
    ensures Names(ATLASSIAN_CONFIG) == FIELD_NAMES
  {
    forall n | n in Names(ATLASSIAN_CONFIG) ensures n in FIELD_NAMES {
      var k := NameDeclared(ATLASSIAN_CONFIG, n);
    }
    assert ATLASSIAN_CONFIG[0].name in Names(ATLASSIAN_CONFIG);
    assert ATLASSIAN_CONFIG[1].name in Names(ATLASSIAN_CONFIG);
    assert ATLASSIAN_CONFIG[2].name in Names(ATLASSIAN_CONFIG);
    assert ATLASSIAN_CONFIG[3].name in Names(ATLASSIAN_CONFIG);
    assert ATLASSIAN_CONFIG[4].name in Names(ATLASSIAN_CONFIG);
    assert ATLASSIAN_CONFIG[5].name in Names(ATLASSIAN_CONFIG);
  }

  /** A dump whose every field holds a value of its declared type. */
  ghost predicate TypedDump(d: Object) {
    d.Keys == FIELD_NAMES && d["endpoint"].JStr? && d["use_npx"].JBool? &&
    (d["mcp_remote_version"].JNull? || d["mcp_remote_version"].JStr?) &&
    (d["default_project"].JNull? || d["default_project"].JStr?) &&
    (d["cloud_id"].JNull? || d["cloud_id"].JStr?) && d["timeout"].JInt?
  }

  lemma FieldTyped(o: Object, k: nat)
    requires Validate(ATLASSIAN_CONFIG, o).Ok? && k < |ATLASSIAN_CONFIG|
    ensures HasKind(ATLASSIAN_CONFIG[k].kind, Validate(ATLASSIAN_CONFIG, o).value[ATLASSIAN_CONFIG[k].name])
  {
    ConfigWellFormed();
    ValidateSucceeds(ATLASSIAN_CONFIG, o);
    ValidateValue(ATLASSIAN_CONFIG, o, k);
  }

  /** Every validated dump is typed. */
  lemma ValidatedTyped(o: Object)
    requires Validate(ATLASSIAN_CONFIG, o).Ok?
    ensures TypedDump(Validate(ATLASSIAN_CONFIG, o).value)
  {
    ConfigNames();
    FieldTyped(o, 0);
    FieldTyped(o, 1);
    FieldTyped(o, 2);
    FieldTyped(o, 3);
    FieldTyped(o, 4);
    FieldTyped(o, 5);
  }

  /** Reading a typed dump loses nothing. */
  lemma TypedRoundTrip(d: Object)
    requires TypedDump(d)
    ensures Dump(FromDump(d)) == d
  {
    var e := Dump(FromDump(d));
    assert e.Keys == d.Keys;
    forall n | n in e.Keys ensures e[n] == d[n] {
    }
  }

  /** Reading a validated configuration loses nothing: its dump is the validated dict. */
  lemma DumpRoundTrip(o: Object)
    requires Validate(ATLASSIAN_CONFIG, o).Ok?
    ensures Dump(FromDump(Validate(ATLASSIAN_CONFIG, o).value)) == Validate(ATLASSIAN_CONFIG, o).value
  {
    ValidatedTyped(o);
    TypedRoundTrip(Validate(ATLASSIAN_CONFIG, o).value);
  }

  /** An empty configuration takes every default. */
  lemma DefaultConfig()
    ensures Validate(ATLASSIAN_CONFIG, map[]) == Ok(Dump(DEFAULT_CONFIG))
  {
    ConfigWellFormed();
    ConfigNames();
    ValidateSucceeds(ATLASSIAN_CONFIG, map[]);
    ValidateValue(ATLASSIAN_CONFIG, map[], 0);
    ValidateValue(ATLASSIAN_CONFIG, map[], 1);
    ValidateValue(ATLASSIAN_CONFIG, map[], 2);
    ValidateValue(ATLASSIAN_CONFIG, map[], 3);
    ValidateValue(ATLASSIAN_CONFIG, map[], 4);
    ValidateValue(ATLASSIAN_CONFIG, map[], 5);
    var d := Validate(ATLASSIAN_CONFIG, map[]).value;
    var e := Dump(DEFAULT_CONFIG);
    assert d.Keys == e.Keys;
    assert d == e;
  }

  /** `_build_command`: `npx -y mcp-remote[@version] <endpoint>`, or `mcp-remote <endpoint>`
      without npx. An empty version counts as none. */
  function BuildCommand(c: AtlassianConfig): (r: seq<string>)
    ensures |r| == if c.useNpx then 4 else 2
    ensures r[|r| - 1] == c.endpoint
    ensures c.useNpx ==> r[..2] == ["npx", "-y"]
    ensures c.useNpx ==> r[2] == if c.mcpRemoteVersion.Some? && c.mcpRemoteVersion.value != "" then "mcp-remote@" + c.mcpRemoteVersion.value else "mcp-remote"
    ensures !c.useNpx ==> r[0] == "mcp-remote"
  {
    if c.useNpx then
      var package := if c.mcpRemoteVersion.Some? && c.mcpRemoteVersion.value != "" then "mcp-remote@" + c.mcpRemoteVersion.value
                     else "mcp-remote";
      ["npx", "-y"] + [package] + [c.endpoint]
    else ["mcp-remote", c.endpoint]
  }

  /** The default configuration runs the latest `mcp-remote` against Atlassian's endpoint. */
  lemma DefaultCommand()
    ensures BuildCommand(DEFAULT_CONFIG) == ["npx", "-y", "mcp-remote", "https://mcp.atlassian.com/v1/sse"]
  {
  }

  const NPX_MISSING: string :=
    "npx not found. Please install Node.js v18+ to use Atlassian provider.\nDownload from: https://nodejs.org/"

  /** `create_transport`: with `use_npx` and no `npx` on the PATH, a configuration error and no
      transport; otherwise a new, unconnected stdio transport running the built command. */
  method CreateTransport(c: AtlassianConfig, npxFound: bool) returns (r: Result<Stdio.StdioTransport>)
    ensures c.useNpx && !npxFound ==> r == Err(ConfigurationError(NPX_MISSING))
    ensures !(c.useNpx && !npxFound) ==>
      r.Ok? && fresh(r.value) && r.value.command == BuildCommand(c) && r.value.Valid() &&
      !r.value.connected && r.value.process.None? && r.value.pending == []
  {
    if c.useNpx && !npxFound {
      return Err(ConfigurationError(NPX_MISSING));
    }
    var t := new Stdio.StdioTransport(BuildCommand(c));
    r := Ok(t);
  }

  /** A tool call one of the convenience methods makes. */
  datatype ToolCall = ToolCall(name: string, arguments: Object)

  /** `search_jira_issues` */
  function SearchJiraIssues(jql: string, maxResults: Option<int>): (r: ToolCall)
    ensures r.name == "jira_search_issues" && r.arguments.Keys == {"jql", "maxResults"}
    ensures r.arguments["jql"] == JStr(jql) && r.arguments["maxResults"] == JInt(maxResults.GetOr(50))
  {
    ToolCall("jira_search_issues", map["jql" := JStr(jql), "maxResults" := JInt(maxResults.GetOr(50))])
  }

  /** `get_jira_issue` */
  function GetJiraIssue(issueKey: string): (r: ToolCall)
    ensures r.name == "jira_get_issue" && r.arguments == map["issueKey" := JStr(issueKey)]
  {
    ToolCall("jira_get_issue", map["issueKey" := JStr(issueKey)])
  }

  /** `search_confluence_pages` */
  function SearchConfluencePages(query: string, limit: Option<int>): (r: ToolCall)
    ensures r.name == "confluence_search" && r.arguments.Keys == {"query", "limit"}
    ensures r.arguments["query"] == JStr(query) && r.arguments["limit"] == JInt(limit.GetOr(25))
  {
    ToolCall("confluence_search", map["query" := JStr(query), "limit" := JInt(limit.GetOr(25))])
  }

  /** `get_confluence_page` */
  function GetConfluencePage(pageId: string): (r: ToolCall)
    ensures r.name == "confluence_get_page" && r.arguments == map["pageId" := JStr(pageId)]
  {
    ToolCall("confluence_get_page", map["pageId" := JStr(pageId)])
  }

  /** The four convenience methods call four different tools. */
  lemma ConvenienceToolsDistinct(jql: string, m: Option<int>, key: string, q: string, l: Option<int>, page: string)
    ensures var names := [SearchJiraIssues(jql, m).name, GetJiraIssue(key).name,
                          SearchConfluencePages(q, l).name, GetConfluencePage(page).name];
      forall i, j :: 0 <= i < j < 4 ==> names[i] != names[j]
  {
  }

  /** A convenience method: `call_tool` with its fixed tool name and arguments, refused with
      "Provider not connected" when there is no client. */
  method CallConvenience(p: MCPProvider, call: ToolCall, suffix: string) returns (r: Result<ToolCallResult>)
    requires p.Valid() && IsHexSuffix(suffix)
    modifies p.ClientFrame()
    ensures p.client.None? ==> r == Err(RuntimeError(NOT_CONNECTED))
    ensures p.client.Some? ==> (p.client.value.requestCounter == old(p.client.value.requestCounter) + 1 &&
      var sent := Outgoing(p.client.value.requestCounter, suffix, TOOLS_CALL, Some(NamedParams(call.name, Some(call.arguments))));
      r == ToolCalled(p.transport.value.exchange(sent, None)))
  {
    r := p.CallTool(call.name, Some(call.arguments), suffix);
  }
}
