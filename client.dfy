/** The MCP client of mcp/client.py: a request-id counter, the JSON-RPC round trip through a
    transport, and the checks applied to the response. A transport is modelled by what it
    answers: a function from the request sent (and its timeout) to the response or the
    exception the transport raised. */
module Client {
  import opened Wrappers
  import opened Strings
  import opened Protocol

  /** What a transport's `send_request` does with one request and its timeout. */
  type Exchange = (Request, Option<real>) -> Result<Response>

  /** The first eight characters of `uuid.uuid4().hex`: lower-case hexadecimal digits. */
  predicate IsHexSuffix(s: string) {
    |s| == 8 && forall k :: 0 <= k < |s| ==> ('0' <= s[k] <= '9' || 'a' <= s[k] <= 'f')
  }

  /** `f"req-{counter}-{suffix}"` */
  function RequestIdText(counter: nat, suffix: string): (r: string)
    ensures StartsWith(r, "req-")
  {
    "req-" + NatToString(counter) + "-" + suffix
  }

  /** Two ids built from different counter values differ, whatever their random suffixes. */
  lemma RequestIdsDistinct(c1: nat, s1: string, c2: nat, s2: string)
    requires IsHexSuffix(s1) && IsHexSuffix(s2) && c1 != c2
    ensures RequestIdText(c1, s1) != RequestIdText(c2, s2)
  {
    var a, b := NatToString(c1), NatToString(c2);
    var t1, t2 := a + "-" + s1, b + "-" + s2;
    assert RequestIdText(c1, s1) == "req-" + t1;
    assert RequestIdText(c2, s2) == "req-" + t2;
    if RequestIdText(c1, s1) == RequestIdText(c2, s2) {
      assert t1 == ("req-" + t1)[4..] && t2 == ("req-" + t2)[4..];
      assert '-' !in a && '-' !in b;
      SplitAtFirst('-', a, s1, b, s2);
      NatToStringInjective(c1, c2);
    }
  }

  /** The checks `_send_request` applies to the transport's answer: a transport exception
      propagates; an error member wins over any result; a missing result is an error. */
  function CheckReply(methodName: string, reply: Result<Response>): (r: Result<Object>)
    ensures reply.Err? ==> r == Err(reply.error)
    ensures reply.Ok? && reply.value.error.Some? ==>
      var e := reply.value.error.value;
      r == Err(ProtocolError("MCP error " + IntToString(e.code) + ": " + e.message))
    ensures reply.Ok? && reply.value.error.None? && reply.value.result.None? ==>
      r == Err(ProtocolError("No result in response for " + methodName))
    ensures r.Ok? <==> reply.Ok? && reply.value.error.None? && reply.value.result.Some?
    ensures r.Ok? ==> r.value == reply.value.result.value
  {
    if reply.Err? then Err(reply.error)
    else if reply.value.error.Some? then
      var e := reply.value.error.value;
      Err(ProtocolError("MCP error " + IntToString(e.code) + ": " + e.message))
    else if reply.value.result.None? then Err(ProtocolError("No result in response for " + methodName))
    else Ok(reply.value.result.value)
  }

  /** An empty result is a result: only a missing one is rejected. */
  lemma EmptyResultAccepted(methodName: string, id: RequestId)
    ensures CheckReply(methodName, Ok(Response(id, Some(map[]), None))) == Ok(map[])
  {
  }

  /** `ToolsCallParams(name=..., arguments=arguments or {}).model_dump()`, and the same for
      `PromptsGetParams`: a missing or empty argument dict is sent as `{}`. */
  function NamedParams(name: string, arguments: Option<Object>): (r: Object)
    ensures r.Keys == {"name", "arguments"} && r["name"] == JStr(name)
    ensures r["arguments"] == JObj(arguments.GetOr(map[]))
  {
    var args := if arguments.None? || arguments.value == map[] then map[] else arguments.value;
    NamedArgumentsToJson(NamedArguments(name, args))
  }

  /** The server side validates what the client sends back into the same name and
      arguments. */
  lemma NamedParamsRoundTrip(name: string, arguments: Option<Object>)
    ensures ParseNamedArguments(NamedParams(name, arguments)) == Ok(NamedArguments(name, arguments.GetOr(map[])))
  {
    NamedArgumentsRoundTrip(NamedArguments(name, arguments.GetOr(map[])));
  }

  /** `ResourcesReadParams(uri=uri).model_dump()` */
  function ReadParams(uri: string): (r: Object)
    ensures r.Keys == {"uri"} && r["uri"] == JStr(uri)
  {
    map["uri" := JStr(uri)]
  }

  /** `List[T]` validation of the field `key`: a list of objects each of which validates. */
  function ParseList<T>(o: Object, key: string, parse: Object -> Result<T>): (r: Result<seq<T>>)
    ensures r.Ok? ==> key in o && o[key].JArr? && |r.value| == |o[key].items|
    ensures r.Ok? ==> forall k :: 0 <= k < |r.value| ==>
      o[key].items[k].JObj? && parse(o[key].items[k].fields) == Ok(r.value[k])
  {
    if key !in o || !o[key].JArr? then Err(ValidationError(key))
    else ParseItems(o[key].items, key, parse)
  }

  function ParseItems<T>(items: seq<Json>, key: string, parse: Object -> Result<T>): (r: Result<seq<T>>)
    ensures r.Ok? ==> |r.value| == |items|
    ensures r.Ok? ==> forall k :: 0 <= k < |items| ==> items[k].JObj? && parse(items[k].fields) == Ok(r.value[k])
    ensures r.Err? ==> exists k :: 0 <= k < |items| && (!items[k].JObj? || parse(items[k].fields).Err?)
    decreases |items|
  {
    if items == [] then Ok([])
    else if !items[0].JObj? then Err(ValidationError(key))
    else
      var head :- parse(items[0].fields);
      var tail :- ParseItems(items[1..], key, parse);
      Ok([head] + tail)
  }

  /** The transport a client is built over: what its `send_request` answers. */
  datatype Transport = Transport(exchange: Exchange)

  /** The request `_send_request` builds for the `counter`-th id. */
  function Outgoing(counter: nat, suffix: string, methodName: string, params: Option<Object>): (r: Request)
    ensures r.id.StrId? && StartsWith(r.id.s, "req-")
    ensures r.methodName == methodName && r.params == params
  {
    Request(StrId(RequestIdText(counter, suffix)), methodName, params)
  }

  /** `list_resources` after the round trip: `ResourcesListResult(**result).resources`. */
  function ResourcesListed(reply: Result<Response>): (r: Result<seq<Resource>>)
    ensures CheckReply(RESOURCES_LIST, reply).Err? ==> r == Err(CheckReply(RESOURCES_LIST, reply).error)
    ensures r.Ok? ==> CheckReply(RESOURCES_LIST, reply).Ok?
  {
    var raw := CheckReply(RESOURCES_LIST, reply);
    if raw.Ok? then ParseList(raw.value, "resources", ParseResource) else Err(raw.error)
  }

  /** `list_tools` after the round trip: `ToolsListResult(**result).tools`. */
  function ToolsListed(reply: Result<Response>): (r: Result<seq<Tool>>)
    ensures CheckReply(TOOLS_LIST, reply).Err? ==> r == Err(CheckReply(TOOLS_LIST, reply).error)
    ensures r.Ok? ==> CheckReply(TOOLS_LIST, reply).Ok?
  {
    var raw := CheckReply(TOOLS_LIST, reply);
    if raw.Ok? then ParseList(raw.value, "tools", ParseTool) else Err(raw.error)
  }

  /** `list_prompts` after the round trip: `PromptsListResult(**result).prompts`. */
  function PromptsListed(reply: Result<Response>): (r: Result<seq<Prompt>>)
    ensures CheckReply(PROMPTS_LIST, reply).Err? ==> r == Err(CheckReply(PROMPTS_LIST, reply).error)
    ensures r.Ok? ==> CheckReply(PROMPTS_LIST, reply).Ok?
  {
    var raw := CheckReply(PROMPTS_LIST, reply);
    if raw.Ok? then ParseList(raw.value, "prompts", ParsePrompt) else Err(raw.error)
  }

  /** `call_tool` after the round trip: `ToolCallResult(**result)`. */
  function ToolCalled(reply: Result<Response>): (r: Result<ToolCallResult>)
    ensures CheckReply(TOOLS_CALL, reply).Err? ==> r == Err(CheckReply(TOOLS_CALL, reply).error)
    ensures r.Ok? ==> CheckReply(TOOLS_CALL, reply).Ok? && ParseToolCallResult(CheckReply(TOOLS_CALL, reply).value) == r
  {
    var raw := CheckReply(TOOLS_CALL, reply);
    if raw.Ok? then ParseToolCallResult(raw.value) else Err(raw.error)
  }

  /** `read_resource` after the round trip: `ResourceContent(**result)`. */
  function ResourceRead(reply: Result<Response>): (r: Result<ResourceContent>)
    ensures CheckReply(RESOURCES_READ, reply).Err? ==> r == Err(CheckReply(RESOURCES_READ, reply).error)
    ensures r.Ok? ==> CheckReply(RESOURCES_READ, reply).Ok? && ParseResourceContent(CheckReply(RESOURCES_READ, reply).value) == r
  {
    var raw := CheckReply(RESOURCES_READ, reply);
    if raw.Ok? then ParseResourceContent(raw.value) else Err(raw.error)
  }

  /** `get_prompt` after the round trip: `PromptResult(**result)`. */
  function PromptGot(reply: Result<Response>): (r: Result<PromptResult>)
    ensures CheckReply(PROMPTS_GET, reply).Err? ==> r == Err(CheckReply(PROMPTS_GET, reply).error)
    ensures r.Ok? ==> CheckReply(PROMPTS_GET, reply).Ok? && ParsePromptResult(CheckReply(PROMPTS_GET, reply).value) == r
  {
    var raw := CheckReply(PROMPTS_GET, reply);
    if raw.Ok? then ParsePromptResult(raw.value) else Err(raw.error)
  }

  class MCPClient {
    const transport: Transport
    var requestCounter: nat

    constructor(transport: Transport)
      ensures this.transport == transport && requestCounter == 0
    {
      this.transport := transport;
      requestCounter := 0;
    }

    /** `_generate_request_id`: the counter goes up by one and names the new id. */
    method GenerateRequestId(suffix: string) returns (id: string)
      requires IsHexSuffix(suffix)
      modifies this
      ensures requestCounter == old(requestCounter) + 1
      ensures id == RequestIdText(requestCounter, suffix)
    {
      requestCounter := requestCounter + 1;
      id := RequestIdText(requestCounter, suffix);
    }

    /** `_send_request`: send a request with a fresh id, the method and the params, passing
        the timeout through, and check the answer. */
    method SendRequest(methodName: string, params: Option<Object>, timeout: Option<real>, suffix: string)
      returns (sent: Request, r: Result<Object>)
      requires IsHexSuffix(suffix)
      modifies this
      ensures requestCounter == old(requestCounter) + 1
      ensures sent == Outgoing(requestCounter, suffix, methodName, params)
      ensures r == CheckReply(methodName, transport.exchange(sent, timeout))
    {
      var id := GenerateRequestId(suffix);
      sent := Request(StrId(id), methodName, params);
      var reply := transport.exchange(sent, timeout);
      r := CheckReply(methodName, reply);
    }

    /** `list_resources` */
    method ListResources(timeout: Option<real>, suffix: string) returns (sent: Request, r: Result<seq<Resource>>)
      requires IsHexSuffix(suffix)
      modifies this
      ensures requestCounter == old(requestCounter) + 1
      ensures sent == Outgoing(requestCounter, suffix, RESOURCES_LIST, None)
      ensures r == ResourcesListed(transport.exchange(sent, timeout))
    {
      var raw;
      sent, raw := SendRequest(RESOURCES_LIST, None, timeout, suffix);
      r := if raw.Ok? then ParseList(raw.value, "resources", ParseResource) else Err(raw.error);
    }

    /** `read_resource` */
    method ReadResource(uri: string, timeout: Option<real>, suffix: string)
      returns (sent: Request, r: Result<ResourceContent>)
      requires IsHexSuffix(suffix)
      modifies this
      ensures requestCounter == old(requestCounter) + 1
      ensures sent == Outgoing(requestCounter, suffix, RESOURCES_READ, Some(ReadParams(uri)))
      ensures r == ResourceRead(transport.exchange(sent, timeout))
    {
      var raw;
      sent, raw := SendRequest(RESOURCES_READ, Some(ReadParams(uri)), timeout, suffix);
      r := if raw.Ok? then ParseResourceContent(raw.value) else Err(raw.error);
    }

    /** `list_tools` */
    method ListTools(timeout: Option<real>, suffix: string) returns (sent: Request, r: Result<seq<Tool>>)
      requires IsHexSuffix(suffix)
      modifies this
      ensures requestCounter == old(requestCounter) + 1
      ensures sent == Outgoing(requestCounter, suffix, TOOLS_LIST, None)
      ensures r == ToolsListed(transport.exchange(sent, timeout))
    {
      var raw;
      sent, raw := SendRequest(TOOLS_LIST, None, timeout, suffix);
      r := if raw.Ok? then ParseList(raw.value, "tools", ParseTool) else Err(raw.error);
    }

    /** `call_tool` */
    method CallTool(name: string, arguments: Option<Object>, timeout: Option<real>, suffix: string)
      returns (sent: Request, r: Result<ToolCallResult>)
      requires IsHexSuffix(suffix)
      modifies this
      ensures requestCounter == old(requestCounter) + 1
      ensures sent == Outgoing(requestCounter, suffix, TOOLS_CALL, Some(NamedParams(name, arguments)))
      ensures r == ToolCalled(transport.exchange(sent, timeout))
    {
      var raw;
      sent, raw := SendRequest(TOOLS_CALL, Some(NamedParams(name, arguments)), timeout, suffix);
      r := if raw.Ok? then ParseToolCallResult(raw.value) else Err(raw.error);
    }

    /** `list_prompts` */
    method ListPrompts(timeout: Option<real>, suffix: string) returns (sent: Request, r: Result<seq<Prompt>>)
      requires IsHexSuffix(suffix)
      modifies this
      ensures requestCounter == old(requestCounter) + 1
      ensures sent == Outgoing(requestCounter, suffix, PROMPTS_LIST, None)
      ensures r == PromptsListed(transport.exchange(sent, timeout))
    {
      var raw;
      sent, raw := SendRequest(PROMPTS_LIST, None, timeout, suffix);
      r := if raw.Ok? then ParseList(raw.value, "prompts", ParsePrompt) else Err(raw.error);
    }

    /** `get_prompt` */
    method GetPrompt(name: string, arguments: Option<Object>, timeout: Option<real>, suffix: string)
      returns (sent: Request, r: Result<PromptResult>)
      requires IsHexSuffix(suffix)
      modifies this
      ensures requestCounter == old(requestCounter) + 1
      ensures sent == Outgoing(requestCounter, suffix, PROMPTS_GET, Some(NamedParams(name, arguments)))
      ensures r == PromptGot(transport.exchange(sent, timeout))
    {
      var raw;
      sent, raw := SendRequest(PROMPTS_GET, Some(NamedParams(name, arguments)), timeout, suffix);
      r := if raw.Ok? then ParsePromptResult(raw.value) else Err(raw.error);
    }
  }
}
