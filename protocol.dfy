/** JSON values and the JSON-RPC 2.0 / MCP record types of mcp/protocol.py, with the
    validation a pydantic model applies when it is built from a decoded JSON object and the
    dump (`model_dump(exclude_none=True)`) that turns it back into one. */
module Protocol {
  import opened Wrappers
  import opened Strings

  /** A decoded JSON value (`json.loads`). Floating-point numbers are not modelled. */
  datatype Json =
    | JNull
    | JBool(b: bool)
    | JInt(i: int)
    | JStr(s: string)
    | JArr(items: seq<Json>)
    | JObj(fields: map<string, Json>)

  /** A Python `Dict[str, Any]` holding JSON data. */
  type Object = map<string, Json>

  const JSONRPC_VERSION: string := "2.0"

  /** `Union[str, int]` */
  datatype RequestId = StrId(s: string) | IntId(n: int)

  datatype RpcError = RpcError(code: int, message: string, data: Option<Object>)

  /** `JSONRPCRequest`; its `jsonrpc` field is always "2.0", so it is not stored. */
  datatype Request = Request(id: RequestId, methodName: string, params: Option<Object>)

  datatype Response = Response(id: RequestId, result: Option<Object>, error: Option<RpcError>)

  datatype Notification = Notification(methodName: string, params: Option<Object>)

  datatype ResourceType = Text | Binary | Image {
    function Value(): string {
      match this
      case Text => "text"
      case Binary => "binary"
      case Image => "image"
    }
  }

  datatype Resource = Resource(
    uri: string,
    name: string,
    description: Option<string>,
    mimeType: Option<string>,
    resourceType: ResourceType)

  /** `Tool`, including the gateway metadata that the aggregator fills in. */
  datatype Tool = Tool(
    name: string,
    description: string,
    inputSchema: Object,
    provider: Option<string>,
    category: Option<string>,
    namespaceReason: Option<string>)

  datatype ToolCallResult = ToolCallResult(content: seq<Object>, isError: bool)

  datatype PromptParameter = PromptParameter(name: string, description: string, required: bool)

  datatype Prompt = Prompt(name: string, description: string, parameters: seq<PromptParameter>)

  /** `ResourceContent`. `blob` is `bytes`, which pydantic fills from a JSON string and dumps
      back as the same text, so it is kept as a string. */
  datatype ResourceContent = ResourceContent(
    uri: string,
    mimeType: Option<string>,
    text: Option<string>,
    blob: Option<string>)

  /** The `Literal["user", "assistant", "system"]` role of a prompt message. */
  datatype Role = User | Assistant | System {
    function Value(): string {
      match this
      case User => "user"
      case Assistant => "assistant"
      case System => "system"
    }
  }

  datatype PromptMessage = PromptMessage(role: Role, content: string)

  datatype PromptResult = PromptResult(messages: seq<PromptMessage>, description: Option<string>)

  /** `ToolsCallParams` and `PromptsGetParams` have the same shape. */
  datatype NamedArguments = NamedArguments(name: string, arguments: Object)

  // ---------------------------------------------------------------------------------------
  // MCPMethod

  const INITIALIZE: string := "initialize"
  const RESOURCES_LIST: string := "resources/list"
  const RESOURCES_READ: string := "resources/read"
  const TOOLS_LIST: string := "tools/list"
  const TOOLS_CALL: string := "tools/call"
  const PROMPTS_LIST: string := "prompts/list"
  const PROMPTS_GET: string := "prompts/get"
  const NOTIFICATION_PROGRESS: string := "notifications/progress"
  const NOTIFICATION_CANCELLED: string := "notifications/cancelled"

  const MCP_METHODS: seq<string> := [INITIALIZE, RESOURCES_LIST, RESOURCES_READ, TOOLS_LIST,
    TOOLS_CALL, PROMPTS_LIST, PROMPTS_GET, NOTIFICATION_PROGRESS, NOTIFICATION_CANCELLED]

  lemma MethodsDistinct()
    ensures |MCP_METHODS| == 9
    ensures forall i, j :: 0 <= i < j < |MCP_METHODS| ==> MCP_METHODS[i] != MCP_METHODS[j]
  {
  }

  // ---------------------------------------------------------------------------------------
  // Field validation, one JSON field at a time

  /** A required `str` field. */
  function RequiredStr(o: Object, key: string): (r: Result<string>)
    ensures r.Ok? <==> key in o && o[key].JStr?
    ensures r.Ok? ==> o[key] == JStr(r.value)
  {
    if key in o && o[key].JStr? then Ok(o[key].s) else Err(ValidationError(key))
  }

  /** A required `int` field. */
  function RequiredInt(o: Object, key: string): (r: Result<int>)
    ensures r.Ok? <==> key in o && o[key].JInt?
    ensures r.Ok? ==> o[key] == JInt(r.value)
  {
    if key in o && o[key].JInt? then Ok(o[key].i) else Err(ValidationError(key))
  }

  /** An `Optional[str] = None` field: absent or null gives None. */
  function OptionalStr(o: Object, key: string): (r: Result<Option<string>>)
    ensures r == Ok(None) <==> key !in o || o[key] == JNull
    ensures r.Ok? && r.value.Some? <==> key in o && o[key].JStr?
    ensures r.Ok? && r.value.Some? ==> o[key] == JStr(r.value.value)
  {
    if key !in o || o[key] == JNull then Ok(None)
    else if o[key].JStr? then Ok(Some(o[key].s))
    else Err(ValidationError(key))
  }

  /** An `Optional[Dict[str, Any]] = None` field. */
  function OptionalObject(o: Object, key: string): (r: Result<Option<Object>>)
    ensures r == Ok(None) <==> key !in o || o[key] == JNull
    ensures r.Ok? && r.value.Some? <==> key in o && o[key].JObj?
    ensures r.Ok? && r.value.Some? ==> o[key] == JObj(r.value.value)
  {
    if key !in o || o[key] == JNull then Ok(None)
    else if o[key].JObj? then Ok(Some(o[key].fields))
    else Err(ValidationError(key))
  }

  /** A `Dict[str, Any] = Field(default_factory=dict)` field: absent gives `{}`, null is rejected. */
  function ObjectOrEmpty(o: Object, key: string): (r: Result<Object>)
    ensures key !in o ==> r == Ok(map[])
    ensures key in o ==> (r.Ok? <==> o[key].JObj?)
    ensures key in o && r.Ok? ==> o[key] == JObj(r.value)
  {
    if key !in o then Ok(map[])
    else if o[key].JObj? then Ok(o[key].fields)
    else Err(ValidationError(key))
  }

  /** `jsonrpc: Literal["2.0"] = "2.0"`: absent is accepted, any value other than "2.0" is not. */
  predicate VersionAccepted(o: Object) {
    "jsonrpc" !in o || o["jsonrpc"] == JStr(JSONRPC_VERSION)
  }

  /** `id: Union[str, int]` */
  function ParseId(o: Object): (r: Result<RequestId>)
    ensures r.Ok? <==> "id" in o && (o["id"].JStr? || o["id"].JInt?)
    ensures r.Ok? ==> o["id"] == IdToJson(r.value)
  {
    if "id" !in o then Err(ValidationError("id"))
    else match o["id"]
      case JStr(s) => Ok(StrId(s))
      case JInt(n) => Ok(IntId(n))
      case _ => Err(ValidationError("id"))
  }

  function IdToJson(id: RequestId): Json {
    match id
    case StrId(s) => JStr(s)
    case IntId(n) => JInt(n)
  }

  /** `str(id)`, the key under which a transport files a pending request. */
  function IdKey(id: RequestId): string {
    match id
    case StrId(s) => s
    case IntId(n) => IntToString(n)
  }

  // ---------------------------------------------------------------------------------------
  // Building records from JSON objects (`Model(**data)`)

  function ParseRpcError(j: Json): (r: Result<RpcError>)
    ensures r.Ok? ==> j.JObj?
  {
    if !j.JObj? then Err(ValidationError("error"))
    else
      var o := j.fields;
      var code :- RequiredInt(o, "code");
      var message :- RequiredStr(o, "message");
      var data :- OptionalObject(o, "data");
      Ok(RpcError(code, message, data))
  }

  /** `JSONRPCRequest(**o)` */
  function ParseRequest(o: Object): (r: Result<Request>)
    ensures r.Ok? ==> VersionAccepted(o) && "id" in o && "method" in o
    ensures r.Ok? ==> o["method"] == JStr(r.value.methodName) && o["id"] == IdToJson(r.value.id)
  {
    if !VersionAccepted(o) then Err(ValidationError("jsonrpc"))
    else
      var id :- ParseId(o);
      var methodName :- RequiredStr(o, "method");
      var params :- OptionalObject(o, "params");
      Ok(Request(id, methodName, params))
  }

  /** `JSONRPCResponse(**o)` */
  function ParseResponse(o: Object): (r: Result<Response>)
    ensures r.Ok? ==> VersionAccepted(o) && "id" in o && o["id"] == IdToJson(r.value.id)
    ensures r.Ok? ==> (r.value.result.None? <==> "result" !in o || o["result"] == JNull)
    ensures r.Ok? ==> (r.value.error.None? <==> "error" !in o || o["error"] == JNull)
  {
    if !VersionAccepted(o) then Err(ValidationError("jsonrpc"))
    else
      var id :- ParseId(o);
      var result :- OptionalObject(o, "result");
      var error :-
        if "error" !in o || o["error"] == JNull then Ok(None)
        else
          var e :- ParseRpcError(o["error"]);
          Ok(Some(e));
      Ok(Response(id, result, error))
  }

  /** `JSONRPCNotification(**o)` */
  function ParseNotification(o: Object): (r: Result<Notification>)
    ensures r.Ok? ==> VersionAccepted(o) && "method" in o && o["method"] == JStr(r.value.methodName)
  {
    if !VersionAccepted(o) then Err(ValidationError("jsonrpc"))
    else
      var methodName :- RequiredStr(o, "method");
      var params :- OptionalObject(o, "params");
      Ok(Notification(methodName, params))
  }

  /** `ResourceType(s)` */
  function ParseResourceType(s: string): (r: Option<ResourceType>)
    ensures r.Some? ==> r.value.Value() == s
    ensures forall t: ResourceType :: t.Value() == s ==> r == Some(t)
  {
    if s == "text" then Some(Text)
    else if s == "binary" then Some(Binary)
    else if s == "image" then Some(Image)
    else None
  }

  /** `Resource(**o)` */
  function ParseResource(o: Object): (r: Result<Resource>)
    ensures r.Ok? ==> "uri" in o && o["uri"] == JStr(r.value.uri)
    ensures r.Ok? ==> "name" in o && o["name"] == JStr(r.value.name)
  {
    var uri :- RequiredStr(o, "uri");
    var name :- RequiredStr(o, "name");
    var description :- OptionalStr(o, "description");
    var mimeType :- OptionalStr(o, "mime_type");
    var resourceType :-
      if "resource_type" !in o then Ok(Text)
      else if o["resource_type"].JStr? && ParseResourceType(o["resource_type"].s).Some? then
        Ok(ParseResourceType(o["resource_type"].s).value)
      else Err(ValidationError("resource_type"));
    Ok(Resource(uri, name, description, mimeType, resourceType))
  }

  /** `Tool(**o)`: the schema is read from its alias "inputSchema" or, since the model
      populates by name, from "input_schema". */
  function ParseTool(o: Object): (r: Result<Tool>)
    ensures r.Ok? ==> "name" in o && o["name"] == JStr(r.value.name)
    ensures r.Ok? ==> "description" in o && o["description"] == JStr(r.value.description)
  {
    var name :- RequiredStr(o, "name");
    var description :- RequiredStr(o, "description");
    var inputSchema :-
      if "inputSchema" in o then ObjectOrEmpty(o, "inputSchema") else ObjectOrEmpty(o, "input_schema");
    var provider :- OptionalStr(o, "provider");
    var category :- OptionalStr(o, "category");
    var namespaceReason :- OptionalStr(o, "namespace_reason");
    Ok(Tool(name, description, inputSchema, provider, category, namespaceReason))
  }

  /** `ToolCallResult(**o)` with the content list taken as given. */
  function ParseToolCallResult(o: Object): (r: Result<ToolCallResult>)
    ensures r.Ok? ==> "content" in o
    ensures r.Ok? ==> (r.value.isError <==> "is_error" in o && o["is_error"] == JBool(true))
  {
    if "content" !in o || !o["content"].JArr? then Err(ValidationError("content"))
    else if exists k :: 0 <= k < |o["content"].items| && !o["content"].items[k].JObj? then
      Err(ValidationError("content"))
    else if "is_error" in o && !o["is_error"].JBool? then Err(ValidationError("is_error"))
    else
      var items := o["content"].items;
      var content := seq(|items|, k requires 0 <= k < |items| => items[k].fields);
      Ok(ToolCallResult(content, "is_error" in o && o["is_error"].b))
  }

  /** `ToolsCallParams(**o)` and `PromptsGetParams(**o)` */
  function ParseNamedArguments(o: Object): (r: Result<NamedArguments>)
    ensures r.Ok? ==> "name" in o && o["name"] == JStr(r.value.name)
    ensures r.Ok? && "arguments" !in o ==> r.value.arguments == map[]
  {
    var name :- RequiredStr(o, "name");
    var arguments :- ObjectOrEmpty(o, "arguments");
    Ok(NamedArguments(name, arguments))
  }

  /** A `bool = False` field. */
  function BoolOrFalse(o: Object, key: string): (r: Result<bool>)
    ensures key !in o ==> r == Ok(false)
    ensures key in o ==> (r.Ok? <==> o[key].JBool?)
    ensures key in o && r.Ok? ==> o[key] == JBool(r.value)
  {
    if key !in o then Ok(false)
    else if o[key].JBool? then Ok(o[key].b)
    else Err(ValidationError(key))
  }

  /** `PromptParameter(**o)` */
  function ParsePromptParameter(j: Json): (r: Result<PromptParameter>)
    ensures r.Ok? ==> j.JObj? && "name" in j.fields && j.fields["name"] == JStr(r.value.name)
  {
    if !j.JObj? then Err(ValidationError("parameters"))
    else
      var name :- RequiredStr(j.fields, "name");
      var description :- RequiredStr(j.fields, "description");
      var required :- BoolOrFalse(j.fields, "required");
      Ok(PromptParameter(name, description, required))
  }

  /** The `parameters` list, item by item; the first bad item names the error. */
  function ParsePromptParameters(items: seq<Json>): (r: Result<seq<PromptParameter>>)
    ensures r.Ok? ==> |r.value| == |items|
    decreases |items|
  {
    if items == [] then Ok([])
    else
      var first :- ParsePromptParameter(items[0]);
      var rest :- ParsePromptParameters(items[1..]);
      Ok([first] + rest)
  }

  /** `Prompt(**o)`: `parameters` defaults to the empty list. */
  function ParsePrompt(o: Object): (r: Result<Prompt>)
    ensures r.Ok? ==> "name" in o && o["name"] == JStr(r.value.name)
    ensures r.Ok? && "parameters" !in o ==> r.value.parameters == []
  {
    var name :- RequiredStr(o, "name");
    var description :- RequiredStr(o, "description");
    var parameters :-
      if "parameters" !in o then Ok([])
      else if o["parameters"].JArr? then ParsePromptParameters(o["parameters"].items)
      else Err(ValidationError("parameters"));
    Ok(Prompt(name, description, parameters))
  }

  /** `ResourceContent(**o)` */
  function ParseResourceContent(o: Object): (r: Result<ResourceContent>)
    ensures r.Ok? ==> "uri" in o && o["uri"] == JStr(r.value.uri)
    ensures r.Ok? ==> (r.value.text.None? <==> "text" !in o || o["text"] == JNull)
    ensures r.Ok? ==> (r.value.blob.None? <==> "blob" !in o || o["blob"] == JNull)
  {
    var uri :- RequiredStr(o, "uri");
    var mimeType :- OptionalStr(o, "mime_type");
    var text :- OptionalStr(o, "text");
    var blob :- OptionalStr(o, "blob");
    Ok(ResourceContent(uri, mimeType, text, blob))
  }

  /** The `role` literal: one of the three values, nothing else. */
  function ParseRole(s: string): (r: Option<Role>)
    ensures r.Some? ==> r.value.Value() == s
    ensures forall t: Role :: t.Value() == s ==> r == Some(t)
  {
    if s == "user" then Some(User)
    else if s == "assistant" then Some(Assistant)
    else if s == "system" then Some(System)
    else None
  }

  /** `PromptMessage(**o)` */
  function ParsePromptMessage(j: Json): (r: Result<PromptMessage>)
    ensures r.Ok? ==> j.JObj? && "role" in j.fields && j.fields["role"] == JStr(r.value.role.Value())
    ensures r.Ok? ==> "content" in j.fields && j.fields["content"] == JStr(r.value.content)
  {
    if !j.JObj? then Err(ValidationError("messages"))
    else
      var role :- RequiredStr(j.fields, "role");
      var content :- RequiredStr(j.fields, "content");
      if ParseRole(role).None? then Err(ValidationError("role"))
      else Ok(PromptMessage(ParseRole(role).value, content))
  }

  /** The `messages` list, item by item; the first bad item names the error. */
  function ParsePromptMessages(items: seq<Json>): (r: Result<seq<PromptMessage>>)
    ensures r.Ok? ==> |r.value| == |items|
    decreases |items|
  {
    if items == [] then Ok([])
    else
      var first :- ParsePromptMessage(items[0]);
      var rest :- ParsePromptMessages(items[1..]);
      Ok([first] + rest)
  }

  /** `PromptResult(**o)`: `messages` is required. */
  function ParsePromptResult(o: Object): (r: Result<PromptResult>)
    ensures r.Ok? ==> "messages" in o && o["messages"].JArr? && |r.value.messages| == |o["messages"].items|
    ensures r.Ok? ==> (r.value.description.None? <==> "description" !in o || o["description"] == JNull)
  {
    if "messages" !in o || !o["messages"].JArr? then Err(ValidationError("messages"))
    else
      var messages :- ParsePromptMessages(o["messages"].items);
      var description :- OptionalStr(o, "description");
      Ok(PromptResult(messages, description))
  }

  // ---------------------------------------------------------------------------------------
  // Dumping records (`model_dump(mode="json", exclude_none=True)`)

  /** Adds `key: v` when the optional value is present, as `exclude_none` does. */
  function WithOpt(o: Object, key: string, v: Option<Json>): Object {
    if v.Some? then o[key := v.value] else o
  }

  function OptStrJson(s: Option<string>): Option<Json> {
    if s.Some? then Some(JStr(s.value)) else None
  }

  function OptObjJson(o: Option<Object>): Option<Json> {
    if o.Some? then Some(JObj(o.value)) else None
  }

  /** A list of strings as a JSON array. */
  function StrList(xs: seq<string>): (r: Json)
    ensures r.JArr? && |r.items| == |xs| && forall k :: 0 <= k < |xs| ==> r.items[k] == JStr(xs[k])
  {
    JArr(seq(|xs|, k requires 0 <= k < |xs| => JStr(xs[k])))
  }

  // ---------------------------------------------------------------------------------------
  // Python operations on decoded JSON values

  /** `type(m).__name__` */
  function TypeName(m: Json): string {
    match m
    case JNull => "NoneType"
    case JBool(_) => "bool"
    case JInt(_) => "int"
    case JStr(_) => "str"
    case JArr(_) => "list"
    case JObj(_) => "dict"
  }

  /** `key in m`: a dict tests its keys, a list its elements, a string its substrings; any
      other value raises TypeError. */
  function PyIn(key: string, m: Json): (r: Result<bool>)
    ensures r.Err? <==> m.JNull? || m.JBool? || m.JInt?
    ensures r.Err? ==> r.error == TypeError("argument of type '" + TypeName(m) + "' is not iterable")
    ensures m.JObj? ==> r == Ok(key in m.fields)
    ensures m.JArr? ==> r == Ok(JStr(key) in m.items)
    ensures m.JStr? ==> r == Ok(Contains(m.s, key))
  {
    match m
    case JObj(o) => Ok(key in o)
    case JArr(items) => Ok(JStr(key) in items)
    case JStr(s) => Ok(Contains(s, key))
    case _ => Err(TypeError("argument of type '" + TypeName(m) + "' is not iterable"))
  }

  /** `repr(v)`: strings in single quotes, lists with their items' reprs. A dict is written
      `{...}`, since a map keeps no order of its entries. */
  function Repr(v: Json): string
    decreases v, 1
  {
    match v
    case JNull => "None"
    case JBool(b) => if b then "True" else "False"
    case JInt(i) => IntToString(i)
    case JStr(s) => "'" + s + "'"
    case JArr(items) => "[" + ReprItems(items) + "]"
    case JObj(_) => "{...}"
  }

  /** The reprs of a list's items, separated by ", ". */
  function ReprItems(items: seq<Json>): string
    decreases items, 0
  {
    if items == [] then ""
    else if |items| == 1 then Repr(items[0])
    else Repr(items[0]) + ", " + ReprItems(items[1..])
  }

  /** `str(v)`, as an f-string writes it: a string is itself, anything else its repr. */
  function PyStr(v: Json): string {
    if v.JStr? then v.s else Repr(v)
  }

  function RpcErrorToJson(e: RpcError): Json {
    JObj(WithOpt(map["code" := JInt(e.code), "message" := JStr(e.message)], "data", OptObjJson(e.data)))
  }

  function RequestToJson(r: Request): Object {
    WithOpt(map["jsonrpc" := JStr(JSONRPC_VERSION), "id" := IdToJson(r.id), "method" := JStr(r.methodName)],
      "params", OptObjJson(r.params))
  }

  function ResponseToJson(r: Response): Object {
    var base := map["jsonrpc" := JStr(JSONRPC_VERSION), "id" := IdToJson(r.id)];
    var withResult := WithOpt(base, "result", OptObjJson(r.result));
    WithOpt(withResult, "error", if r.error.Some? then Some(RpcErrorToJson(r.error.value)) else None)
  }

  /** The gateway dumps tools by field name, so the schema goes out as "input_schema". */
  function ToolToJson(t: Tool): Object {
    var base := map["name" := JStr(t.name), "description" := JStr(t.description),
                    "input_schema" := JObj(t.inputSchema)];
    WithOpt(WithOpt(WithOpt(base, "provider", OptStrJson(t.provider)),
      "category", OptStrJson(t.category)), "namespace_reason", OptStrJson(t.namespaceReason))
  }

  function ResourceToJson(r: Resource): Object {
    var base := map["uri" := JStr(r.uri), "name" := JStr(r.name),
                    "resource_type" := JStr(r.resourceType.Value())];
    WithOpt(WithOpt(base, "description", OptStrJson(r.description)), "mime_type", OptStrJson(r.mimeType))
  }

  function NamedArgumentsToJson(a: NamedArguments): Object {
    map["name" := JStr(a.name), "arguments" := JObj(a.arguments)]
  }

  function ToolCallResultToJson(r: ToolCallResult): Object {
    map["content" := JArr(seq(|r.content|, k requires 0 <= k < |r.content| => JObj(r.content[k]))),
        "is_error" := JBool(r.isError)]
  }

  function PromptParameterToJson(p: PromptParameter): Json {
    JObj(map["name" := JStr(p.name), "description" := JStr(p.description), "required" := JBool(p.required)])
  }

  function PromptParametersToJson(ps: seq<PromptParameter>): (r: seq<Json>)
    ensures |r| == |ps| && forall k :: 0 <= k < |ps| ==> r[k] == PromptParameterToJson(ps[k])
  {
    seq(|ps|, k requires 0 <= k < |ps| => PromptParameterToJson(ps[k]))
  }

  function PromptToJson(p: Prompt): Object {
    map["name" := JStr(p.name), "description" := JStr(p.description),
        "parameters" := JArr(PromptParametersToJson(p.parameters))]
  }

  function ResourceContentToJson(c: ResourceContent): Object {
    WithOpt(WithOpt(WithOpt(map["uri" := JStr(c.uri)], "mime_type", OptStrJson(c.mimeType)),
      "text", OptStrJson(c.text)), "blob", OptStrJson(c.blob))
  }

  function PromptMessageToJson(m: PromptMessage): Json {
    JObj(map["role" := JStr(m.role.Value()), "content" := JStr(m.content)])
  }

  function PromptMessagesToJson(ms: seq<PromptMessage>): (r: seq<Json>)
    ensures |r| == |ms| && forall k :: 0 <= k < |ms| ==> r[k] == PromptMessageToJson(ms[k])
  {
    seq(|ms|, k requires 0 <= k < |ms| => PromptMessageToJson(ms[k]))
  }

  function PromptResultToJson(p: PromptResult): Object {
    WithOpt(map["messages" := JArr(PromptMessagesToJson(p.messages))], "description", OptStrJson(p.description))
  }

  // ---------------------------------------------------------------------------------------
  // Properties

  /** A dumped request validates back to itself. */
  lemma RequestRoundTrip(r: Request)
    ensures ParseRequest(RequestToJson(r)) == Ok(r)
  {
    var o := RequestToJson(r);
    assert o["id"] == IdToJson(r.id);
    assert o["method"] == JStr(r.methodName);
    assert ParseId(o) == Ok(r.id) by {
      match r.id
      case StrId(_) =>
      case IntId(_) =>
    }
  }

  /** A dumped response validates back to itself. */
  lemma ResponseRoundTrip(r: Response)
    ensures ParseResponse(ResponseToJson(r)) == Ok(r)
  {
    var o := ResponseToJson(r);
    assert o["id"] == IdToJson(r.id);
    assert ParseId(o) == Ok(r.id) by {
      match r.id
      case StrId(_) =>
      case IntId(_) =>
    }
    if r.error.Some? {
      var e := r.error.value;
      assert ParseRpcError(RpcErrorToJson(e)) == Ok(e);
    }
  }

  /** A tool dumped by the gateway validates back to the same tool. */
  lemma ToolRoundTrip(t: Tool)
    ensures ParseTool(ToolToJson(t)) == Ok(t)
  {
    var base := map["name" := JStr(t.name), "description" := JStr(t.description),
                    "input_schema" := JObj(t.inputSchema)];
    var o1 := WithOpt(base, "provider", OptStrJson(t.provider));
    var o2 := WithOpt(o1, "category", OptStrJson(t.category));
    var o := WithOpt(o2, "namespace_reason", OptStrJson(t.namespaceReason));
    assert o == ToolToJson(t);
    assert o.Keys <= {"name", "description", "input_schema", "provider", "category", "namespace_reason"};
    assert "inputSchema" !in o;
    assert RequiredStr(o, "name") == Ok(t.name);
    assert RequiredStr(o, "description") == Ok(t.description);
    assert ObjectOrEmpty(o, "input_schema") == Ok(t.inputSchema);
    assert OptionalStr(o, "provider") == Ok(t.provider);
    assert OptionalStr(o, "category") == Ok(t.category);
    assert OptionalStr(o, "namespace_reason") == Ok(t.namespaceReason);
  }

  lemma ResourceRoundTrip(r: Resource)
    ensures ParseResource(ResourceToJson(r)) == Ok(r)
  {
    assert ParseResourceType(r.resourceType.Value()) == Some(r.resourceType);
  }

  lemma NamedArgumentsRoundTrip(a: NamedArguments)
    ensures ParseNamedArguments(NamedArgumentsToJson(a)) == Ok(a)
  {
  }

  /** Any `jsonrpc` value other than "2.0" is rejected by all three envelope models. */
  lemma VersionEnforced(o: Object)
    requires "jsonrpc" in o && o["jsonrpc"] != JStr("2.0")
    ensures ParseRequest(o).Err? && ParseResponse(o).Err? && ParseNotification(o).Err?
  {
  }

  /** A response built from only an id has neither result nor error. */
  lemma ResponseDefaults(id: RequestId)
    ensures ParseResponse(map["id" := IdToJson(id)]) == Ok(Response(id, None, None))
  {
    assert ParseId(map["id" := IdToJson(id)]) == Ok(id) by {
      match id
      case StrId(_) =>
      case IntId(_) =>
    }
  }

  /** A tool given only a name and a description has an empty schema and no metadata. */
  lemma ToolDefaults(name: string, description: string)
    ensures ParseTool(map["name" := JStr(name), "description" := JStr(description)])
         == Ok(Tool(name, description, map[], None, None, None))
  {
  }

  /** A resource given only a uri and a name is a text resource without description or type. */
  lemma ResourceDefaults(uri: string, name: string)
    ensures ParseResource(map["uri" := JStr(uri), "name" := JStr(name)])
         == Ok(Resource(uri, name, None, None, Text))
  {
  }

  /** `is_error` defaults to False. */
  lemma ToolCallResultDefaults(content: seq<Object>)
    ensures ParseToolCallResult(map["content" := JArr(seq(|content|, k requires 0 <= k < |content| => JObj(content[k])))])
         == Ok(ToolCallResult(content, false))
  {
    var items := seq(|content|, k requires 0 <= k < |content| => JObj(content[k]));
    assert seq(|items|, k requires 0 <= k < |items| => items[k].fields) == content;
  }

  /** A dumped tool-call result validates back to itself. */
  lemma ToolCallResultRoundTrip(r: ToolCallResult)
    ensures ParseToolCallResult(ToolCallResultToJson(r)) == Ok(r)
  {
    var items := seq(|r.content|, k requires 0 <= k < |r.content| => JObj(r.content[k]));
    assert ToolCallResultToJson(r)["content"].items == items;
    assert seq(|items|, k requires 0 <= k < |items| => items[k].fields) == r.content;
  }

  lemma {:induction false} PromptParametersRoundTrip(ps: seq<PromptParameter>)
    ensures ParsePromptParameters(PromptParametersToJson(ps)) == Ok(ps)
    decreases |ps|
  {
    var items := PromptParametersToJson(ps);
    if ps != [] {
      var tail := ps[1..];
      assert items[1..] == PromptParametersToJson(tail);
      PromptParametersRoundTrip(tail);
      assert ParsePromptParameter(items[0]) == Ok(ps[0]);
      assert [ps[0]] + tail == ps;
    }
  }

  /** A dumped prompt validates back to itself. */
  lemma PromptRoundTrip(p: Prompt)
    ensures ParsePrompt(PromptToJson(p)) == Ok(p)
  {
    var o := PromptToJson(p);
    PromptParametersRoundTrip(p.parameters);
    assert RequiredStr(o, "name") == Ok(p.name);
    assert RequiredStr(o, "description") == Ok(p.description);
    assert "parameters" in o && o["parameters"].JArr?;
    assert ParsePromptParameters(o["parameters"].items) == Ok(p.parameters);
    assert ParsePrompt(o) == Ok(Prompt(p.name, p.description, p.parameters));
  }

  /** Dumped resource content validates back to itself. */
  lemma ResourceContentRoundTrip(c: ResourceContent)
    ensures ParseResourceContent(ResourceContentToJson(c)) == Ok(c)
  {
    var o := ResourceContentToJson(c);
    assert o.Keys <= {"uri", "mime_type", "text", "blob"};
    assert RequiredStr(o, "uri") == Ok(c.uri);
    assert OptionalStr(o, "mime_type") == Ok(c.mimeType);
    assert OptionalStr(o, "text") == Ok(c.text);
    assert OptionalStr(o, "blob") == Ok(c.blob);
  }

  /** Content read back with only a uri and text is a text document without MIME type or blob. */
  lemma ResourceContentDefaults(uri: string, text: string)
    ensures ParseResourceContent(map["uri" := JStr(uri), "text" := JStr(text)])
         == Ok(ResourceContent(uri, None, Some(text), None))
  {
  }

  lemma {:induction false} PromptMessagesRoundTrip(ms: seq<PromptMessage>)
    ensures ParsePromptMessages(PromptMessagesToJson(ms)) == Ok(ms)
    decreases |ms|
  {
    var items := PromptMessagesToJson(ms);
    if ms != [] {
      var tail := ms[1..];
      assert items[1..] == PromptMessagesToJson(tail);
      PromptMessagesRoundTrip(tail);
      assert ParseRole(ms[0].role.Value()) == Some(ms[0].role);
      assert ParsePromptMessage(items[0]) == Ok(ms[0]);
      assert [ms[0]] + tail == ms;
    }
  }

  /** A dumped prompt result validates back to itself. */
  lemma PromptResultRoundTrip(p: PromptResult)
    ensures ParsePromptResult(PromptResultToJson(p)) == Ok(p)
  {
    var o := PromptResultToJson(p);
    PromptMessagesRoundTrip(p.messages);
    assert "messages" in o && o["messages"] == JArr(PromptMessagesToJson(p.messages));
    assert OptionalStr(o, "description") == Ok(p.description);
  }

  /** A role outside the literal is rejected. */
  lemma UnknownRoleRejected(content: string)
    ensures ParsePromptMessage(JObj(map["role" := JStr("tool"), "content" := JStr(content)])).Err?
  {
  }
}
