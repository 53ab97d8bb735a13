/** The JSON-RPC server the gateway runs on stdin/stdout (mcp/server/stdio_server.py, with
    `register_handler` of mcp/server/base.py): the handler table, the dispatch of one
    request to its handler, and the read loop that answers stdin line by line. Handlers are
    known by name; what awaiting one yields is an input (`Runner`), and so are the lines
    stdin delivers and what `json.loads` makes of them. */
module StdioServer {
  import opened Wrappers
  import opened Strings
  import opened Protocol
  import Client

  /** A registered handler coroutine, known by the name of the function it is. */
  datatype Handler = Handler(name: string)

  /** What awaiting `handler(params)` yields: the value returned, or the exception raised. */
  type Runner = (Handler, Object) -> Result<Json>

  /** `json.loads(line)`: the decoded value, or the JSONDecodeError with its message. */
  type Decoder = string -> Result<Json>

  /** One `sys.stdin.readline()`: the text read (empty at end of input), or an exception. */
  datatype StdinRead = Read(text: string) | ReadFailed(msg: string)

  // JSON-RPC 2.0 error codes (section 5.1 of the JSON-RPC 2.0 specification), and the
  // implementation-defined server error code.
  const PARSE_ERROR: int := -32700
  const METHOD_NOT_FOUND: int := -32601
  const INTERNAL_ERROR: int := -32603
  const SERVER_ERROR: int := -32000

  const UNKNOWN_ID: RequestId := StrId("unknown")

  /** The answer when the handler raised `e`: code -32000, `str(e)`, and the exception's
      class name under "type". */
  function HandlerFailed(id: RequestId, e: Error): Response {
    Response(id, None, Some(RpcError(SERVER_ERROR, e.msg, Some(map["type" := JStr(e.ClassName())]))))
  }

  /** `JSONRPCResponse(id=..., result=value)`: `result` must be a dict or None, otherwise
      building the response raises a ValidationError, which is answered like any handler
      failure. */
  function HandlerReturned(id: RequestId, value: Json): Response {
    if value.JObj? then Response(id, Some(value.fields), None)
    else if value.JNull? then Response(id, None, None)
    else HandlerFailed(id, ValidationError("result"))
  }

  /** `handle_request`: an unregistered method is answered with -32601 and runs nothing;
      otherwise the handler gets the params, or `{}` when there are none. */
  function HandleRequest(handlers: map<string, Handler>, request: Request, run: Runner): (r: Response)
    ensures r.id == request.id
    ensures r.result.None? || r.error.None?
    ensures request.methodName !in handlers ==>
      r == Response(request.id, None, Some(RpcError(METHOD_NOT_FOUND, "Method not found: " + request.methodName, None)))
    ensures request.methodName in handlers ==>
      var outcome := run(handlers[request.methodName], request.params.GetOr(map[]));
      r == if outcome.Ok? then HandlerReturned(request.id, outcome.value) else HandlerFailed(request.id, outcome.error)
  {
    if request.methodName !in handlers then
      Response(request.id, None, Some(RpcError(METHOD_NOT_FOUND, "Method not found: " + request.methodName, None)))
    else
      match run(handlers[request.methodName], request.params.GetOr(map[]))
      case Ok(value) => HandlerReturned(request.id, value)
      case Err(e) => HandlerFailed(request.id, e)
  }

  /** One more decimal digit appends one character to the text. */
  lemma DigitAppended(n: nat, d: nat)
    requires 0 < n && d < 10
    ensures NatToString(10 * n + d) == NatToString(n) + [DigitChar(d)]
  {
    assert (10 * n + d) / 10 == n && (10 * n + d) % 10 == d;
  }

  lemma MethodNotFoundText()
    ensures NatToString(32601) == "32601"
  {
    DigitAppended(3, 2);
    DigitAppended(32, 6);
    DigitAppended(326, 0);
    DigitAppended(3260, 1);
    assert NatToString(3) == "3";
    assert NatToString(32) == "32";
    assert NatToString(326) == "326";
    assert NatToString(3260) == "3260";
  }

  lemma ServerErrorText()
    ensures NatToString(32000) == "32000"
  {
    DigitAppended(3, 2);
    DigitAppended(32, 0);
    DigitAppended(320, 0);
    DigitAppended(3200, 0);
    assert NatToString(3) == "3";
    assert NatToString(32) == "32";
    assert NatToString(320) == "320";
    assert NatToString(3200) == "3200";
  }

  lemma CodeTexts()
    ensures IntToString(METHOD_NOT_FOUND) == "-32601" && IntToString(SERVER_ERROR) == "-32000"
  {
    MethodNotFoundText();
    ServerErrorText();
  }

  /** What a gateway client makes of the server's answer: the handler's dict comes back
      unchanged, and every failure arrives as a ProtocolError carrying the code and the
      message the server chose. */
  lemma ClientReadsAnswer(handlers: map<string, Handler>, request: Request, run: Runner)
    ensures var reply := Client.CheckReply(request.methodName, Ok(HandleRequest(handlers, request, run)));
      var m := request.methodName;
      (m !in handlers ==> reply == Err(ProtocolError("MCP error -32601: " + ("Method not found: " + m)))) &&
      (m in handlers ==>
        var outcome := run(handlers[m], request.params.GetOr(map[]));
        (outcome.Ok? && outcome.value.JObj? ==> reply == Ok(outcome.value.fields)) &&
        (outcome.Ok? && outcome.value.JNull? ==> reply == Err(ProtocolError("No result in response for " + m))) &&
        (outcome.Err? ==> reply == Err(ProtocolError("MCP error -32000: " + outcome.error.msg))))
  {
    CodeTexts();
    assert "MCP error " + "-32601" + ": " == "MCP error -32601: ";
    assert "MCP error " + "-32000" + ": " == "MCP error -32000: ";
  }

  // ---------------------------------------------------------------------------------------
  // The read loop

  /** The TypeError Python raises when `JSONRPCRequest(**data)` is given a non-mapping; the
      class is named by its module path, `mcp.protocol`. */
  function NotAMapping(data: Json): string {
    "mcp.protocol.JSONRPCRequest() argument after ** must be a mapping, not " + TypeName(data)
  }

  /** `JSONRPCRequest(**data)`: the decoded value must be an object (a TypeError otherwise)
      that validates as a request. */
  function BuildRequest(data: Json): (r: Result<Request>)
    ensures r.Ok? ==> data.JObj? && ParseRequest(data.fields) == r
    ensures data.JObj? ==> r == ParseRequest(data.fields)
    ensures !data.JObj? ==> r == Err(TypeError(NotAMapping(data)))
  {
    if data.JObj? then ParseRequest(data.fields) else Err(TypeError(NotAMapping(data)))
  }

  function ParseErrorReply(msg: string): Response {
    Response(UNKNOWN_ID, None, Some(RpcError(PARSE_ERROR, "Parse error: " + msg, None)))
  }

  /** The -32603 answer carries the id of the last request built so far in the loop, which
      may come from an earlier line, or "unknown" when there is none. */
  function InternalErrorReply(last: Option<RequestId>, msg: string): Response {
    Response(last.GetOr(UNKNOWN_ID), None, Some(RpcError(INTERNAL_ERROR, "Internal error: " + msg, None)))
  }

  /** Where the loop stands: what it has written, the id of the `request` local (unbound
      until a request is first built) and whether it has left the loop. */
  datatype Serving = Serving(written: seq<Object>, last: Option<RequestId>, stopped: bool)

  predicate Blank(text: string) {
    Strip(text) == ""
  }

  /** One pass of the loop body: a failed read or end of input leaves the loop; a blank line
      is skipped; any other line is answered with exactly one response. */
  function Step(handlers: map<string, Handler>, run: Runner, decode: Decoder, s: Serving, line: StdinRead): Serving {
    if s.stopped then s
    else match line
      case ReadFailed(_) => s.(stopped := true)
      case Read(text) =>
        if text == "" then s.(stopped := true)
        else if Blank(text) then s
        else match decode(Strip(text))
          case Err(e) => s.(written := s.written + [ResponseToJson(ParseErrorReply(e.msg))])
          case Ok(data) =>
            match BuildRequest(data)
            case Err(e) => s.(written := s.written + [ResponseToJson(InternalErrorReply(s.last, e.msg))])
            case Ok(request) =>
              Serving(s.written + [ResponseToJson(HandleRequest(handlers, request, run))], Some(request.id), false)
  }

  /** The loop over the whole of stdin. */
  function Serve(handlers: map<string, Handler>, run: Runner, decode: Decoder, s: Serving, lines: seq<StdinRead>): Serving
    decreases |lines|
  {
    if lines == [] then s else Serve(handlers, run, decode, Step(handlers, run, decode, s, lines[0]), lines[1..])
  }

  /** The lines that get an answer: every non-blank line before the first failed read or end
      of input. */
  function Answered(lines: seq<StdinRead>): nat
    decreases |lines|
  {
    if lines == [] then 0
    else match lines[0]
      case ReadFailed(_) => 0
      case Read(text) =>
        if text == "" then 0
        else if Blank(text) then Answered(lines[1..])
        else 1 + Answered(lines[1..])
  }

  /** Once the loop is left nothing more is written. */
  lemma {:induction false} StoppedStays(handlers: map<string, Handler>, run: Runner, decode: Decoder, s: Serving, lines: seq<StdinRead>)
    requires s.stopped
    ensures Serve(handlers, run, decode, s, lines) == s
    decreases |lines|
  {
    if lines != [] {
      StoppedStays(handlers, run, decode, s, lines[1..]);
    }
  }

  /** Exactly one response per answered line, appended after what was already written:
      blank lines are silent and nothing after end of input is read. */
  lemma {:induction false} OneAnswerPerLine(handlers: map<string, Handler>, run: Runner, decode: Decoder, s: Serving, lines: seq<StdinRead>)
    requires !s.stopped
    ensures var out := Serve(handlers, run, decode, s, lines).written;
      |out| == |s.written| + Answered(lines) && out[..|s.written|] == s.written
    decreases |lines|
  {
    if lines != [] {
      var next := Step(handlers, run, decode, s, lines[0]);
      if next.stopped {
        StoppedStays(handlers, run, decode, next, lines[1..]);
      } else {
        OneAnswerPerLine(handlers, run, decode, next, lines[1..]);
        var out := Serve(handlers, run, decode, next, lines[1..]).written;
        assert out[..|s.written|] == out[..|next.written|][..|s.written|];
      }
    }
  }

  /** A line that is not JSON is answered with -32700 and id "unknown". */
  lemma NotJsonAnswered(handlers: map<string, Handler>, run: Runner, decode: Decoder, s: Serving, text: string)
    requires !s.stopped && text != "" && !Blank(text) && decode(Strip(text)).Err?
    ensures var next := Step(handlers, run, decode, s, Read(text));
      next.written == s.written + [ResponseToJson(ParseErrorReply(decode(Strip(text)).error.msg))]
      && ParseResponse(next.written[|s.written|]) == Ok(Response(StrId("unknown"), None, Some(RpcError(-32700, "Parse error: " + decode(Strip(text)).error.msg, None))))
  {
    ResponseRoundTrip(ParseErrorReply(decode(Strip(text)).error.msg));
  }

  /** A request that fails to build after an earlier one was built is answered with the id
      of the earlier request. */
  lemma StaleIdReported(handlers: map<string, Handler>, run: Runner, decode: Decoder, first: string, second: string)
    requires first != "" && !Blank(first) && second != "" && !Blank(second)
    requires decode(Strip(first)).Ok? && BuildRequest(decode(Strip(first)).value).Ok?
    requires decode(Strip(second)).Ok? && BuildRequest(decode(Strip(second)).value).Err?
    ensures var out := Serve(handlers, run, decode, Serving([], None, false), [Read(first), Read(second)]).written;
      var request := BuildRequest(decode(Strip(first)).value).value;
      |out| == 2 && out[0] == ResponseToJson(HandleRequest(handlers, request, run)) &&
      out[1] == ResponseToJson(InternalErrorReply(Some(request.id), BuildRequest(decode(Strip(second)).value).error.msg))
  {
    var lines := [Read(first), Read(second)];
    var s0 := Serving([], None, false);
    var request := BuildRequest(decode(Strip(first)).value).value;
    var e := BuildRequest(decode(Strip(second)).value).error;
    var s1 := Step(handlers, run, decode, s0, lines[0]);
    assert s1 == Serving([ResponseToJson(HandleRequest(handlers, request, run))], Some(request.id), false);
    var s2 := Step(handlers, run, decode, s1, lines[1]);
    assert s2.written == s1.written + [ResponseToJson(InternalErrorReply(Some(request.id), e.msg))];
    assert lines[1..] == [Read(second)] && lines[1..][1..] == [];
    assert Serve(handlers, run, decode, s2, []) == s2;
    assert Serve(handlers, run, decode, s1, [Read(second)]) == s2;
    assert Serve(handlers, run, decode, s0, lines) == Serve(handlers, run, decode, s1, [Read(second)]);
  }

  class StdioMCPServer {
    var running: bool
    var handlers: map<string, Handler>
    /** The response objects written to stdout, one per line, in order. */
    var written: seq<Object>

    constructor()
      ensures !running && handlers == map[] && written == []
    {
      running := false;
      handlers := map[];
      written := [];
    }

    /** `start` */
    method Start()
      modifies this
      ensures running && handlers == old(handlers) && written == old(written)
    {
      running := true;
    }

    /** `stop` */
    method Stop()
      modifies this
      ensures !running && handlers == old(handlers) && written == old(written)
    {
      running := false;
    }

    /** `register_handler`: a second registration for a method replaces the first. */
    method RegisterHandler(methodName: string, handler: Handler)
      modifies this
      ensures handlers == old(handlers)[methodName := handler]
      ensures running == old(running) && written == old(written)
    {
      handlers := handlers[methodName := handler];
    }

    /** `_read_loop` over what stdin delivers: a stopped server reads nothing; a running one
        answers the lines as `Serve` says. */
    method ReadLoop(lines: seq<StdinRead>, decode: Decoder, run: Runner)
      modifies this
      ensures !old(running) ==> written == old(written)
      ensures old(running) ==> written == Serve(handlers, run, decode, Serving(old(written), None, false), lines).written
      ensures running == old(running) && handlers == old(handlers)
    {
      ghost var start := Serving(written, None, false);
      var last: Option<RequestId> := None;
      var i := 0;
      while running && i < |lines|
        invariant 0 <= i <= |lines|
        invariant running ==>
          Serve(handlers, run, decode, Serving(written, last, false), lines[i..]) == Serve(handlers, run, decode, start, lines)
        invariant !running ==> i == 0 && written == start.written
        invariant running == old(running) && handlers == old(handlers)
      {
        var line := lines[i];
        assert lines[i..][0] == line && lines[i..][1..] == lines[i + 1..];
        if line.ReadFailed? || line.text == "" {
          StoppedStays(handlers, run, decode, Serving(written, last, true), lines[i + 1..]);
          break;
        }
        i := i + 1;
        if Blank(line.text) {
          continue;
        }
        var decoded := decode(Strip(line.text));
        if decoded.Err? {
          written := written + [ResponseToJson(ParseErrorReply(decoded.error.msg))];
        } else {
          var built := BuildRequest(decoded.value);
          if built.Err? {
            written := written + [ResponseToJson(InternalErrorReply(last, built.error.msg))];
          } else {
            last := Some(built.value.id);
            written := written + [ResponseToJson(HandleRequest(handlers, built.value, run))];
          }
        }
      }
      if running && i == |lines| {
        assert lines[i..] == [];
      }
    }
  }
}
