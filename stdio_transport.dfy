/** The stdio transport of mcp/transport/stdio.py: a subprocess whose stdin carries one JSON
    request per line and whose stdout is read line by line by a listener that completes the
    pending request each response answers. The subprocess is modelled by the pipes it has, what
    it does when told to stop, and the lines it prints; `json.loads` is an input function. */
module StdioTransport {
  import opened Wrappers
  import opened Strings
  import opened Protocol
  import opened Dicts
  import opened Pending

  /** What one `readline()` on stdout gives: end of file, a read that raised, bytes that are not
      UTF-8, or a line of text. */
  datatype Line = Eof | ReadFailed | Undecodable | Text(s: string) {
    /** The line ends `listen`: EOF breaks out of the loop and a failed read raises. */
    predicate Ends() {
      Eof? || ReadFailed?
    }
  }

  /** `json.loads`: None when it raises JSONDecodeError. */
  type Decoder = string -> Option<Json>

  /** The message `listen` yields for one line that does not end it: the decoded, stripped
      text, unless it is blank or does not decode. */
  function LineMessage(line: Line, decode: Decoder): (r: seq<Json>)
    ensures |r| <= 1
    ensures r != [] <==> line.Text? && Strip(line.s) != "" && decode(Strip(line.s)).Some?
    ensures r != [] ==> r[0] == decode(Strip(line.s)).value
  {
    if line.Text? && Strip(line.s) != "" && decode(Strip(line.s)).Some? then [decode(Strip(line.s)).value]
    else []
  }

  predicate Open(lines: seq<Line>) {
    forall k :: 0 <= k < |lines| ==> !lines[k].Ends()
  }

  /** The messages `listen` yields for the lines read, in order, up to the first line that
      ends it. */
  function Messages(lines: seq<Line>, decode: Decoder): seq<Json>
    decreases |lines|
  {
    if lines == [] || lines[0].Ends() then []
    else LineMessage(lines[0], decode) + Messages(lines[1..], decode)
  }

  lemma OpenPrefix(lines: seq<Line>, i: nat)
    requires Open(lines) && i <= |lines|
    ensures Open(lines[..i])
  {
    assert forall k :: 0 <= k < i ==> lines[..i][k] == lines[k];
  }

  /** Reading more lines after lines that keep the stream open appends their messages. */
  lemma {:induction false} MessagesAppend(a: seq<Line>, b: seq<Line>, decode: Decoder)
    requires Open(a)
    ensures Messages(a + b, decode) == Messages(a, decode) + Messages(b, decode)
    decreases |a|
  {
    if a == [] {
      assert a + b == b;
    } else {
      assert (a + b)[0] == a[0] && (a + b)[1..] == a[1..] + b;
      assert Open(a[1..]) by {
        forall k | 0 <= k < |a[1..]| ensures !a[1..][k].Ends() {
          assert a[1..][k] == a[k + 1];
        }
      }
      MessagesAppend(a[1..], b, decode);
    }
  }

  lemma OneLine(line: Line, decode: Decoder)
    requires !line.Ends()
    ensures Messages([line], decode) == LineMessage(line, decode) && Open([line])
  {
    assert [line][1..] == [];
    assert LineMessage(line, decode) + [] == LineMessage(line, decode);
  }

  /** The listener handles the one message a line yields after those before it. */
  lemma DispatchNext(start: PendingMap, ms: seq<Json>, found: seq<Json>)
    requires |found| == 1 && DispatchAll(StdioRule, start, ms).alive
    ensures var l := DispatchAll(StdioRule, start, ms);
      var d := Dispatch(StdioRule, l.pending, found[0]);
      DispatchAll(StdioRule, start, ms + found) == if d.Ok? then Listener(d.value, true) else Listener(l.pending, false)
  {
    assert found == [found[0]];
    DispatchAllSnoc(StdioRule, start, ms, found[0]);
  }

  /** The line at `i` ends the stream and yields nothing. */
  lemma EndingLine(lines: seq<Line>, i: nat, decode: Decoder)
    requires i < |lines| && Open(lines[..i]) && lines[i].Ends()
    ensures Messages(lines[..i + 1], decode) == Messages(lines[..i], decode) && !Open(lines[..i + 1])
  {
    assert lines[..i + 1] == lines[..i] + [lines[i]];
    MessagesAppend(lines[..i], [lines[i]], decode);
    assert Messages(lines[..i], decode) + [] == Messages(lines[..i], decode);
    assert lines[..i + 1][i] == lines[i];
  }

  /** The line at `i` keeps the stream open and yields its own message, if any. */
  lemma OpenLine(lines: seq<Line>, i: nat, decode: Decoder)
    requires i < |lines| && Open(lines[..i]) && !lines[i].Ends()
    ensures Messages(lines[..i + 1], decode) == Messages(lines[..i], decode) + LineMessage(lines[i], decode)
    ensures Open(lines[..i + 1])
  {
    var read := lines[..i + 1];
    assert read == lines[..i] + [lines[i]];
    MessagesAppend(lines[..i], [lines[i]], decode);
    assert [lines[i]][1..] == [];
    assert LineMessage(lines[i], decode) + [] == LineMessage(lines[i], decode);
    forall k | 0 <= k < i + 1 ensures !read[k].Ends() {
      if k < i {
        assert read[k] == lines[..i][k];
      }
    }
  }

  /** Nothing after the end of the stream is yielded. */
  lemma {:induction false} MessagesPastEnd(a: seq<Line>, b: seq<Line>, decode: Decoder)
    requires !Open(a)
    ensures Messages(a + b, decode) == Messages(a, decode)
    decreases |a|
  {
    assert a != [];
    assert (a + b)[0] == a[0] && (a + b)[1..] == a[1..] + b;
    if !a[0].Ends() {
      assert !Open(a[1..]) by {
        var k :| 0 <= k < |a| && a[k].Ends();
        assert k > 0 && a[1..][k - 1] == a[k];
      }
      MessagesPastEnd(a[1..], b, decode);
    }
  }

  /** A blank line, or one that is not UTF-8 or not JSON, is skipped without affecting any
      later line. */
  lemma SkippedLine(a: seq<Line>, skipped: Line, b: seq<Line>, decode: Decoder)
    requires Open(a) && !skipped.Ends() && LineMessage(skipped, decode) == []
    ensures Messages(a + [skipped] + b, decode) == Messages(a + b, decode)
  {
    MessagesAppend(a, [skipped] + b, decode);
    assert a + [skipped] + b == a + ([skipped] + b);
    assert ([skipped] + b)[1..] == b;
    MessagesAppend(a, b, decode);
  }

  /** Every message comes from a line before the end of the stream that decodes to it. */
  lemma {:induction false} MessageOrigin(lines: seq<Line>, decode: Decoder, m: Json)
    requires m in Messages(lines, decode)
    ensures exists k :: 0 <= k < |lines| && Open(lines[..k]) && LineMessage(lines[k], decode) == [m]
    decreases |lines|
  {
    var first := LineMessage(lines[0], decode);
    if m in first {
      assert Open(lines[..0]);
      assert first == [m];
    } else {
      MessageOrigin(lines[1..], decode, m);
      var k :| 0 <= k < |lines[1..]| && Open(lines[1..][..k]) && LineMessage(lines[1..][k], decode) == [m];
      assert lines[..k + 1] == [lines[0]] + lines[1..][..k];
      var pre := lines[..k + 1];
      assert Open(pre) by {
        forall j | 0 <= j < k + 1 ensures !pre[j].Ends() {
          if j > 0 {
            assert pre[j] == lines[1..][..k][j - 1];
          }
        }
      }
      assert lines[k + 1] == lines[1..][k];
    }
  }

  /** The listener after reading `lines`: nothing happens unless it is running; it stops at
      the end of the stream or at the first message that raises. */
  function Heard(listening: bool, pending: PendingMap, lines: seq<Line>, decode: Decoder): (r: Listener)
    ensures !listening ==> r == Listener(pending, false)
    ensures Keys(r.pending) == Keys(pending)
  {
    if !listening then Listener(pending, false)
    else
      var l := DispatchAll(StdioRule, pending, Messages(lines, decode));
      DispatchAllKeys(StdioRule, pending, Messages(lines, decode));
      Listener(l.pending, l.alive && Open(lines))
  }

  // ---------------------------------------------------------------- the subprocess

  /** `asyncio.subprocess.Process`, by the pipes it was given. */
  datatype Process = Process(hasStdin: bool, hasStdout: bool)

  /** What the subprocess does when `disconnect` stops it: it exits within the three seconds
      `terminate` is given, it does not, or `terminate` itself raises. */
  datatype Shutdown = ExitsOnTerminate | IgnoresTerminate | TerminateFails

  datatype ProcessAction = CloseStdin | Terminate | Kill

  /** What `disconnect` does to the subprocess: stdin is closed first, then the process is
      terminated, and killed if it has not exited within three seconds. */
  function StopActions(p: Process, shutdown: Shutdown): (r: seq<ProcessAction>)
    ensures Terminate in r && (CloseStdin in r <==> p.hasStdin) && (Kill in r <==> shutdown == IgnoresTerminate)
    ensures p.hasStdin ==> r[0] == CloseStdin
    ensures shutdown == IgnoresTerminate ==> r[|r| - 1] == Kill
  {
    (if p.hasStdin then [CloseStdin] else []) + [Terminate] + (if shutdown == IgnoresTerminate then [Kill] else [])
  }

  /** `str(command)`, each item in single quotes. This is Python's text for items holding no
      quote or backslash; the other quoting repr does is not modelled. */
  function ListRepr(items: seq<string>): string {
    "[" + Join(", ", seq(|items|, k requires 0 <= k < |items| => "'" + items[k] + "'")) + "]"
  }

  /** The exception `send_request` raises for a failure while writing the request: an MCP
      timeout or transport error as it is, anything else wrapped. */
  function WriteFailure(e: Error): (r: Error)
    ensures r.IsTransportError() || r.TimeoutError?
    ensures e.IsTransportError() || e.TimeoutError? ==> r == e
  {
    if e.IsTransportError() || e.TimeoutError? then e else TransportError("Failed to send request: " + e.msg)
  }

  class StdioTransport {
    const command: seq<string>
    var connected: bool
    var process: Option<Process>
    var pending: PendingMap
    /** The background `_listen_loop` task is still reading stdout. */
    var listening: bool
    /** The requests written to stdin, one JSON line each. */
    var sent: seq<Object>
    /** What was done to subprocesses on the way down, in order. */
    var actions: seq<ProcessAction>

    ghost predicate Valid()
      reads this
    {
      UniqueKeys(pending) && (listening ==> connected && process.Some?)
    }

    /** `send_request` can write: connected, with a process that has a stdin. */
    predicate Ready()
      reads this
    {
      connected && process.Some? && process.value.hasStdin
    }

    constructor(command: seq<string>)
      ensures Valid() && this.command == command
      ensures !connected && process.None? && pending == [] && !listening && sent == [] && actions == []
    {
      this.command := command;
      connected := false;
      process := None;
      pending := [];
      listening := false;
      sent := [];
      actions := [];
    }

    /** `connect`: start the subprocess, then the listener, which stops at once when the
        process has no stdout. A failure to start changes nothing. */
    method Connect(spawned: Result<Process>) returns (r: Result<()>)
      requires Valid()
      modifies this
      ensures Valid()
      ensures spawned.Err? ==>
        r == Err(ConnectionError("Failed to start subprocess " + ListRepr(command) + ": " + spawned.error.msg)) &&
        unchanged(this)
      ensures spawned.Ok? ==>
        r == Ok(()) && connected && process == Some(spawned.value) && listening == spawned.value.hasStdout &&
        pending == old(pending) && sent == old(sent) && actions == old(actions)
    {
      if spawned.Err? {
        return Err(ConnectionError("Failed to start subprocess " + ListRepr(command) + ": " + spawned.error.msg));
      }
      process := Some(spawned.value);
      connected := true;
      listening := spawned.value.hasStdout;
      r := Ok(());
    }

    /** `disconnect`: the listener is cancelled, the subprocess is stopped and forgotten, and
        whatever stopping it raised is swallowed. Requests still pending stay filed. */
    method Disconnect(shutdown: Shutdown)
      requires Valid()
      modifies this
      ensures Valid()
      ensures !connected && !listening && process.None?
      ensures pending == old(pending) && sent == old(sent)
      ensures actions == old(actions) + if old(process).Some? then StopActions(old(process).value, shutdown) else []
    {
      connected := false;
      listening := false;
      if process.Some? {
        var p := process.value;
        if p.hasStdin {
          actions := actions + [CloseStdin];
        }
        actions := actions + [Terminate];
        if shutdown == IgnoresTerminate {
          actions := actions + [Kill];
        }
        process := None;
      }
    }

    /** The listener reading `lines` from stdout: each message is matched against the
        pending requests, until the stream ends or a message raises. */
    method ReadLoop(lines: seq<Line>, decode: Decoder)
      requires Valid()
      modifies this
      ensures Valid()
      ensures Listener(pending, listening) == Heard(old(listening), old(pending), lines, decode)
      ensures connected == old(connected) && process == old(process)
      ensures sent == old(sent) && actions == old(actions)
    {
      if !listening {
        return;
      }
      ghost var start := pending;
      var i := 0;
      while i < |lines| && listening
        invariant 0 <= i <= |lines|
        invariant connected == old(connected) && process == old(process)
        invariant sent == old(sent) && actions == old(actions)
        invariant listening ==> Open(lines[..i])
        invariant pending == DispatchAll(StdioRule, start, Messages(lines[..i], decode)).pending
        invariant listening == (DispatchAll(StdioRule, start, Messages(lines[..i], decode)).alive && Open(lines[..i]))
      {
        ReadStep(lines, i, decode, start);
        i := i + 1;
      }
      DispatchAllKeys(StdioRule, start, Messages(lines[..i], decode));
      SameKeysUnique(start, pending);
      if i < |lines| {
        assert lines == lines[..i] + lines[i..];
        if !Open(lines[..i]) {
          MessagesPastEnd(lines[..i], lines[i..], decode);
          assert !Open(lines) by {
            if Open(lines) {
              OpenPrefix(lines, i);
            }
          }
        } else {
          MessagesAppend(lines[..i], lines[i..], decode);
          DispatchAllDead(StdioRule, start, Messages(lines[..i], decode), Messages(lines[i..], decode));
        }
      } else {
        assert lines[..i] == lines;
      }
    }

    /** One turn of the read loop: the line at `i`, read by a running listener. */
    method ReadStep(lines: seq<Line>, i: nat, decode: Decoder, ghost start: PendingMap)
      requires i < |lines| && listening && Open(lines[..i])
      requires pending == DispatchAll(StdioRule, start, Messages(lines[..i], decode)).pending
      requires DispatchAll(StdioRule, start, Messages(lines[..i], decode)).alive
      modifies this
      ensures connected == old(connected) && process == old(process)
      ensures sent == old(sent) && actions == old(actions)
      ensures listening ==> Open(lines[..i + 1])
      ensures pending == DispatchAll(StdioRule, start, Messages(lines[..i + 1], decode)).pending
      ensures listening == (DispatchAll(StdioRule, start, Messages(lines[..i + 1], decode)).alive && Open(lines[..i + 1]))
    {
      var line := lines[i];
      if line.Ends() {
        EndingLine(lines, i, decode);
        listening := false;
      } else {
        OpenLine(lines, i, decode);
        var found := LineMessage(line, decode);
        if found == [] {
          assert Messages(lines[..i], decode) + found == Messages(lines[..i], decode);
        } else {
          DispatchNext(start, Messages(lines[..i], decode), found);
          var next := Dispatch(StdioRule, pending, found[0]);
          if next.Ok? {
            pending := next.value;
          } else {
            listening := false;
          }
        }
      }
    }

    /** `send_request`: refused before anything is filed when not connected; otherwise the
        request is filed under `str(id)` and written, the listener reads `replies` while it
        waits, and the answer is the future's outcome or a timeout. The entry for the id is
        removed on every way out. */
    method SendRequest(request: Request, timeout: Option<real>, written: Result<()>,
                       replies: seq<Line>, decode: Decoder) returns (r: Result<Response>)
      requires Valid()
      modifies this
      ensures Valid()
      ensures connected == old(connected) && process == old(process) && actions == old(actions)
      ensures !old(Ready()) ==> r == Err(TransportError("Not connected")) && unchanged(this)
      ensures old(Ready()) ==> IdKey(request.id) !in Keys(pending)
      ensures old(Ready()) && written.Err? ==>
        r == Err(WriteFailure(written.error)) && sent == old(sent) && listening == old(listening) &&
        pending == Remove(Put(old(pending), IdKey(request.id), Waiting), IdKey(request.id))
      ensures old(Ready()) && written.Ok? ==>
        var key := IdKey(request.id);
        var l := Heard(old(listening), Put(old(pending), key, Waiting), replies, decode);
        sent == old(sent) + [RequestToJson(request)] && listening == l.alive &&
        r == Answer(Get(l.pending, key), key, timeout) && pending == Remove(l.pending, key)
    {
      if !Ready() {
        return Err(TransportError("Not connected"));
      }
      var key := IdKey(request.id);
      PutUnique(pending, key, Waiting);
      pending := Put(pending, key, Waiting);
      if written.Err? {
        r := Err(WriteFailure(written.error));
      } else {
        sent := sent + [RequestToJson(request)];
        ReadLoop(replies, decode);
        r := Answer(Get(pending, key), key, timeout);
      }
      RemoveUnique(pending, key);
      GetRemove(pending, key, key);
      pending := Remove(pending, key);
    }
  }

  /** A request answered while it waits gets exactly the response the subprocess printed, and
      leaves nothing filed under its id. */
  lemma AnsweredRequest(listening: bool, pending: PendingMap, request: Request, resp: Response,
                        text: string, decode: Decoder)
    requires listening && resp.id == request.id && (resp.result.Some? || resp.error.Some?)
    requires Strip(text) != "" && decode(Strip(text)) == Some(JObj(ResponseToJson(resp)))
    ensures var key := IdKey(request.id);
      var l := Heard(listening, Put(pending, key, Waiting), [Line.Text(text)], decode);
      Answer(Get(l.pending, key), key, None) == Ok(resp) && l.alive
  {
    var key := IdKey(request.id);
    var start := Put(pending, key, Waiting);
    GetPut(pending, key, Waiting, key);
    var line := Line.Text(text);
    OneLine(line, decode);
    var m := JObj(ResponseToJson(resp));
    DispatchAllSnoc(StdioRule, start, [], m);
    assert [] + [m] == [m];
    DeliversResponse(StdioRule, start, resp);
    GetPut(start, key, Done(Ok(resp)), key);
  }

  /** A request whose reply never comes times out naming its id, after sixty seconds when no
      timeout (or a zero one) is given. */
  lemma UnansweredRequest(pending: PendingMap, key: string, timeout: Option<real>)
    requires Get(pending, key) == Some(Waiting)
    ensures Answer(Get(pending, key), key, timeout) == Err(TimeoutError(TimeoutMessage(key, Duration(timeout))))
    ensures timeout.None? || timeout == Some(0.0) ==>
      Answer(Get(pending, key), key, timeout) == Err(TimeoutError("Request " + key + " timed out after 60.0s"))
  {
    DefaultTimeoutMessage(key);
  }
}
