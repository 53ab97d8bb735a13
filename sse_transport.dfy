/** The SSE transport of mcp/transport/sse.py: requests are POSTed to the server's message
    URL, and a listener reading the server-sent event stream completes the pending request each
    response answers. HTTP exchanges are modelled by their outcome, the event stream by the
    events it delivers, and `json.loads` is an input function. */
module SseTransport {
  import opened Wrappers
  import opened Strings
  import opened Protocol
  import opened Dicts
  import opened Pending

  /** What an `httpx` request gives: a response, an `httpx.HTTPError`, or another exception. */
  datatype HttpOutcome = Reply(status: int, text: string) | HttpFailure(msg: string) | OtherFailure(error: Error)

  /** What the event stream delivers: an event's data, the end of the stream, or an
      `httpx.HTTPError` while reading it. */
  datatype SseEvent = Event(data: string) | StreamClosed | StreamFailure(msg: string) {
    /** The event ends `listen`. */
    predicate Ends() {
      !Event?
    }
  }

  /** `json.loads`: None when it raises JSONDecodeError. */
  type Decoder = string -> Option<Json>

  /** `endpoint.replace("/sse", "/health")`, the URL `connect` probes. */
  function HealthUrl(endpoint: string): string {
    Replace(endpoint, "/sse", "/health")
  }

  /** `endpoint.replace("/sse", "/message")`, the URL requests are posted to. */
  function MessageUrl(endpoint: string): string {
    Replace(endpoint, "/sse", "/message")
  }

  /** An endpoint `p/sse…` is probed at `p/health…` and posted to at `p/message…`; one
      without `/sse` is used as it is. */
  lemma EndpointUrls(p: string, u: string)
    requires !Contains(p, "/sse") && !Contains(u, "/sse")
    ensures HealthUrl(p + "/sse" + u) == p + "/health" + u
    ensures MessageUrl(p + "/sse" + u) == p + "/message" + u
    ensures HealthUrl(p) == p && MessageUrl(p) == p
  {
    SseSegmentUnbordered();
    ReplaceAfter(p, "/sse", "/health", u);
    ReplaceAfter(p, "/sse", "/message", u);
    ReplaceAbsent(u, "/sse", "/health");
    ReplaceAbsent(u, "/sse", "/message");
    ReplaceAbsent(p, "/sse", "/health");
    ReplaceAbsent(p, "/sse", "/message");
  }

  /** The message `listen` yields for one event that does not end it: its data decoded,
      unless the data is empty or not JSON. */
  function EventMessage(e: SseEvent, decode: Decoder): (r: seq<Json>)
    ensures |r| <= 1
    ensures r != [] <==> e.Event? && e.data != "" && decode(e.data).Some?
    ensures r != [] ==> r[0] == decode(e.data).value
  {
    if e.Event? && e.data != "" && decode(e.data).Some? then [decode(e.data).value] else []
  }

  predicate Open(events: seq<SseEvent>) {
    forall k :: 0 <= k < |events| ==> !events[k].Ends()
  }

  /** The messages `listen` yields, in order, up to the first event that ends it. */
  function Messages(events: seq<SseEvent>, decode: Decoder): seq<Json>
    decreases |events|
  {
    if events == [] || events[0].Ends() then []
    else EventMessage(events[0], decode) + Messages(events[1..], decode)
  }

  /** More events after events that keep the stream open append their messages. */
  lemma {:induction false} MessagesAppend(a: seq<SseEvent>, b: seq<SseEvent>, decode: Decoder)
    requires Open(a)
    ensures Messages(a + b, decode) == Messages(a, decode) + Messages(b, decode)
    decreases |a|
  {
    if a == [] {
      assert a + b == b;
    } else {
      assert (a + b)[0] == a[0] && (a + b)[1..] == a[1..] + b;
      assert Open(a[1..]) by {
        forall k | 0 <= k < |a[1..]| ensures !a[1..][k].Ends() {
          assert a[1..][k] == a[k + 1];
        }
      }
      MessagesAppend(a[1..], b, decode);
    }
  }

  /** Nothing after the end of the stream is yielded. */
  lemma {:induction false} MessagesPastEnd(a: seq<SseEvent>, b: seq<SseEvent>, decode: Decoder)
    requires !Open(a)
    ensures Messages(a + b, decode) == Messages(a, decode)
    decreases |a|
  {
    assert a != [];
    assert (a + b)[0] == a[0] && (a + b)[1..] == a[1..] + b;
    if !a[0].Ends() {
      assert !Open(a[1..]) by {
        var k :| 0 <= k < |a| && a[k].Ends();
        assert k > 0 && a[1..][k - 1] == a[k];
      }
      MessagesPastEnd(a[1..], b, decode);
    }
  }

  lemma OpenPrefix(events: seq<SseEvent>, i: nat)
    requires Open(events) && i <= |events|
    ensures Open(events[..i])
  {
    assert forall k :: 0 <= k < i ==> events[..i][k] == events[k];
  }

  /** The event at `i` ends the stream and yields nothing. */
  lemma EndingEvent(events: seq<SseEvent>, i: nat, decode: Decoder)
    requires i < |events| && Open(events[..i]) && events[i].Ends()
    ensures Messages(events[..i + 1], decode) == Messages(events[..i], decode) && !Open(events[..i + 1])
  {
    assert events[..i + 1] == events[..i] + [events[i]];
    MessagesAppend(events[..i], [events[i]], decode);
    assert Messages(events[..i], decode) + [] == Messages(events[..i], decode);
    assert events[..i + 1][i] == events[i];
  }

  /** The event at `i` keeps the stream open and yields its own message, if any. */
  lemma OpenEvent(events: seq<SseEvent>, i: nat, decode: Decoder)
    requires i < |events| && Open(events[..i]) && !events[i].Ends()
    ensures Messages(events[..i + 1], decode) == Messages(events[..i], decode) + EventMessage(events[i], decode)
    ensures Open(events[..i + 1])
  {
    var read := events[..i + 1];
    assert read == events[..i] + [events[i]];
    MessagesAppend(events[..i], [events[i]], decode);
    assert [events[i]][1..] == [];
    assert EventMessage(events[i], decode) + [] == EventMessage(events[i], decode);
    forall k | 0 <= k < i + 1 ensures !read[k].Ends() {
      if k < i {
        assert read[k] == events[..i][k];
      }
    }
  }

  /** The listener handles the one message an event yields after those before it. */
  lemma DispatchNext(start: PendingMap, ms: seq<Json>, found: seq<Json>)
    requires |found| == 1 && DispatchAll(SseRule, start, ms).alive
    ensures var l := DispatchAll(SseRule, start, ms);
      var d := Dispatch(SseRule, l.pending, found[0]);
      DispatchAll(SseRule, start, ms + found) == if d.Ok? then Listener(d.value, true) else Listener(l.pending, false)
  {
    assert found == [found[0]];
    DispatchAllSnoc(SseRule, start, ms, found[0]);
  }

  /** The listener after the events `events`: nothing happens unless it is running; it stops
      at the end of the stream or at the first message that raises. */
  function Heard(listening: bool, pending: PendingMap, events: seq<SseEvent>, decode: Decoder): (r: Listener)
    ensures !listening ==> r == Listener(pending, false)
    ensures Keys(r.pending) == Keys(pending)
  {
    if !listening then Listener(pending, false)
    else
      var l := DispatchAll(SseRule, pending, Messages(events, decode));
      DispatchAllKeys(SseRule, pending, Messages(events, decode));
      Listener(l.pending, l.alive && Open(events))
  }

  class SseTransport {
    const endpoint: string
    const headers: map<string, string>
    var connected: bool
    /** `self.client` is set. */
    var hasClient: bool
    var pending: PendingMap
    /** The background `_listen_loop` task is still reading the event stream. */
    var listening: bool
    /** The URLs `connect` probed, in order. */
    var probes: seq<string>
    /** The URLs and bodies posted, in order. */
    var posts: seq<(string, Object)>

    ghost predicate Valid()
      reads this
    {
      UniqueKeys(pending) && (listening ==> connected && hasClient)
    }

    /** `__init__`: no headers means none. */
    constructor(endpoint: string, headers: Option<map<string, string>>)
      ensures Valid() && this.endpoint == endpoint && this.headers == headers.GetOr(map[])
      ensures !connected && !hasClient && pending == [] && !listening && probes == [] && posts == []
    {
      this.endpoint := endpoint;
      this.headers := headers.GetOr(map[]);
      connected := false;
      hasClient := false;
      pending := [];
      listening := false;
      probes := [];
      posts := [];
    }

    /** The exception `connect` raises for the outcome of its health probe, if any. */
    static function ProbeFailure(endpoint: string, probe: HttpOutcome): (r: Option<Error>)
      ensures r.Some? ==> r.value.ConnectionError?
      ensures r.None? <==> probe.Reply? && probe.status < 400
    {
      match probe
      case HttpFailure(msg) => Some(ConnectionError("Failed to connect to " + endpoint + ": " + msg))
      case OtherFailure(e) => Some(ConnectionError("Unexpected error during connection: " + e.msg))
      case Reply(status, _) =>
        if status >= 400 then Some(ConnectionError("Unexpected error during connection: Server returned " + IntToString(status)))
        else None
    }

    /** `connect`: a client is created and the health URL probed; a failed probe raises a
        connection error and leaves the connection as it was, a good one connects and starts
        the listener. */
    method Connect(probe: HttpOutcome) returns (r: Result<()>)
      requires Valid()
      modifies this
      ensures Valid() && hasClient
      ensures probes == old(probes) + [HealthUrl(endpoint)]
      ensures pending == old(pending) && posts == old(posts)
      ensures var failure := ProbeFailure(endpoint, probe);
        if failure.Some? then r == Err(failure.value) && connected == old(connected) && listening == old(listening)
        else r == Ok(()) && connected && listening
    {
      hasClient := true;
      probes := probes + [HealthUrl(endpoint)];
      var failure := ProbeFailure(endpoint, probe);
      if failure.Some? {
        return Err(failure.value);
      }
      connected := true;
      listening := true;
      r := Ok(());
    }

    /** `disconnect`: the listener is cancelled and the client closed and dropped. Requests
        still pending stay filed. */
    method Disconnect()
      requires Valid()
      modifies this
      ensures Valid()
      ensures !connected && !listening && !hasClient
      ensures pending == old(pending) && probes == old(probes) && posts == old(posts)
    {
      connected := false;
      listening := false;
      hasClient := false;
    }

    /** The listener reading `events` from the stream. */
    method ReadLoop(events: seq<SseEvent>, decode: Decoder)
      requires Valid()
      modifies this
      ensures Valid()
      ensures Listener(pending, listening) == Heard(old(listening), old(pending), events, decode)
      ensures connected == old(connected) && hasClient == old(hasClient)
      ensures probes == old(probes) && posts == old(posts)
    {
      if !listening {
        return;
      }
      ghost var start := pending;
      var i := 0;
      while i < |events| && listening
        invariant 0 <= i <= |events|
        invariant connected == old(connected) && hasClient == old(hasClient)
        invariant probes == old(probes) && posts == old(posts)
        invariant listening ==> Open(events[..i])
        invariant pending == DispatchAll(SseRule, start, Messages(events[..i], decode)).pending
        invariant listening == (DispatchAll(SseRule, start, Messages(events[..i], decode)).alive && Open(events[..i]))
      {
        ReadStep(events, i, decode, start);
        i := i + 1;
      }
      DispatchAllKeys(SseRule, start, Messages(events[..i], decode));
      SameKeysUnique(start, pending);
      if i < |events| {
        assert events == events[..i] + events[i..];
        if !Open(events[..i]) {
          MessagesPastEnd(events[..i], events[i..], decode);
          assert !Open(events) by {
            if Open(events) {
              OpenPrefix(events, i);
            }
          }
        } else {
          MessagesAppend(events[..i], events[i..], decode);
          DispatchAllDead(SseRule, start, Messages(events[..i], decode), Messages(events[i..], decode));
        }
      } else {
        assert events[..i] == events;
      }
    }

    /** One turn of the read loop: the event at `i`, read by a running listener. */
    method ReadStep(events: seq<SseEvent>, i: nat, decode: Decoder, ghost start: PendingMap)
      requires i < |events| && listening && Open(events[..i])
      requires pending == DispatchAll(SseRule, start, Messages(events[..i], decode)).pending
      requires DispatchAll(SseRule, start, Messages(events[..i], decode)).alive
      modifies this
      ensures connected == old(connected) && hasClient == old(hasClient)
      ensures probes == old(probes) && posts == old(posts)
      ensures listening ==> Open(events[..i + 1])
      ensures pending == DispatchAll(SseRule, start, Messages(events[..i + 1], decode)).pending
      ensures listening == (DispatchAll(SseRule, start, Messages(events[..i + 1], decode)).alive && Open(events[..i + 1]))
    {
      var e := events[i];
      if e.Ends() {
        EndingEvent(events, i, decode);
        listening := false;
      } else {
        OpenEvent(events, i, decode);
        var found := EventMessage(e, decode);
        if found == [] {
          assert Messages(events[..i], decode) + found == Messages(events[..i], decode);
        } else {
          DispatchNext(start, Messages(events[..i], decode), found);
          var next := Dispatch(SseRule, pending, found[0]);
          if next.Ok? {
            pending := next.value;
          } else {
            listening := false;
          }
        }
      }
    }

    /** The exception `send_request` raises for the outcome of its POST, if any: an HTTP
        error is wrapped, an error status reported with the body, anything else raised as
        it is. */
    static function PostFailure(post: HttpOutcome): (r: Option<Error>)
      ensures r.None? <==> post.Reply? && post.status < 400
      ensures post.OtherFailure? ==> r == Some(post.error)
    {
      match post
      case HttpFailure(msg) => Some(TransportError("HTTP error: " + msg))
      case OtherFailure(e) => Some(e)
      case Reply(status, text) =>
        if status >= 400 then Some(TransportError("Server returned " + IntToString(status) + ": " + text)) else None
    }

    /** `send_request`: refused before anything is filed when not connected; otherwise the
        request is filed under `str(id)` and posted, and after a good POST the listener reads
        `events` while it waits; the answer is the future's outcome or a timeout. The entry
        for the id is removed on every way out. */
    method SendRequest(request: Request, timeout: Option<real>, post: HttpOutcome,
                       events: seq<SseEvent>, decode: Decoder) returns (r: Result<Response>)
      requires Valid()
      modifies this
      ensures Valid()
      ensures connected == old(connected) && hasClient == old(hasClient) && probes == old(probes)
      ensures !old(connected && hasClient) ==> r == Err(TransportError("Not connected")) && unchanged(this)
      ensures old(connected && hasClient) ==>
        IdKey(request.id) !in Keys(pending) &&
        posts == old(posts) + [(MessageUrl(endpoint), RequestToJson(request))]
      ensures old(connected && hasClient) && PostFailure(post).Some? ==>
        r == Err(PostFailure(post).value) && listening == old(listening) &&
        pending == Remove(Put(old(pending), IdKey(request.id), Waiting), IdKey(request.id))
      ensures old(connected && hasClient) && PostFailure(post).None? ==>
        var key := IdKey(request.id);
        var l := Heard(old(listening), Put(old(pending), key, Waiting), events, decode);
        listening == l.alive && r == Answer(Get(l.pending, key), key, timeout) && pending == Remove(l.pending, key)
    {
      if !connected || !hasClient {
        return Err(TransportError("Not connected"));
      }
      var key := IdKey(request.id);
      PutUnique(pending, key, Waiting);
      pending := Put(pending, key, Waiting);
      posts := posts + [(MessageUrl(endpoint), RequestToJson(request))];
      var failure := PostFailure(post);
      if failure.Some? {
        r := Err(failure.value);
      } else {
        ReadLoop(events, decode);
        r := Answer(Get(pending, key), key, timeout);
      }
      RemoveUnique(pending, key);
      GetRemove(pending, key, key);
      pending := Remove(pending, key);
    }
  }

  /** The SSE listener also takes any dict with an "error" key for a response: one without an
      "id" raises KeyError and stops the listener, so a request waiting behind it times out. */
  lemma ErrorWithoutIdStopsListener(pending: PendingMap, o: Object, rest: seq<SseEvent>, data: string,
                                    decode: Decoder)
    requires "error" in o && "id" !in o && data != "" && decode(data) == Some(JObj(o))
    ensures !Heard(true, pending, [Event(data)] + rest, decode).alive
    ensures Heard(true, pending, [Event(data)] + rest, decode).pending == pending
  {
    var first := [Event(data)];
    assert Open(first) && first[1..] == [];
    assert Messages(first, decode) == [JObj(o)] by {
      assert EventMessage(Event(data), decode) + [] == [JObj(o)];
    }
    MessagesAppend(first, rest, decode);
    SseDispatch(pending, o, "");
    DispatchAllSnoc(SseRule, pending, [], JObj(o));
    assert [] + [JObj(o)] == [JObj(o)];
    DispatchAllDead(SseRule, pending, [JObj(o)], Messages(rest, decode));
  }
}
