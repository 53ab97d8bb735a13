/** The request/response correlation shared by the two transports of mcp/transport: the
    table `_pending_requests` of futures filed under `str(request.id)`, the test each
    `_listen_loop` applies to an incoming message, and the `timeout or 60.0` rule. A future
    is modelled by its state. The listener task and a waiting sender run one after the
    other: the messages the listener handles while a request waits are an input of that
    request. */
module Pending {
  import opened Wrappers
  import opened Strings
  import opened Protocol
  import opened Dicts

  /** The state of an `asyncio.Future[JSONRPCResponse]`: not done yet, or done with a
      response or with the exception set on it. */
  datatype Future = Waiting | Done(outcome: Result<Response>)

  type PendingMap = Dict<string, Future>

  /** What the listener task has done so far: the table, and whether it is still running. */
  datatype Listener = Listener(pending: PendingMap, alive: bool)

  // ---------------------------------------------------------------- Python on a decoded message

  /** `m[key]`: only a dict holding the key gives a value. */
  function PyIndex(m: Json, key: string): (r: Result<Json>)
    ensures r.Ok? <==> m.JObj? && key in m.fields
    ensures r.Ok? ==> r.value == m.fields[key]
    ensures m.JObj? && key !in m.fields ==> r == Err(KeyError("'" + key + "'"))
  {
    match m
    case JObj(o) => if key in o then Ok(o[key]) else Err(KeyError("'" + key + "'"))
    case JArr(_) => Err(TypeError("list indices must be integers or slices, not str"))
    case JStr(_) => Err(TypeError("string indices must be integers, not 'str'"))
    case _ => Err(TypeError("'" + TypeName(m) + "' object is not subscriptable"))
  }

  /** `str(v)` for a JSON scalar. The text of a list or a dict is not modelled: such an id
      is filed under no key. */
  function KeyText(v: Json): Option<string> {
    match v
    case JNull => Some("None")
    case JBool(b) => Some(if b then "True" else "False")
    case JInt(i) => Some(IntToString(i))
    case JStr(s) => Some(s)
    case _ => None
  }

  /** The id of a dumped response is read back as the key its request was filed under. */
  lemma KeyTextOfId(id: RequestId)
    ensures KeyText(IdToJson(id)) == Some(IdKey(id))
  {
    match id
    case StrId(_) =>
    case IntId(_) =>
  }

  // ---------------------------------------------------------------- completing a future

  /** What `_listen_loop` gives the future: the validated response, or TransportError
      "Invalid response: …" when `JSONRPCResponse(**message)` rejects the message. */
  function Settle(o: Object): (r: Result<Response>)
    ensures r.Ok? <==> ParseResponse(o).Ok?
    ensures r.Ok? ==> r == ParseResponse(o)
    ensures r.Err? ==> r == Err(TransportError("Invalid response: " + ParseResponse(o).error.msg))
  {
    var p := ParseResponse(o);
    if p.Ok? then p else Err(TransportError("Invalid response: " + p.error.msg))
  }

  /** The future filed under `key` receives the message if it is still waiting; a late or
      unknown response, or one whose id has no key, changes nothing. */
  function Complete(pending: PendingMap, key: Option<string>, o: Object): PendingMap {
    if key.Some? && Get(pending, key.value) == Some(Waiting) then Put(pending, key.value, Done(Settle(o)))
    else pending
  }

  /** Completing changes the entry of that one key, and only when it was waiting. */
  lemma CompleteEntry(pending: PendingMap, key: Option<string>, o: Object, k: string)
    ensures Get(Complete(pending, key, o), k) ==
      if key == Some(k) && Get(pending, k) == Some(Waiting) then Some(Done(Settle(o))) else Get(pending, k)
  {
    if key.Some? && Get(pending, key.value) == Some(Waiting) {
      GetPut(pending, key.value, Done(Settle(o)), k);
    }
  }

  /** Completing never adds or removes a key, nor moves one. */
  lemma CompleteKeys(pending: PendingMap, key: Option<string>, o: Object)
    ensures Keys(Complete(pending, key, o)) == Keys(pending)
  {
    if key.Some? && Get(pending, key.value) == Some(Waiting) {
      PutKeys(pending, key.value, Done(Settle(o)));
    }
  }

  /** Two tables with the same key sequence both have distinct keys, or neither has. */
  lemma SameKeysUnique(a: PendingMap, b: PendingMap)
    requires Keys(a) == Keys(b) && UniqueKeys(a)
    ensures UniqueKeys(b)
  {
    forall i, j | 0 <= i < j < |b| ensures b[i].0 != b[j].0 {
      assert Keys(b)[i] == b[i].0 && Keys(a)[i] == a[i].0;
      assert Keys(b)[j] == b[j].0 && Keys(a)[j] == a[j].0;
    }
  }

  // ---------------------------------------------------------------- the listener

  /** How a transport's `_listen_loop` recognises a response. */
  datatype Rule =
    | StdioRule  // `"id" in m and ("result" in m or "error" in m)`
    | SseRule    // `"id" in m and "result" in m or "error" in m`, which Python reads as
                 // `("id" in m and "result" in m) or "error" in m`

  /** The rule's test on a message, with the TypeError that `in` raises on a scalar. */
  function IsResponse(rule: Rule, m: Json): (r: Result<bool>)
    ensures r.Err? <==> m.JNull? || m.JBool? || m.JInt?
    ensures m.JObj? && rule == StdioRule ==>
      r == Ok("id" in m.fields && ("result" in m.fields || "error" in m.fields))
    ensures m.JObj? && rule == SseRule ==>
      r == Ok(("id" in m.fields && "result" in m.fields) || "error" in m.fields)
  {
    // Once `"id" in m` has not raised, no later `in` on the same value raises either.
    var hasId :- PyIn("id", m);
    var hasResult, hasError := PyIn("result", m).value, PyIn("error", m).value;
    if rule == StdioRule then Ok(hasId && (hasResult || hasError))
    else Ok((hasId && hasResult) || hasError)
  }

  /** One turn of `_listen_loop`: the new table, or the exception that ends the loop. */
  function Dispatch(rule: Rule, pending: PendingMap, m: Json): (r: Result<PendingMap>)
  {
    var response :- IsResponse(rule, m);
    if !response then Ok(pending)
    else
      var id :- PyIndex(m, "id");
      Ok(Complete(pending, KeyText(id), m.fields))
  }

  /** The listener after the messages `ms`: the first message that raises ends the loop,
      and no later message is read. */
  function DispatchAll(rule: Rule, pending: PendingMap, ms: seq<Json>): (r: Listener)
    decreases |ms|
  {
    if ms == [] then Listener(pending, true)
    else
      var l := DispatchAll(rule, pending, ms[..|ms| - 1]);
      if !l.alive then l
      else
        var d := Dispatch(rule, l.pending, ms[|ms| - 1]);
        if d.Ok? then Listener(d.value, true) else Listener(l.pending, false)
  }

  /** For a stdio message that is a dict, the loop goes on, and the only entry that changes is
      a waiting one whose key is the message's id, when the message has a result or an error. */
  lemma StdioDispatch(pending: PendingMap, o: Object, k: string)
    ensures Dispatch(StdioRule, pending, JObj(o)).Ok?
    ensures Get(Dispatch(StdioRule, pending, JObj(o)).value, k) ==
      if "id" in o && ("result" in o || "error" in o) && KeyText(o["id"]) == Some(k) && Get(pending, k) == Some(Waiting)
      then Some(Done(Settle(o)))
      else Get(pending, k)
  {
    if "id" in o && ("result" in o || "error" in o) {
      CompleteEntry(pending, KeyText(o["id"]), o, k);
    }
  }

  /** For an SSE message that is a dict, "error" without "id" raises KeyError and ends the
      loop; otherwise only a waiting entry keyed by the message's id changes. */
  lemma SseDispatch(pending: PendingMap, o: Object, k: string)
    ensures "error" in o && "id" !in o ==> Dispatch(SseRule, pending, JObj(o)) == Err(KeyError("'id'"))
    ensures Dispatch(SseRule, pending, JObj(o)).Ok? <==> !("error" in o && "id" !in o)
    ensures Dispatch(SseRule, pending, JObj(o)).Ok? ==>
      Get(Dispatch(SseRule, pending, JObj(o)).value, k) ==
        if (("id" in o && "result" in o) || "error" in o) && KeyText(o["id"]) == Some(k) && Get(pending, k) == Some(Waiting)
        then Some(Done(Settle(o)))
        else Get(pending, k)
  {
    assert IsResponse(SseRule, JObj(o)) == Ok(("id" in o && "result" in o) || "error" in o);
    if "id" in o && (("id" in o && "result" in o) || "error" in o) {
      CompleteEntry(pending, KeyText(o["id"]), o, k);
    } else if "error" in o {
      assert "'" + "id" + "'" == "'id'";
    }
  }

  /** A stdio notification (a "method" and no "id") is ignored. */
  lemma NotificationIgnored(pending: PendingMap, o: Object)
    requires "method" in o && "id" !in o
    ensures Dispatch(StdioRule, pending, JObj(o)) == Ok(pending)
  {
  }

  /** A message that is a number, a boolean or null ends either loop. */
  lemma ScalarEndsLoop(rule: Rule, pending: PendingMap, m: Json)
    requires m.JNull? || m.JBool? || m.JInt?
    ensures Dispatch(rule, pending, m).Err?
  {
  }

  /** The dump of a response with a result or an error completes the request waiting under
      its id with exactly that response, under either rule. */
  lemma DeliversResponse(rule: Rule, pending: PendingMap, resp: Response)
    requires Get(pending, IdKey(resp.id)) == Some(Waiting)
    requires resp.result.Some? || resp.error.Some?
    ensures Dispatch(rule, pending, JObj(ResponseToJson(resp))) == Ok(Put(pending, IdKey(resp.id), Done(Ok(resp))))
  {
    var o := ResponseToJson(resp);
    assert "id" in o && o["id"] == IdToJson(resp.id);
    assert "result" in o || "error" in o;
    KeyTextOfId(resp.id);
    ResponseRoundTrip(resp);
    assert Settle(o) == Ok(resp);
  }

  /** Handling a message never adds or removes a key. */
  lemma DispatchKeys(rule: Rule, pending: PendingMap, m: Json)
    requires Dispatch(rule, pending, m).Ok?
    ensures Keys(Dispatch(rule, pending, m).value) == Keys(pending)
  {
    var response := IsResponse(rule, m).value;
    if response {
      CompleteKeys(pending, KeyText(PyIndex(m, "id").value), m.fields);
    }
  }

  /** Nor does any run of the listener. */
  lemma {:induction false} DispatchAllKeys(rule: Rule, pending: PendingMap, ms: seq<Json>)
    ensures Keys(DispatchAll(rule, pending, ms).pending) == Keys(pending)
    decreases |ms|
  {
    if ms != [] {
      var l := DispatchAll(rule, pending, ms[..|ms| - 1]);
      DispatchAllKeys(rule, pending, ms[..|ms| - 1]);
      if l.alive && Dispatch(rule, l.pending, ms[|ms| - 1]).Ok? {
        DispatchKeys(rule, l.pending, ms[|ms| - 1]);
      }
    }
  }

  /** One more message, handled by a live listener. */
  lemma DispatchAllSnoc(rule: Rule, pending: PendingMap, ms: seq<Json>, m: Json)
    ensures DispatchAll(rule, pending, ms + [m]) ==
      var l := DispatchAll(rule, pending, ms);
      if !l.alive then l
      else if Dispatch(rule, l.pending, m).Ok? then Listener(Dispatch(rule, l.pending, m).value, true)
      else Listener(l.pending, false)
  {
    assert (ms + [m])[..|ms|] == ms;
  }

  /** Once the loop has ended, later messages are never read. */
  lemma {:induction false} DispatchAllDead(rule: Rule, pending: PendingMap, a: seq<Json>, b: seq<Json>)
    requires !DispatchAll(rule, pending, a).alive
    ensures DispatchAll(rule, pending, a + b) == DispatchAll(rule, pending, a)
    decreases |b|
  {
    if b != [] {
      var init := b[..|b| - 1];
      DispatchAllDead(rule, pending, a, init);
      assert a + b == (a + init) + [b[|b| - 1]];
      DispatchAllSnoc(rule, pending, a + init, b[|b| - 1]);
    } else {
      assert a + b == a;
    }
  }

  // ---------------------------------------------------------------- waiting

  /** `timeout or 60.0`: no timeout and a zero timeout both mean sixty seconds. */
  function Duration(timeout: Option<real>): (r: real)
    ensures timeout.None? || timeout == Some(0.0) ==> r == 60.0
    ensures timeout.Some? && timeout.value != 0.0 ==> r == timeout.value
  {
    if timeout.None? || timeout.value == 0.0 then 60.0 else timeout.value
  }

  /** Two decimal digits. */
  function TwoDigits(n: nat): string
    requires n < 100
  {
    [DigitChar(n / 10), DigitChar(n % 10)]
  }

  /** `str(x)` for a float with at most three decimals; longer fractions are cut after three. */
  function FloatText(x: real): string {
    if x < 0.0 then "-" + UnsignedFloatText(-x) else UnsignedFloatText(x)
  }

  function UnsignedFloatText(x: real): string
    requires x >= 0.0
  {
    var n := x.Floor;
    var f := x - n as real;
    var tenths, hundredths, thousandths := (f * 10.0).Floor, (f * 100.0).Floor, (f * 1000.0).Floor;
    NatToString(n) + "." +
      if tenths as real == f * 10.0 then [DigitChar(tenths)]
      else if hundredths as real == f * 100.0 then TwoDigits(hundredths)
      else [DigitChar(thousandths / 100)] + TwoDigits(thousandths % 100)
  }

  /** The TimeoutError of a request that got no answer in time. */
  function TimeoutMessage(key: string, duration: real): string {
    "Request " + key + " timed out after " + FloatText(duration) + "s"
  }

  /** What `await wait_for(future, …)` gives once the listener has had its turn: the
      future's result or exception, or TimeoutError when it is still waiting. */
  function Answer(future: Option<Future>, key: string, timeout: Option<real>): (r: Result<Response>)
    ensures future.Some? && future.value.Done? ==> r == future.value.outcome
    ensures future == Some(Waiting) ==> r == Err(TimeoutError(TimeoutMessage(key, Duration(timeout))))
  {
    if future.Some? && future.value.Done? then future.value.outcome
    else Err(TimeoutError(TimeoutMessage(key, Duration(timeout))))
  }

  /** With the default timeout the message reads "… timed out after 60.0s". */
  lemma DefaultTimeoutMessage(key: string)
    ensures TimeoutMessage(key, Duration(None)) == "Request " + key + " timed out after 60.0s"
    ensures TimeoutMessage(key, Duration(Some(0.0))) == TimeoutMessage(key, Duration(None))
  {
    assert NatToString(60) == "60";
  }
}
