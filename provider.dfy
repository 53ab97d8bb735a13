/** The provider base class of mcp/provider.py: its class-level metadata, the pydantic
    configuration it validates, and the connected/disconnected state that guards every
    protocol method. Creating a transport and opening or closing it are outside this model:
    their outcomes are parameters of the methods that trigger them. */
module Provider {
  import opened Wrappers
  import opened Protocol
  import opened Categories
  import opened Client

  /** The field types a provider configuration uses. */
  datatype FieldKind = BoolField | StrField | IntField | OptStrField

  /** One declared field of a pydantic configuration model, with its default. */
  datatype Field = Field(name: string, kind: FieldKind, default: Json)

  /** A configuration model: its fields in declaration order (inherited ones first). */
  type Schema = seq<Field>

  predicate HasKind(kind: FieldKind, v: Json) {
    match kind
    case BoolField => v.JBool?
    case StrField => v.JStr?
    case IntField => v.JInt?
    case OptStrField => v.JNull? || v.JStr?
  }

  /** The value a field takes when validating `o`: the given one, else the default. */
  function FieldValue(f: Field, o: Object): Json {
    if f.name in o then o[f.name] else f.default
  }

  function Names(fs: Schema): (r: set<string>)
    ensures forall k :: 0 <= k < |fs| ==> fs[k].name in r
    decreases |fs|
  {
    if fs == [] then {} else {fs[0].name} + Names(fs[1..])
  }

  /** Every name in `Names(fs)` is declared by some field. */
  lemma {:induction false} NameDeclared(fs: Schema, n: string) returns (k: nat)
    requires n in Names(fs)
    ensures k < |fs| && fs[k].name == n
    decreases |fs|
  {
    if fs[0].name == n {
      k := 0;
    } else {
      var j := NameDeclared(fs[1..], n);
      k := j + 1;
    }
  }

  /** Field names are distinct and every default has its field's type. */
  ghost predicate WellFormed(fs: Schema) {
    (forall i, j :: 0 <= i < j < |fs| ==> fs[i].name != fs[j].name) &&
    (forall k :: 0 <= k < |fs| ==> HasKind(fs[k].kind, fs[k].default))
  }

  /** Every field given in `o` has its declared type. */
  ghost predicate AllTyped(fs: Schema, o: Object) {
    forall k :: 0 <= k < |fs| && fs[k].name in o ==> HasKind(fs[k].kind, o[fs[k].name])
  }

  /** `config_class(**o).model_dump()`: every given field must have its declared type, a
      missing one takes its default, and keys the model does not declare are dropped. The
      first badly typed field names the error. */
  function Validate(fs: Schema, o: Object): (r: Result<Object>)
    ensures r.Ok? ==> r.value.Keys == Names(fs)
    decreases |fs|
  {
    if fs == [] then Ok(map[])
    else
      var f := fs[0];
      if f.name in o && !HasKind(f.kind, o[f.name]) then Err(ValidationError(f.name))
      else
        var rest :- Validate(fs[1..], o);
        Ok(rest[f.name := FieldValue(f, o)])
  }

  /** Validation succeeds exactly when every given field has its declared type. */
  lemma {:induction false} ValidateSucceeds(fs: Schema, o: Object)
    ensures Validate(fs, o).Ok? <==> AllTyped(fs, o)
    decreases |fs|
  {
    if fs != [] {
      ValidateSucceeds(fs[1..], o);
      if AllTyped(fs, o) {
        assert AllTyped(fs[1..], o) by {
          forall k | 0 <= k < |fs[1..]| && fs[1..][k].name in o
            ensures HasKind(fs[1..][k].kind, o[fs[1..][k].name])
          {
            assert fs[1..][k] == fs[k + 1];
          }
        }
      }
      if Validate(fs, o).Ok? {
        forall k | 0 <= k < |fs| && fs[k].name in o ensures HasKind(fs[k].kind, o[fs[k].name]) {
          if k > 0 { assert fs[k] == fs[1..][k - 1]; }
        }
      }
    }
  }

  /** With distinct names, each field of the dump holds the given value or the default. */
  lemma {:induction false} ValidateValue(fs: Schema, o: Object, k: nat)
    requires WellFormed(fs) && Validate(fs, o).Ok? && k < |fs|
    ensures Validate(fs, o).value[fs[k].name] == FieldValue(fs[k], o)
    decreases |fs|
  {
    if k > 0 {
      assert WellFormed(fs[1..]) by {
        forall i, j | 0 <= i < j < |fs[1..]| ensures fs[1..][i].name != fs[1..][j].name {
          assert fs[1..][i] == fs[i + 1] && fs[1..][j] == fs[j + 1];
        }
        forall i | 0 <= i < |fs[1..]| ensures HasKind(fs[1..][i].kind, fs[1..][i].default) {
          assert fs[1..][i] == fs[i + 1];
        }
      }
      assert fs[1..][k - 1] == fs[k];
      ValidateValue(fs[1..], o, k - 1);
      assert fs[0].name != fs[k].name;
    }
  }

  /** What `validate_config` relies on: a dumped configuration validates again, to itself. */
  lemma ValidateIdempotent(fs: Schema, o: Object)
    requires WellFormed(fs) && Validate(fs, o).Ok?
    ensures Validate(fs, Validate(fs, o).value) == Validate(fs, o)
  {
    var d := Validate(fs, o).value;
    ValidateSucceeds(fs, o);
    forall k | 0 <= k < |fs| && fs[k].name in d
      ensures HasKind(fs[k].kind, d[fs[k].name])
    {
      ValidateValue(fs, o, k);
    }
    ValidateSucceeds(fs, d);
    var e := Validate(fs, d).value;
    forall n | n in e.Keys ensures e[n] == d[n] {
      var k := NameDeclared(fs, n);
      ValidateValue(fs, o, k);
      ValidateValue(fs, d, k);
    }
    assert e.Keys == d.Keys;
    assert e == d;
  }

  /** `ProviderConfig`: a single field `enabled`, default True. */
  const PROVIDER_CONFIG: Schema := [Field("enabled", BoolField, JBool(true))]

  /** `enabled` defaults to True; a string that spells no boolean, such as "maybe", is
      refused, as pydantic's bool parsing refuses it. */
  lemma ProviderConfigDefaults()
    ensures WellFormed(PROVIDER_CONFIG)
    ensures Validate(PROVIDER_CONFIG, map[]) == Ok(map["enabled" := JBool(true)])
    ensures Validate(PROVIDER_CONFIG, map["enabled" := JStr("maybe")]).Err?
  {
    assert PROVIDER_CONFIG[0].name in map["enabled" := JStr("maybe")];
  }

  /** The class attributes of a provider subclass; `typeName` is the class's qualified name
      as `str()` of the class shows it. */
  datatype ProviderClass = ProviderClass(typeName: string, name: string, displayName: string,
                                         category: ProviderCategory, icon: string,
                                         description: string, transportType: string,
                                         requiresOauth: bool, configSchema: Schema)

  /** The attribute defaults of `MCPProvider` itself. */
  function BaseClass(typeName: string): (r: ProviderClass)
    ensures r.name == "" && r.category == Custom && r.transportType == "sse" && !r.requiresOauth
    ensures r.configSchema == PROVIDER_CONFIG
  {
    ProviderClass(typeName, "", "", Custom, "\U{1F4E6}", "", "sse", false, PROVIDER_CONFIG)
  }

  const NOT_CONNECTED := "Provider not connected"

  class MCPProvider {
    const cls: ProviderClass
    /** The validated configuration, as `model_dump()` shows it. */
    const config: Object
    var transport: Option<Transport>
    var client: Option<MCPClient>
    var connected: bool

    /** A connected provider has a client, and a client talks over the provider's transport. */
    ghost predicate Valid()
      reads this
    {
      (connected ==> client.Some?) &&
      (client.Some? ==> transport.Some? && client.value.transport == transport.value)
    }

    /** The objects a delegated call may change: the client, when there is one. */
    function ClientFrame(): set<object>
      reads this
    {
      if client.Some? then {client.value} else {}
    }

    constructor(cls: ProviderClass, config: Object)
      ensures this.cls == cls && this.config == config
      ensures transport.None? && client.None? && !connected && Valid()
    {
      this.cls := cls;
      this.config := config;
      transport := None;
      client := None;
      connected := false;
    }

    /** `connect`: create the transport, wrap it in a client, open it, and only then mark the
        provider connected. A failure to create leaves everything as it was; a failure to
        open leaves the new transport and client in place and `connected` as it was. */
    method Connect(created: Result<Transport>, opening: Result<()>) returns (r: Result<()>)
      requires Valid()
      modifies this
      ensures Valid()
      ensures created.Err? ==> r == Err(created.error) && transport == old(transport) &&
                               client == old(client) && connected == old(connected)
      ensures created.Ok? ==> transport == Some(created.value) && client.Some? &&
                              fresh(client.value) && client.value.requestCounter == 0
      ensures created.Ok? && opening.Err? ==> r == Err(opening.error) && connected == old(connected)
      ensures created.Ok? && opening.Ok? ==> r == Ok(()) && connected
    {
      if created.Err? {
        return Err(created.error);
      }
      transport := Some(created.value);
      var c := new MCPClient(created.value);
      client := Some(c);
      if opening.Err? {
        return Err(opening.error);
      }
      connected := true;
      r := Ok(());
    }

    /** `disconnect`: close the client if there is one, then drop client and transport. Only
        closing an existing client can fail, and then nothing is cleared. */
    method Disconnect(closed: Result<()>) returns (r: Result<()>)
      requires Valid()
      modifies this
      ensures Valid()
      ensures old(client).Some? && closed.Err? ==>
        r == Err(closed.error) && transport == old(transport) && client == old(client) && connected == old(connected)
      ensures old(client).None? || closed.Ok? ==>
        r == Ok(()) && transport.None? && client.None? && !connected
    {
      if client.Some? {
        if closed.Err? {
          return Err(closed.error);
        }
        client := None;
      }
      transport := None;
      connected := false;
      r := Ok(());
    }

    /** `list_resources` */
    method ListResources(suffix: string) returns (r: Result<seq<Resource>>)
      requires Valid() && IsHexSuffix(suffix)
      modifies ClientFrame()
      ensures client.None? ==> r == Err(RuntimeError(NOT_CONNECTED))
      ensures client.Some? ==> (client.value.requestCounter == old(client.value.requestCounter) + 1 &&
        r == ResourcesListed(transport.value.exchange(Outgoing(client.value.requestCounter, suffix, RESOURCES_LIST, None), None)))
    {
      if client.None? {
        return Err(RuntimeError(NOT_CONNECTED));
      }
      var sent;
      sent, r := client.value.ListResources(None, suffix);
    }

    /** `read_resource` */
    method ReadResource(uri: string, suffix: string) returns (r: Result<ResourceContent>)
      requires Valid() && IsHexSuffix(suffix)
      modifies ClientFrame()
      ensures client.None? ==> r == Err(RuntimeError(NOT_CONNECTED))
      ensures client.Some? ==> (client.value.requestCounter == old(client.value.requestCounter) + 1 &&
        var sent := Outgoing(client.value.requestCounter, suffix, RESOURCES_READ, Some(ReadParams(uri)));
        r == ResourceRead(transport.value.exchange(sent, None)))
    {
      if client.None? {
        return Err(RuntimeError(NOT_CONNECTED));
      }
      var sent;
      sent, r := client.value.ReadResource(uri, None, suffix);
    }

    /** `list_tools` */
    method ListTools(suffix: string) returns (r: Result<seq<Tool>>)
      requires Valid() && IsHexSuffix(suffix)
      modifies ClientFrame()
      ensures client.None? ==> r == Err(RuntimeError(NOT_CONNECTED))
      ensures client.Some? ==> (client.value.requestCounter == old(client.value.requestCounter) + 1 &&
        r == ToolsListed(transport.value.exchange(Outgoing(client.value.requestCounter, suffix, TOOLS_LIST, None), None)))
    {
      if client.None? {
        return Err(RuntimeError(NOT_CONNECTED));
      }
      var sent;
      sent, r := client.value.ListTools(None, suffix);
    }

    /** `call_tool` */
    method CallTool(name: string, arguments: Option<Object>, suffix: string) returns (r: Result<ToolCallResult>)
      requires Valid() && IsHexSuffix(suffix)
      modifies ClientFrame()
      ensures client.None? ==> r == Err(RuntimeError(NOT_CONNECTED))
      ensures client.Some? ==> (client.value.requestCounter == old(client.value.requestCounter) + 1 &&
        var sent := Outgoing(client.value.requestCounter, suffix, TOOLS_CALL, Some(NamedParams(name, arguments)));
        r == ToolCalled(transport.value.exchange(sent, None)))
    {
      if client.None? {
        return Err(RuntimeError(NOT_CONNECTED));
      }
      var sent;
      sent, r := client.value.CallTool(name, arguments, None, suffix);
    }

    /** `list_prompts` */
    method ListPrompts(suffix: string) returns (r: Result<seq<Prompt>>)
      requires Valid() && IsHexSuffix(suffix)
      modifies ClientFrame()
      ensures client.None? ==> r == Err(RuntimeError(NOT_CONNECTED))
      ensures client.Some? ==> (client.value.requestCounter == old(client.value.requestCounter) + 1 &&
        r == PromptsListed(transport.value.exchange(Outgoing(client.value.requestCounter, suffix, PROMPTS_LIST, None), None)))
    {
      if client.None? {
        return Err(RuntimeError(NOT_CONNECTED));
      }
      var sent;
      sent, r := client.value.ListPrompts(None, suffix);
    }

    /** `get_prompt` */
    method GetPrompt(name: string, arguments: Option<Object>, suffix: string) returns (r: Result<PromptResult>)
      requires Valid() && IsHexSuffix(suffix)
      modifies ClientFrame()
      ensures client.None? ==> r == Err(RuntimeError(NOT_CONNECTED))
      ensures client.Some? ==> (client.value.requestCounter == old(client.value.requestCounter) + 1 &&
        var sent := Outgoing(client.value.requestCounter, suffix, PROMPTS_GET, Some(NamedParams(name, arguments)));
        r == PromptGot(transport.value.exchange(sent, None)))
    {
      if client.None? {
        return Err(RuntimeError(NOT_CONNECTED));
      }
      var sent;
      sent, r := client.value.GetPrompt(name, arguments, None, suffix);
    }

    /** `health_check`: never fails. It connects when not connected, and the provider is
        healthy exactly when listing its resources then succeeds. */
    method HealthCheck(created: Result<Transport>, opening: Result<()>, suffix: string) returns (healthy: bool)
      requires Valid() && IsHexSuffix(suffix)
      modifies this, ClientFrame()
      ensures Valid()
      ensures !old(connected) && (created.Err? || opening.Err?) ==> !healthy
      ensures old(connected) ==> transport == old(transport) && client == old(client)
      ensures !old(connected) && created.Ok? ==> transport == Some(created.value) && client.Some? && fresh(client.value)
      ensures old(connected) || (created.Ok? && opening.Ok?) ==>
        connected && client.Some? &&
        healthy == ResourcesListed(transport.value.exchange(Outgoing(client.value.requestCounter, suffix, RESOURCES_LIST, None), None)).Ok?
    {
      if !connected {
        var c := Connect(created, opening);
        if c.Err? {
          return false;
        }
      }
      var listed := ListResources(suffix);
      healthy := listed.Ok?;
    }

    /** `validate_config`: the dumped configuration validates again. */
    method ValidateConfig() returns (ok: bool)
      ensures ok <==> Validate(cls.configSchema, config).Ok?
    {
      ok := Validate(cls.configSchema, config).Ok?;
    }

    /** `__aenter__`: connect and hand back the provider itself. */
    method Enter(created: Result<Transport>, opening: Result<()>) returns (r: Result<MCPProvider>)
      requires Valid()
      modifies this
      ensures Valid()
      ensures r.Ok? <==> created.Ok? && opening.Ok?
      ensures r.Ok? ==> r.value == this && connected && transport == Some(created.value)
      ensures r.Err? && created.Err? ==> r.error == created.error
      ensures r.Err? && created.Ok? ==> r.error == opening.error
    {
      var c := Connect(created, opening);
      r := if c.Ok? then Ok(this) else Err(c.error);
    }

    /** `__aexit__`: disconnect. */
    method Exit(closed: Result<()>) returns (r: Result<()>)
      requires Valid()
      modifies this
      ensures Valid()
      ensures old(client).None? || closed.Ok? ==> r == Ok(()) && !connected && client.None? && transport.None?
      ensures old(client).Some? && closed.Err? ==> r == Err(closed.error) && connected == old(connected)
    {
      r := Disconnect(closed);
    }
  }

  /** `provider_class(config)`: validate `config or {}` against the class's model. A
      provider that is built starts out disconnected, and its configuration re-validates,
      so `validate_config` answers True. */
  method NewProvider(cls: ProviderClass, config: Option<Object>) returns (r: Result<MCPProvider>)
    ensures Validate(cls.configSchema, config.GetOr(map[])).Err? ==>
      r == Err(Validate(cls.configSchema, config.GetOr(map[])).error)
    ensures Validate(cls.configSchema, config.GetOr(map[])).Ok? ==>
      r.Ok? && fresh(r.value) && r.value.cls == cls && r.value.Valid() &&
      r.value.config == Validate(cls.configSchema, config.GetOr(map[])).value &&
      !r.value.connected && r.value.client.None? && r.value.transport.None?
    ensures r.Ok? && WellFormed(cls.configSchema) ==> Validate(cls.configSchema, r.value.config).Ok?
  {
    var validated := Validate(cls.configSchema, config.GetOr(map[]));
    if validated.Err? {
      return Err(validated.error);
    }
    if WellFormed(cls.configSchema) {
      ValidateIdempotent(cls.configSchema, config.GetOr(map[]));
    }
    var p := new MCPProvider(cls, validated.value);
    r := Ok(p);
  }
}
