/** The configuration of mcp/config.py: the enabled-provider list and per-provider settings
    that `enable_provider`/`disable_provider` edit in place, the environment overlay of
    `get_provider_config`, and the mapping between the YAML document and the `Config` record
    done by `load` and `save`. The YAML text and the process environment are inputs: the
    decoded document is a JSON value and the environment a sequence of (name, value) pairs. */
module Configuration {
  import opened Wrappers
  import opened Strings
  import opened Protocol

  /** `GlobalConfig` */
  datatype GlobalConfig = GlobalConfig(loggingLevel: string, loggingFormat: string,
                                       connectionTimeout: int, requestTimeout: int)

  const DEFAULT_GLOBAL := GlobalConfig("INFO", "json", 30, 60)

  /** The fields of a `Config`, as a value. */
  datatype ConfigData = ConfigData(enabled: seq<string>, settings: map<string, Object>, global: GlobalConfig)

  /** `Config()` */
  const DEFAULT_CONFIG := ConfigData([], map[], DEFAULT_GLOBAL)

  /** What reading config.yaml gives: no file, a YAML error, or the decoded document. */
  datatype ConfigFile = Missing | Unparsable(reason: string) | Parsed(document: Json)

  const LOAD_FAILED := "Failed to load configuration: "
  const PARSE_FAILED := "Failed to parse config.yaml: "

  /** The top-level keys `save` writes itself. */
  const RESERVED: set<string> := {"enabled_providers", "logging", "timeouts"}

  // ---------------------------------------------------------------- environment overlay

  /** `f"{provider_name.upper()}_"` */
  function EnvPrefix(name: string): (r: string)
    ensures |r| == |name| + 1 && r[|name|] == '_'
  {
    Upper(name) + "_"
  }

  /** The environment variable `e` sets the configuration key `key`. */
  predicate SetsKey(e: (string, string), prefix: string, key: string) {
    StartsWith(e.0, prefix) && Lower(e.0[|prefix|..]) == key
  }

  /** The configuration after the loop over the environment `env`, taken in order. */
  function Overlay(c: Object, env: seq<(string, string)>, prefix: string): Object
    decreases |env|
  {
    if env == [] then c
    else
      var o, e := Overlay(c, env[..|env| - 1], prefix), env[|env| - 1];
      if StartsWith(e.0, prefix) then o[Lower(e.0[|prefix|..]) := JStr(e.1)] else o
  }

  /** A key no variable sets keeps its stored value, or stays absent. */
  lemma {:induction false} OverlayKeeps(c: Object, env: seq<(string, string)>, prefix: string, key: string)
    requires forall i :: 0 <= i < |env| ==> !SetsKey(env[i], prefix, key)
    ensures key in Overlay(c, env, prefix) <==> key in c
    ensures key in c ==> Overlay(c, env, prefix)[key] == c[key]
    decreases |env|
  {
    if env != [] {
      OverlayKeeps(c, env[..|env| - 1], prefix, key);
      assert !SetsKey(env[|env| - 1], prefix, key);
    }
  }

  /** A key takes the value of the last variable that sets it. */
  lemma {:induction false} OverlayLast(c: Object, env: seq<(string, string)>, prefix: string, key: string, i: nat)
    requires i < |env| && SetsKey(env[i], prefix, key)
    requires forall j :: i < j < |env| ==> !SetsKey(env[j], prefix, key)
    ensures key in Overlay(c, env, prefix) && Overlay(c, env, prefix)[key] == JStr(env[i].1)
    decreases |env|
  {
    if i < |env| - 1 {
      OverlayLast(c, env[..|env| - 1], prefix, key, i);
      assert !SetsKey(env[|env| - 1], prefix, key);
    }
  }

  // ---------------------------------------------------------------- load and save

  /** Python truthiness of a decoded YAML value. */
  predicate Truthy(j: Json) {
    match j
    case JNull => false
    case JBool(b) => b
    case JInt(i) => i != 0
    case JStr(s) => s != ""
    case JArr(items) => items != []
    case JObj(fields) => fields != map[]
  }

  function Lookup(o: Object, key: string, default: Json): Json {
    if key in o then o[key] else default
  }

  /** The section `key` as a dict, `{}` when absent; any other value is an error when
      `.get` is applied to it. */
  function Section(data: Object, key: string): Result<Object> {
    if key !in data then Ok(map[])
    else if data[key].JObj? then Ok(data[key].fields)
    else Err(ConfigurationError(LOAD_FAILED))
  }

  function StrField(o: Object, key: string, default: string): Result<string> {
    var v := Lookup(o, key, JStr(default));
    if v.JStr? then Ok(v.s) else Err(ConfigurationError(LOAD_FAILED))
  }

  function IntField(o: Object, key: string, default: int): Result<int> {
    var v := Lookup(o, key, JInt(default));
    if v.JInt? then Ok(v.i) else Err(ConfigurationError(LOAD_FAILED))
  }

  /** `GlobalConfig(**global_settings)` from the `logging` and `timeouts` sections. */
  function LoadGlobal(data: Object): (r: Result<GlobalConfig>)
    ensures "logging" !in data && "timeouts" !in data ==> r == Ok(DEFAULT_GLOBAL)
  {
    var logging :- Section(data, "logging");
    var timeouts :- Section(data, "timeouts");
    var level :- StrField(logging, "level", "INFO");
    var format :- StrField(logging, "format", "json");
    var connection :- IntField(timeouts, "connection", 30);
    var request :- IntField(timeouts, "request", 60);
    Ok(GlobalConfig(level, format, connection, request))
  }

  /** A YAML list of strings. */
  function Names(items: seq<Json>): (r: Option<seq<string>>)
    ensures r.Some? ==> |r.value| == |items| && forall k :: 0 <= k < |items| ==> items[k] == JStr(r.value[k])
    decreases |items|
  {
    if items == [] then Some([])
    else if !items[0].JStr? then None
    else
      var rest := Names(items[1..]);
      if rest.None? then None else Some([items[0].s] + rest.value)
  }

  /** The body of `load` once the file is decoded (`yaml_data = ... or {}`). */
  function LoadDocument(document: Json): (r: Result<ConfigData>)
    ensures r.Ok? ==> (document.JObj? || !Truthy(document))
  {
    if !Truthy(document) then LoadData(map[])
    else if !document.JObj? then Err(ConfigurationError(LOAD_FAILED))
    else LoadData(document.fields)
  }

  /** Global settings from their sections; the enabled list; and the sections of those
      enabled providers that have one, each of which must be a dict. */
  function LoadData(data: Object): (r: Result<ConfigData>)
    ensures r.Ok? ==> r.value.settings.Keys == set n | n in r.value.enabled && n in data
    ensures r.Ok? ==> forall n :: n in r.value.settings ==> data[n] == JObj(r.value.settings[n])
    ensures r.Ok? ==> LoadGlobal(data) == Ok(r.value.global)
  {
    var global :- LoadGlobal(data);
    var listed := Lookup(data, "enabled_providers", JArr([]));
    if !listed.JArr? || Names(listed.items).None? then Err(ConfigurationError(LOAD_FAILED))
    else
      var enabled := Names(listed.items).value;
      if exists n :: n in enabled && n in data && !data[n].JObj? then Err(ConfigurationError(LOAD_FAILED))
      else Ok(ConfigData(enabled, map n | n in enabled && n in data :: data[n].fields, global))
  }

  /** `Config.load` */
  function Load(file: ConfigFile): (r: Result<ConfigData>)
    ensures file.Missing? ==> r == Ok(DEFAULT_CONFIG)
    ensures file.Unparsable? ==> r == Err(ConfigurationError(PARSE_FAILED + file.reason))
  {
    match file
    case Missing => Ok(DEFAULT_CONFIG)
    case Unparsable(reason) => Err(ConfigurationError(PARSE_FAILED + reason))
    case Parsed(document) => LoadDocument(document)
  }


  /** The document `save` writes: its three sections, then every provider's settings as a
      top-level section of its own, which wins over a section of the same name. */
  function Save(c: ConfigData): (r: Object)
    ensures r.Keys == RESERVED + c.settings.Keys
    ensures forall n :: n in c.settings ==> r[n] == JObj(c.settings[n])
    ensures forall n :: n in RESERVED && n !in c.settings ==> r[n].JObj? || r[n].JArr?
  {
    map n | n in RESERVED + c.settings.Keys ::
      if n in c.settings then JObj(c.settings[n]) else SavedSection(c, n)
  }

  /** The sections `save` writes for the enabled list and the global settings. */
  function SavedSection(c: ConfigData, n: string): Json {
    if n == "enabled_providers" then StrList(c.enabled)
    else if n == "logging" then
      JObj(map["level" := JStr(c.global.loggingLevel), "format" := JStr(c.global.loggingFormat)])
    else JObj(map["connection" := JInt(c.global.connectionTimeout), "request" := JInt(c.global.requestTimeout)])
  }

  /** The settings of the enabled providers. */
  function EnabledSettings(c: ConfigData): map<string, Object> {
    map n | n in c.settings && n in c.enabled :: c.settings[n]
  }

  lemma NamesOfStrList(xs: seq<string>)
    ensures Names(StrList(xs).items) == Some(xs)
    decreases |xs|
  {
    if xs != [] {
      var items := StrList(xs).items;
      assert items[0] == JStr(xs[0]);
      assert items[1..] == StrList(xs[1..]).items;
      NamesOfStrList(xs[1..]);
      assert xs == [xs[0]] + xs[1..];
    }
  }

  /** The saved sections hold the global settings when no provider takes their names. */
  lemma SavedGlobal(c: ConfigData)
    requires "logging" !in c.settings && "timeouts" !in c.settings
    ensures LoadGlobal(Save(c)) == Ok(c.global)
  {
    var data := Save(c);
    assert data["logging"] == JObj(map["level" := JStr(c.global.loggingLevel), "format" := JStr(c.global.loggingFormat)]);
    assert data["timeouts"] == JObj(map["connection" := JInt(c.global.connectionTimeout), "request" := JInt(c.global.requestTimeout)]);
  }

  /** An enabled name has a saved section exactly when it has settings, and that section
      holds them. */
  lemma SavedSettings(c: ConfigData, n: string)
    requires forall k :: 0 <= k < |c.enabled| ==> c.enabled[k] !in RESERVED
    requires n in c.enabled
    ensures n in Save(c) <==> n in c.settings
    ensures n in Save(c) ==> Save(c)[n] == JObj(c.settings[n])
  {
    assert n !in RESERVED;
  }

  /** `LoadData` on a document whose parts are all well-typed. */
  lemma LoadDataOk(data: Object, enabled: seq<string>, global: GlobalConfig)
    requires LoadGlobal(data) == Ok(global)
    requires Lookup(data, "enabled_providers", JArr([])) == StrList(enabled)
    requires forall n :: n in enabled && n in data ==> data[n].JObj?
    ensures LoadData(data) == Ok(ConfigData(enabled, map n | n in enabled && n in data :: data[n].fields, global))
  {
    NamesOfStrList(enabled);
  }

  /** `save` then `load` gives back the enabled list, the global settings and the settings
      of every enabled provider, provided no provider uses a reserved section name. */
  lemma SaveLoad(c: ConfigData)
    requires forall n :: n in c.settings ==> n !in RESERVED
    requires forall k :: 0 <= k < |c.enabled| ==> c.enabled[k] !in RESERVED
    ensures Load(Parsed(JObj(Save(c)))) == Ok(ConfigData(c.enabled, EnabledSettings(c), c.global))
  {
    var data := Save(c);
    assert "logging" in data;
    LoadObject(data);
    SavedGlobal(c);
    SavedEnabled(c);
    forall n | n in c.enabled
      ensures (n in data <==> n in c.settings) && (n in data ==> data[n] == JObj(c.settings[n]))
    {
      SavedSettings(c, n);
    }
    LoadDataOk(data, c.enabled, c.global);
    var loaded := map n | n in c.enabled && n in data :: data[n].fields;
    assert loaded.Keys == EnabledSettings(c).Keys;
    assert loaded == EnabledSettings(c);
  }

  /** A non-empty document is loaded as it stands. */
  lemma LoadObject(data: Object)
    requires data != map[]
    ensures Load(Parsed(JObj(data))) == LoadData(data)
  {
    assert Truthy(JObj(data));
  }

  lemma SavedEnabled(c: ConfigData)
    requires "enabled_providers" !in c.settings
    ensures Lookup(Save(c), "enabled_providers", JArr([])) == StrList(c.enabled)
  {
  }

  /** A provider named like a reserved section replaces that section on save, so `load`
      then reads the logging level from the provider's settings. */
  lemma ReservedNameClobbers()
    ensures var c := ConfigData(["logging"], map["logging" := map["level" := JStr("DEBUG")]], DEFAULT_GLOBAL);
      Load(Parsed(JObj(Save(c)))).Ok? &&
      Load(Parsed(JObj(Save(c)))).value.global.loggingLevel == "DEBUG"
  {
    var c := ConfigData(["logging"], map["logging" := map["level" := JStr("DEBUG")]], DEFAULT_GLOBAL);
    var data := Save(c);
    assert data["logging"] == JObj(map["level" := JStr("DEBUG")]);
    assert Truthy(JObj(data)) by { assert "logging" in data; }
    NamesOfStrList(c.enabled);
    assert LoadGlobal(data) == Ok(GlobalConfig("DEBUG", "json", 30, 60));
  }

  // ---------------------------------------------------------------- the Config object

  /** Removing the first occurrence (`list.remove`). */
  function RemoveFirst(s: seq<string>, x: string): (r: seq<string>)
    ensures x in s ==> |r| == |s| - 1
    ensures x !in s ==> r == s
    decreases |s|
  {
    if s == [] then []
    else if s[0] == x then s[1..]
    else [s[0]] + RemoveFirst(s[1..], x)
  }

  ghost predicate NoDuplicates(s: seq<string>) {
    forall i, j :: 0 <= i < j < |s| ==> s[i] != s[j]
  }

  /** With no duplicates, removing a name disables exactly that name. */
  lemma {:induction false} RemoveFirstMembers(s: seq<string>, x: string, y: string)
    requires NoDuplicates(s)
    ensures y in RemoveFirst(s, x) <==> y in s && y != x
    ensures NoDuplicates(RemoveFirst(s, x))
    decreases |s|
  {
    if s != [] {
      assert NoDuplicates(s[1..]) by {
        forall i, j | 0 <= i < j < |s[1..]| ensures s[1..][i] != s[1..][j] {
          assert s[1..][i] == s[i + 1] && s[1..][j] == s[j + 1];
        }
      }
      assert s[0] !in s[1..];
      if s[0] != x {
        RemoveFirstMembers(s[1..], x, y);
        var r := RemoveFirst(s, x);
        assert r == [s[0]] + RemoveFirst(s[1..], x);
        assert s[0] !in RemoveFirst(s[1..], x) by {
          RemoveFirstMembers(s[1..], x, s[0]);
        }
      }
    }
  }

  /** A name listed twice stays enabled after one `disable_provider`. */
  lemma DisableLeavesDuplicate()
    ensures "a" in RemoveFirst(["a", "a"], "a")
  {
  }

  class Config {
    var enabledProviders: seq<string>
    var providerSettings: map<string, Object>
    var globalSettings: GlobalConfig

    function Data(): ConfigData
      reads this
    {
      ConfigData(enabledProviders, providerSettings, globalSettings)
    }

    constructor(d: ConfigData)
      ensures Data() == d
    {
      enabledProviders := d.enabled;
      providerSettings := d.settings;
      globalSettings := d.global;
    }

    /** `is_provider_enabled` */
    function IsProviderEnabled(name: string): (r: bool)
      reads this
      ensures r <==> exists k :: 0 <= k < |enabledProviders| && enabledProviders[k] == name
    {
      name in enabledProviders
    }

    /** `enable_provider`: append the name unless it is listed already; store the settings
        only when they are given and not empty. */
    method EnableProvider(name: string, settings: Option<Object>)
      modifies this
      ensures enabledProviders == if name in old(enabledProviders) then old(enabledProviders) else old(enabledProviders) + [name]
      ensures providerSettings == if settings.Some? && settings.value != map[] then old(providerSettings)[name := settings.value] else old(providerSettings)
      ensures globalSettings == old(globalSettings)
      ensures IsProviderEnabled(name)
      ensures NoDuplicates(old(enabledProviders)) ==> NoDuplicates(enabledProviders)
    {
      if name !in enabledProviders {
        enabledProviders := enabledProviders + [name];
      }
      if settings.Some? && settings.value != map[] {
        providerSettings := providerSettings[name := settings.value];
      }
    }

    /** `disable_provider`: remove the first occurrence of the name, if any; settings stay. */
    method DisableProvider(name: string)
      modifies this
      ensures enabledProviders == RemoveFirst(old(enabledProviders), name)
      ensures providerSettings == old(providerSettings) && globalSettings == old(globalSettings)
      ensures NoDuplicates(old(enabledProviders)) ==> !IsProviderEnabled(name)
      ensures NoDuplicates(old(enabledProviders)) ==>
        forall n :: n != name ==> (IsProviderEnabled(n) <==> n in old(enabledProviders))
    {
      if NoDuplicates(enabledProviders) {
        RemoveFirstMembers(enabledProviders, name, name);
        forall n | n != name ensures n in RemoveFirst(enabledProviders, name) <==> n in enabledProviders {
          RemoveFirstMembers(enabledProviders, name, n);
        }
      }
      enabledProviders := RemoveFirst(enabledProviders, name);
    }

    /** `get_provider_config`: the stored settings (or a new `{}`), overlaid with every
        environment variable named `NAME_...`, under the rest of its name in lower case.
        The stored dict is the one updated, so the overlay is kept. */
    method GetProviderConfig(name: string, env: seq<(string, string)>) returns (config: Object)
      modifies this
      ensures config == Overlay(if name in old(providerSettings) then old(providerSettings)[name] else map[], env, EnvPrefix(name))
      ensures providerSettings == if name in old(providerSettings) then old(providerSettings)[name := config] else old(providerSettings)
      ensures enabledProviders == old(enabledProviders) && globalSettings == old(globalSettings)
    {
      config := if name in providerSettings then providerSettings[name] else map[];
      ghost var start := config;
      var prefix := EnvPrefix(name);
      var i := 0;
      while i < |env|
        invariant 0 <= i <= |env|
        invariant config == Overlay(start, env[..i], prefix)
      {
        var (key, value) := env[i];
        assert env[..i + 1][..i] == env[..i];
        if StartsWith(key, prefix) {
          config := config[Lower(key[|prefix|..]) := JStr(value)];
        }
        i := i + 1;
      }
      assert env[..i] == env;
      if name in providerSettings {
        providerSettings := providerSettings[name := config];
      }
    }

    /** `save`: the document written to config.yaml. */
    function SaveDocument(): (r: Object)
      reads this
      ensures r == Save(Data())
    {
      Save(Data())
    }
  }

  /** `Config.load`, building the object. */
  method LoadConfig(file: ConfigFile) returns (r: Result<Config>)
    ensures r.Err? <==> Load(file).Err?
    ensures r.Err? ==> r.error == Load(file).error
    ensures r.Ok? ==> fresh(r.value) && r.value.Data() == Load(file).value
  {
    var d := Load(file);
    if d.Err? {
      return Err(d.error);
    }
    var c := new Config(d.value);
    r := Ok(c);
  }

  /** A missing file, or the empty document, loads as the defaults of `Config()`. */
  lemma MissingOrEmptyIsDefault()
    ensures Load(Missing) == Ok(DEFAULT_CONFIG)
    ensures Load(Parsed(JNull)) == Ok(DEFAULT_CONFIG)
    ensures DEFAULT_GLOBAL == GlobalConfig("INFO", "json", 30, 60)
  {
    assert Lookup(map[], "enabled_providers", JArr([])) == JArr([]);
  }
}
