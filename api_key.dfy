/** API-key authentication and the in-memory token store of mcp/auth/api_key.py. */
module ApiKey {
  import opened Wrappers
  import opened Strings

  /** `APIKeyAuth`: the key and how it is presented. */
  datatype ApiKeyAuth = ApiKeyAuth(apiKey: string, headerName: string, prefix: string)

  /** `APIKeyAuth(api_key, header_name=…, prefix=…)`: an omitted argument takes its default,
      the `Authorization` header with the `Bearer` scheme. */
  function NewApiKeyAuth(apiKey: string, headerName: Option<string>, prefix: Option<string>): (r: ApiKeyAuth)
    ensures r.apiKey == apiKey
    ensures r.headerName == if headerName.Some? then headerName.value else "Authorization"
    ensures r.prefix == if prefix.Some? then prefix.value else "Bearer"
  {
    ApiKeyAuth(apiKey, headerName.GetOr("Authorization"), prefix.GetOr("Bearer"))
  }

  /** `get_headers`: one header, named by `headerName`, whose value is the key, after the
      prefix and a space when there is a prefix. */
  function GetHeaders(auth: ApiKeyAuth): (r: map<string, string>)
    ensures r.Keys == {auth.headerName}
    ensures auth.prefix == "" ==> r[auth.headerName] == auth.apiKey
    ensures auth.prefix != "" ==>
      StartsWith(r[auth.headerName], auth.prefix + " ") && |r[auth.headerName]| == |auth.prefix| + 1 + |auth.apiKey|
  {
    var value := if auth.prefix != "" then auth.prefix + " " + auth.apiKey else auth.apiKey;
    map[auth.headerName := value]
  }

  /** The key can be read back from the header: it is what follows the prefix and its space. */
  lemma HeaderCarriesKey(auth: ApiKeyAuth)
    ensures var value := GetHeaders(auth)[auth.headerName];
      auth.prefix != "" ==> value[|auth.prefix| + 1..] == auth.apiKey
  {
    if auth.prefix != "" {
      var value := auth.prefix + " " + auth.apiKey;
      assert value[|auth.prefix| + 1..] == auth.apiKey;
    }
  }

  /** With the defaults a key goes out as `Authorization: Bearer <key>`. */
  lemma DefaultHeaders(apiKey: string)
    ensures GetHeaders(NewApiKeyAuth(apiKey, None, None)) == map["Authorization" := "Bearer " + apiKey]
  {
    assert "Bearer" + " " + apiKey == "Bearer " + apiKey;
  }

  /** `TokenStore`: token data by provider name. */
  class TokenStore {
    var tokens: map<string, map<string, string>>

    constructor()
      ensures tokens == map[]
    {
      tokens := map[];
    }

    /** `get`: the tokens last stored for the provider, or None. */
    function Get(provider: string): (r: Option<map<string, string>>)
      reads this
      ensures r.Some? <==> provider in tokens
      ensures r.Some? ==> r.value == tokens[provider]
    {
      if provider in tokens then Some(tokens[provider]) else None
    }

    /** `store`: the tokens replace whatever the provider had; no other provider changes. */
    method Store(provider: string, data: map<string, string>)
      modifies this
      ensures tokens == old(tokens)[provider := data]
      ensures Get(provider) == Some(data)
      ensures forall p :: p != provider ==> Get(p) == old(Get(p))
    {
      tokens := tokens[provider := data];
    }

    /** `remove`: the provider's tokens are gone, and nothing happens when it had none; no
        other provider changes. */
    method Remove(provider: string)
      modifies this
      ensures tokens == old(tokens) - {provider}
      ensures Get(provider).None?
      ensures provider !in old(tokens) ==> tokens == old(tokens)
      ensures forall p :: p != provider ==> Get(p) == old(Get(p))
    {
      tokens := tokens - {provider};
    }

    /** `clear`: no provider has tokens. */
    method Clear()
      modifies this
      ensures tokens == map[]
      ensures forall p :: Get(p).None?
    {
      tokens := map[];
    }
  }

  /** The module-level `_global_token_store`, created once when the module is loaded. */
  class TokenStoreModule {
    const globalStore: TokenStore

    constructor()
      ensures fresh(globalStore) && globalStore.tokens == map[]
    {
      globalStore := new TokenStore();
    }

    /** `get_token_store`: always the one global store. */
    method GetTokenStore() returns (s: TokenStore)
      ensures s == globalStore
    {
      s := globalStore;
    }
  }
}
