/** The error payloads of mcp/conflict_resolver.py: built from the tool aggregator's maps,
    returned as JSON objects for the `data` field of a JSON-RPC error. */
module ConflictResolution {
  import opened Wrappers
  import opened Strings
  import opened Dicts
  import opened Protocol
  import opened Aggregator
  import opened Namespacing
  import opened Router


  function Min(a: int, b: int): int {
    if a <= b then a else b
  }

  /** `xs[:n]` with Python's reading of a negative bound (that many from the end). */
  function PyPrefix<T>(xs: seq<T>, n: int): (r: seq<T>)
    ensures n >= 0 ==> r == xs[..Min(n, |xs|)]
    ensures n < 0 ==> r == xs[..if |xs| + n < 0 then 0 else |xs| + n]
  {
    if n >= 0 then xs[..Min(n, |xs|)]
    else if |xs| + n < 0 then []
    else xs[..|xs| + n]
  }

  // ---------------------------------------------------------------------------------------
  // Namespaced variants of a tool name

  /** A provider-map key holds a ':' and its text after the first ':' is `name`. */
  predicate BaseIs(key: string, name: string) {
    Contains(key, ":") && SplitOnce(key, ":").value.1 == name
  }

  /** The keys of `pm` that are namespaced forms of `name`, in map order. */
  function Variants(pm: Dict<string, string>, name: string): (r: seq<string>)
    ensures forall k :: 0 <= k < |r| ==> BaseIs(r[k], name)
    decreases |pm|
  {
    if pm == [] then []
    else
      var last := pm[|pm| - 1];
      Variants(pm[..|pm| - 1], name) + (if BaseIs(last.0, name) then [last.0] else [])
  }

  /** The providers the same keys are assigned to, in map order. */
  function ProvidersOf(pm: Dict<string, string>, name: string): seq<string>
    decreases |pm|
  {
    if pm == [] then []
    else
      var last := pm[|pm| - 1];
      ProvidersOf(pm[..|pm| - 1], name) + (if BaseIs(last.0, name) then [last.1] else [])
  }

  /** `[f"{p}:{tool_name}" for p in providers]` */
  function Forms(providers: seq<string>, name: string): (r: seq<string>)
    ensures |r| == |providers| && forall k :: 0 <= k < |r| ==> r[k] == providers[k] + ":" + name
  {
    seq(|providers|, k requires 0 <= k < |providers| => providers[k] + ":" + name)
  }

  /** A variant is exactly a key of the map whose base name is `name`. */
  lemma {:induction false} VariantsMembership(pm: Dict<string, string>, name: string, v: string)
    ensures v in Variants(pm, name) <==> v in Keys(pm) && BaseIs(v, name)
    decreases |pm|
  {
    if pm != [] {
      var n := |pm| - 1;
      VariantsMembership(pm[..n], name, v);
      assert Keys(pm) == Keys(pm[..n]) + [pm[n].0];
    }
  }

  /** A key with base name `name` is `p:name` for a provider prefix `p` without ':'. */
  lemma BaseIsNamespaced(key: string, name: string)
    requires BaseIs(key, name)
    ensures key == SplitOnce(key, ":").value.0 + ":" + name && ColonFree(SplitOnce(key, ":").value.0)
  {
    ContainsChar(SplitOnce(key, ":").value.0, ':');
  }

  /** A `p:t` key with a colon-free `p` has prefix `p` and base name `t`. */
  lemma SplitNamespaced(p: string, t: string)
    requires ColonFree(p)
    ensures BaseIs(p + ":" + t, t) && SplitOnce(p + ":" + t, ":").value.0 == p
  {
    var key := p + ":" + t;
    ColonAt(p, t);
    ContainsChar(key, ':');
    var (a, b) := SplitOnce(key, ":").value;
    ContainsChar(a, ':');
    SplitAtFirstColon(a, b, p, t);
  }

  /** Each namespaced key is owned by the provider its prefix names. */
  ghost predicate PrefixOwned(pm: Dict<string, string>) {
    forall e :: e in pm && Contains(e.0, ":") ==> e.1 == SplitOnce(e.0, ":").value.0
  }

  /** In a map whose namespaced keys are owned by their prefixes, the summary's namespaced
      forms are exactly the ambiguity error's variants, in the same order. */
  lemma {:induction false} FormsMatchVariants(pm: Dict<string, string>, name: string)
    requires PrefixOwned(pm)
    ensures Forms(ProvidersOf(pm, name), name) == Variants(pm, name)
    decreases |pm|
  {
    if pm != [] {
      var n := |pm| - 1;
      assert forall e :: e in pm[..n] ==> e in pm;
      FormsMatchVariants(pm[..n], name);
      var last := pm[n];
      assert last in pm;
      if BaseIs(last.0, name) {
        ContainsChar(SplitOnce(last.0, ":").value.0, ':');
        var front := ProvidersOf(pm[..n], name);
        assert Forms(front + [last.1], name) == Forms(front, name) + [last.1 + ":" + name];
      } else {
        assert ProvidersOf(pm, name) == ProvidersOf(pm[..n], name);
      }
    }
  }

  // ---------------------------------------------------------------------------------------
  // Similarity scoring

  /** `any(word.lower() in lowered for word in words)` */
  predicate AnyWordIn(words: seq<string>, lowered: string) {
    exists k :: 0 <= k < |words| && Contains(lowered, Lower(words[k]))
  }

  /** The score `_find_similar_tools` gives a cached name: of the three case-insensitive
      tests (substring 10, `_`-separated word 5, same first three characters 3) the last one
      that holds wins, because each assigns over the previous one. */
  function Score(toolName: string, cached: string): int {
    var lowerName, lowerCached := Lower(toolName), Lower(cached);
    if StartsWith(lowerCached, lowerName[..Min(3, |lowerName|)]) then 3
    else if AnyWordIn(SplitOn(toolName, '_'), lowerCached) then 5
    else if Contains(lowerCached, lowerName) then 10
    else 0
  }

  /** A substring match also matches the first word of the name, so the substring score 10
      is always overwritten: the scores that occur are 0, 3 and 5, and a substring match is
      never dropped. */
  lemma ScoreNeverTen(toolName: string, cached: string)
    ensures var s := Score(toolName, cached); s == 0 || s == 3 || s == 5
    ensures Contains(Lower(cached), Lower(toolName)) ==> Score(toolName, cached) > 0
  {
    var words := SplitOn(toolName, '_');
    var lowerCached := Lower(cached);
    if Contains(lowerCached, Lower(toolName)) {
      SplitOnFirstPrefix(toolName, '_');
      LowerPrefix(toolName, words[0]);
      ContainsPrefix(lowerCached, Lower(toolName), Lower(words[0]));
      assert AnyWordIn(words, lowerCached);
    }
  }

  /** The `(score, name)` pairs collected for the cached names with a positive score. */
  function Scored(keys: seq<string>, toolName: string): (r: seq<(int, string)>)
    ensures forall k :: 0 <= k < |r| ==> r[k].1 in keys && r[k].0 == Score(toolName, r[k].1) && r[k].0 > 0
    decreases |keys|
  {
    if keys == [] then []
    else
      var n := |keys| - 1;
      var s := Score(toolName, keys[n]);
      Scored(keys[..n], toolName) + (if s > 0 then [(s, keys[n])] else [])
  }

  /** The pairs with score `s`, in their original order. */
  function Bucket(xs: seq<(int, string)>, s: int): (r: seq<(int, string)>)
    ensures forall k :: 0 <= k < |r| ==> r[k].0 == s
    decreases |xs|
  {
    if xs == [] then []
    else (if xs[0].0 == s then [xs[0]] else []) + Bucket(xs[1..], s)
  }

  /** `similar.sort(reverse=True, key=lambda x: x[0])` for scores drawn from 10, 5 and 3:
      the stable sort puts the three runs of equal score one after another. */
  function SortByScore(xs: seq<(int, string)>): seq<(int, string)> {
    Bucket(xs, 10) + Bucket(xs, 5) + Bucket(xs, 3)
  }

  lemma {:induction false} BucketAppend(a: seq<(int, string)>, b: seq<(int, string)>, s: int)
    ensures Bucket(a + b, s) == Bucket(a, s) + Bucket(b, s)
    decreases |a|
  {
    if a != [] {
      assert (a + b)[1..] == a[1..] + b;
      BucketAppend(a[1..], b, s);
    } else {
      assert a + b == b;
    }
  }

  lemma {:induction false} BucketOfBucket(xs: seq<(int, string)>, s: int, t: int)
    ensures Bucket(Bucket(xs, s), t) == if s == t then Bucket(xs, s) else []
    decreases |xs|
  {
    if xs != [] {
      BucketOfBucket(xs[1..], s, t);
      var head := if xs[0].0 == s then [xs[0]] else [];
      BucketAppend(head, Bucket(xs[1..], s), t);
    }
  }

  predicate ValidScore(s: int) {
    s == 3 || s == 5 || s == 10
  }

  /** A bucket holds every pair of its score as often as the list does, and no other. */
  lemma {:induction false} BucketCount(xs: seq<(int, string)>, s: int, e: (int, string))
    ensures multiset(Bucket(xs, s))[e] == if e.0 == s then multiset(xs)[e] else 0
    decreases |xs|
  {
    if xs != [] {
      BucketCount(xs[1..], s, e);
      assert xs == [xs[0]] + xs[1..];
    }
  }

  lemma SortIsPermutation(xs: seq<(int, string)>)
    requires forall k :: 0 <= k < |xs| ==> ValidScore(xs[k].0)
    ensures multiset(SortByScore(xs)) == multiset(xs)
  {
    var b10, b5, b3 := Bucket(xs, 10), Bucket(xs, 5), Bucket(xs, 3);
    var m := multiset(b10) + multiset(b5) + multiset(b3);
    assert multiset(SortByScore(xs)) == m;
    forall e ensures m[e] == multiset(xs)[e] {
      BucketCount(xs, 10, e);
      BucketCount(xs, 5, e);
      BucketCount(xs, 3, e);
      if e in xs {
        var k :| 0 <= k < |xs| && xs[k] == e;
        assert ValidScore(e.0);
      }
    }
    assert m == multiset(xs);
  }

  lemma SortIsOrdered(xs: seq<(int, string)>)
    ensures forall i, j :: 0 <= i < j < |SortByScore(xs)| ==> SortByScore(xs)[i].0 >= SortByScore(xs)[j].0
  {
    var b10, b5, b3 := Bucket(xs, 10), Bucket(xs, 5), Bucket(xs, 3);
    var r := SortByScore(xs);
    forall i | 0 <= i < |r| ensures r[i].0 == if i < |b10| then 10 else if i < |b10| + |b5| then 5 else 3 {
      if i < |b10| {
        assert r[i] == b10[i];
      } else if i < |b10| + |b5| {
        assert r[i] == b5[i - |b10|];
      } else {
        assert r[i] == b3[i - |b10| - |b5|];
      }
    }
  }

  lemma SortIsStable(xs: seq<(int, string)>, s: int)
    requires forall k :: 0 <= k < |xs| ==> ValidScore(xs[k].0)
    ensures Bucket(SortByScore(xs), s) == Bucket(xs, s)
  {
    var b10, b5, b3 := Bucket(xs, 10), Bucket(xs, 5), Bucket(xs, 3);
    BucketAppend(b10 + b5, b3, s);
    BucketAppend(b10, b5, s);
    BucketOfBucket(xs, 10, s);
    BucketOfBucket(xs, 5, s);
    BucketOfBucket(xs, 3, s);
    if !ValidScore(s) {
      BucketNone(xs, s);
    }
  }

  /** The sort is a permutation, orders by non-increasing score, and is stable: the pairs
      of any one score keep their relative order. */
  lemma SortByScoreIsStableSort(xs: seq<(int, string)>)
    requires forall k :: 0 <= k < |xs| ==> ValidScore(xs[k].0)
    ensures multiset(SortByScore(xs)) == multiset(xs)
    ensures forall i, j :: 0 <= i < j < |SortByScore(xs)| ==> SortByScore(xs)[i].0 >= SortByScore(xs)[j].0
    ensures forall s :: Bucket(SortByScore(xs), s) == Bucket(xs, s)
  {
    SortIsPermutation(xs);
    SortIsOrdered(xs);
    forall s ensures Bucket(SortByScore(xs), s) == Bucket(xs, s) {
      SortIsStable(xs, s);
    }
  }

  lemma {:induction false} BucketNone(xs: seq<(int, string)>, s: int)
    requires forall k :: 0 <= k < |xs| ==> xs[k].0 != s
    ensures Bucket(xs, s) == []
    decreases |xs|
  {
    if xs != [] {
      assert forall k :: 0 <= k < |xs[1..]| ==> xs[1..][k] == xs[k + 1];
      BucketNone(xs[1..], s);
    }
  }

  /** Every collected score is 3 or 5. */
  lemma ScoredScores(keys: seq<string>, toolName: string)
    ensures var xs := Scored(keys, toolName);
      forall k :: 0 <= k < |xs| ==> ValidScore(xs[k].0) && xs[k].0 != 10
  {
    var xs := Scored(keys, toolName);
    forall k | 0 <= k < |xs| ensures ValidScore(xs[k].0) && xs[k].0 != 10 {
      ScoreNeverTen(toolName, xs[k].1);
    }
  }

  function SecondOf(ts: seq<(int, string)>): (r: seq<string>)
    ensures |r| == |ts| && forall k :: 0 <= k < |ts| ==> r[k] == ts[k].1
  {
    seq(|ts|, k requires 0 <= k < |ts| => ts[k].1)
  }

  lemma SortMembers(xs: seq<(int, string)>)
    ensures forall e :: e in SortByScore(xs) ==> e in xs
  {
    var b10, b5, b3 := Bucket(xs, 10), Bucket(xs, 5), Bucket(xs, 3);
    forall e | e in b10 + b5 + b3 ensures e in xs {
      BucketCount(xs, 10, e);
      BucketCount(xs, 5, e);
      BucketCount(xs, 3, e);
    }
  }

  /** `[name for _, name in similar[:max_suggestions]]` after the sort. */
  function SimilarTools(keys: seq<string>, toolName: string, maxSuggestions: int): (r: seq<string>)
    ensures maxSuggestions >= 0 ==> |r| <= maxSuggestions
    ensures forall k :: 0 <= k < |r| ==> r[k] in keys && Score(toolName, r[k]) > 0
  {
    var xs := Scored(keys, toolName);
    var top := PyPrefix(SortByScore(xs), maxSuggestions);
    SortMembers(xs);
    assert forall k :: 0 <= k < |top| ==> top[k] in xs;
    SecondOf(top)
  }

  /** Every cached name matching the requested one as a substring is suggested when the
      cache has no more than `maxSuggestions` candidates. */
  lemma SubstringSuggested(keys: seq<string>, toolName: string, maxSuggestions: int, x: nat)
    requires x < |keys| && Contains(Lower(keys[x]), Lower(toolName))
    requires |keys| <= maxSuggestions
    ensures keys[x] in SimilarTools(keys, toolName, maxSuggestions)
  {
    var sorted := SortByScore(Scored(keys, toolName));
    var e := (Score(toolName, keys[x]), keys[x]);
    SortedHolds(keys, toolName, x);
    assert PyPrefix(sorted, maxSuggestions) == sorted;
    var k :| 0 <= k < |sorted| && sorted[k] == e;
    assert SimilarTools(keys, toolName, maxSuggestions)[k] == keys[x];
  }

  /** The sorted candidates hold every name with a substring match, and no more entries
      than there are cached names. */
  lemma SortedHolds(keys: seq<string>, toolName: string, x: nat)
    requires x < |keys| && Contains(Lower(keys[x]), Lower(toolName))
    ensures var sorted := SortByScore(Scored(keys, toolName));
      (Score(toolName, keys[x]), keys[x]) in sorted && |sorted| <= |keys|
  {
    var xs := Scored(keys, toolName);
    var sorted := SortByScore(xs);
    var e := (Score(toolName, keys[x]), keys[x]);
    ScoreNeverTen(toolName, keys[x]);
    ScoredComplete(keys, toolName, x);
    ScoredScores(keys, toolName);
    SortIsPermutation(xs);
    assert e in multiset(xs);
    assert |sorted| == |xs| by {
      assert |multiset(sorted)| == |multiset(xs)|;
    }
    ScoredLength(keys, toolName);
  }

  lemma {:induction false} ScoredComplete(keys: seq<string>, toolName: string, x: nat)
    requires x < |keys| && Score(toolName, keys[x]) > 0
    ensures (Score(toolName, keys[x]), keys[x]) in Scored(keys, toolName)
    decreases |keys|
  {
    var n := |keys| - 1;
    if x < n {
      assert keys[..n][x] == keys[x];
      ScoredComplete(keys[..n], toolName, x);
    }
  }

  lemma {:induction false} ScoredLength(keys: seq<string>, toolName: string)
    ensures |Scored(keys, toolName)| <= |keys|
    decreases |keys|
  {
    if keys != [] {
      ScoredLength(keys[..|keys| - 1], toolName);
    }
  }

  // ---------------------------------------------------------------------------------------

  /** `for cached_tool_name, provider_name in _provider_map.items()` collecting the owners of
      the namespaced forms of `name`. */
  method CollectProviders(pm: Dict<string, string>, name: string) returns (providers: seq<string>)
    ensures providers == ProvidersOf(pm, name)
  {
    providers := [];
    var i := 0;
    while i < |pm|
      invariant 0 <= i <= |pm|
      invariant providers == ProvidersOf(pm[..i], name)
    {
      var (key, owner) := pm[i];
      assert pm[..i + 1][..i] == pm[..i];
      if ':' in key {
        ContainsChar(key, ':');
        var (_, baseName) := SplitOnce(key, ":").value;
        if baseName == name {
          providers := providers + [owner];
        }
      } else {
        ContainsChar(key, ':');
      }
      i := i + 1;
    }
    assert pm[..i] == pm;
  }

  /** The loop of `get_ambiguity_error` over `_provider_map.items()`. */
  method CollectVariants(pm: Dict<string, string>, name: string) returns (variants: seq<string>)
    ensures variants == Variants(pm, name)
  {
    variants := [];
    var i := 0;
    while i < |pm|
      invariant 0 <= i <= |pm|
      invariant variants == Variants(pm[..i], name)
    {
      var key := pm[i].0;
      assert pm[..i + 1][..i] == pm[..i];
      if ':' in key {
        ContainsChar(key, ':');
        var (_, baseName) := SplitOnce(key, ":").value;
        if baseName == name {
          variants := variants + [key];
        }
      } else {
        ContainsChar(key, ':');
      }
      i := i + 1;
    }
    assert pm[..i] == pm;
  }

  /** The scoring loop of `_find_similar_tools` over `_tool_cache.keys()`. */
  method ScoreAll(keys: seq<string>, toolName: string) returns (similar: seq<(int, string)>)
    ensures similar == Scored(keys, toolName)
  {
    similar := [];
    var i := 0;
    while i < |keys|
      invariant 0 <= i <= |keys|
      invariant similar == Scored(keys[..i], toolName)
    {
      var cached := keys[i];
      var score := ScoreOne(toolName, cached);
      assert keys[..i + 1][..i] == keys[..i];
      if score > 0 {
        similar := similar + [(score, cached)];
      }
      i := i + 1;
    }
    assert keys[..i] == keys;
  }

  /** The three tests, each overwriting the score of the previous one. */
  method ScoreOne(toolName: string, cached: string) returns (score: int)
    ensures score == Score(toolName, cached)
  {
    var lowerName, lowerCached := Lower(toolName), Lower(cached);
    score := 0;
    if Contains(lowerCached, lowerName) {
      score := 10;
    }
    if AnyWordIn(SplitOn(toolName, '_'), lowerCached) {
      score := 5;
    }
    if StartsWith(lowerCached, lowerName[..Min(3, |lowerName|)]) {
      score := 3;
    }
  }

  /** The entry `get_conflict_summary` records for one conflicting name. */
  function ConflictDetail(pm: Dict<string, string>, name: string): Json {
    var providers := ProvidersOf(pm, name);
    JObj(map["providers" := StrList(providers), "namespaced_forms" := StrList(Forms(providers, name))])
  }

  /** The loop of `get_conflict_summary` over the conflicting names. */
  method CollectDetails(pm: Dict<string, string>, conflicts: set<string>) returns (details: map<string, Json>)
    ensures details.Keys == conflicts
    ensures forall n :: n in details ==> details[n] == ConflictDetail(pm, n)
  {
    details := map[];
    var remaining := conflicts;
    while remaining != {}
      invariant remaining <= conflicts
      invariant forall n :: n in details <==> n in conflicts && n !in remaining
      invariant forall n :: n in details ==> details[n] == ConflictDetail(pm, n)
      decreases |remaining|
    {
      var name :| name in remaining;
      var providers := CollectProviders(pm, name);
      details := details[name := JObj(map["providers" := StrList(providers),
                                          "namespaced_forms" := StrList(Forms(providers, name))])];
      remaining := remaining - {name};
    }
  }

  const AMBIGUITY_KEYS: set<string> :=
    {"error_type", "tool_name", "message", "available_tools", "suggestion", "example"}

  class ConflictResolver {
    const aggregator: ToolAggregator

    constructor(aggregator: ToolAggregator)
      ensures this.aggregator == aggregator
    {
      this.aggregator := aggregator;
    }

    /** `get_ambiguity_error`: the namespaced forms of the name in provider-map order, with
        the first one as the example when there is one. */
    method GetAmbiguityError(toolName: string) returns (r: Object)
      ensures r.Keys == AMBIGUITY_KEYS
      ensures r["error_type"] == JStr("ambiguous_tool") && r["tool_name"] == JStr(toolName)
      ensures r["message"] == JStr("Tool '" + toolName + "' exists in multiple providers")
      ensures var variants := Variants(aggregator.providerMap, toolName);
        && r["available_tools"] == StrList(variants)
        && r["suggestion"] == JStr("Please specify provider using one of: " + Join(", ", variants))
        && r["example"] == if variants == [] then JNull
                           else JStr("Use '" + variants[0] + "' instead of '" + toolName + "'")
    {
      var variants := CollectVariants(aggregator.providerMap, toolName);
      var example := if |variants| > 0 then JStr("Use '" + variants[0] + "' instead of '" + toolName + "'")
                     else JNull;
      r := map[
        "error_type" := JStr("ambiguous_tool"),
        "tool_name" := JStr(toolName),
        "message" := JStr("Tool '" + toolName + "' exists in multiple providers"),
        "available_tools" := StrList(variants),
        "suggestion" := JStr("Please specify provider using one of: " + Join(", ", variants)),
        "example" := example
      ];
    }

    /** `_find_similar_tools`: score every cached name, keep the positive ones, sort by
        score (stable, descending) and keep the first `maxSuggestions` names. */
    method FindSimilarTools(toolName: string, maxSuggestions: int) returns (r: seq<string>)
      ensures r == SimilarTools(Keys(aggregator.toolCache), toolName, maxSuggestions)
    {
      var similar := ScoreAll(Keys(aggregator.toolCache), toolName);
      var top := PyPrefix(SortByScore(similar), maxSuggestions);
      r := SecondOf(top);
    }

    /** `get_not_found_error`: up to five similar names, of which the suggestion names the
        first three; without any, the hint to list the tools. */
    method GetNotFoundError(toolName: string) returns (r: Object)
      ensures r.Keys == {"error_type", "tool_name", "message", "similar_tools", "suggestion"}
      ensures r["error_type"] == JStr("tool_not_found") && r["tool_name"] == JStr(toolName)
      ensures r["message"] == JStr("Tool '" + toolName + "' not found")
      ensures var similar := SimilarTools(Keys(aggregator.toolCache), toolName, 5);
        && r["similar_tools"] == StrList(similar)
        && r["suggestion"] == JStr(if similar == [] then "Use 'tools/list' to see available tools"
                                   else "Did you mean: " + Join(", ", similar[..Min(3, |similar|)]))
    {
      var similar := FindSimilarTools(toolName, 5);
      var suggestion := if |similar| > 0 then "Did you mean: " + Join(", ", PyPrefix(similar, 3))
                        else "Use 'tools/list' to see available tools";
      r := map[
        "error_type" := JStr("tool_not_found"),
        "tool_name" := JStr(toolName),
        "message" := JStr("Tool '" + toolName + "' not found"),
        "similar_tools" := StrList(similar),
        "suggestion" := JStr(suggestion)
      ];
    }

    /** `get_provider_unavailable_error` */
    function GetProviderUnavailableError(providerName: string): (r: Object)
      ensures r.Keys == {"error_type", "provider_name", "message", "suggestion"}
      ensures r["error_type"] == JStr("provider_unavailable") && r["provider_name"] == JStr(providerName)
      ensures r["message"] == JStr("Provider '" + providerName + "' is not available")
    {
      map[
        "error_type" := JStr("provider_unavailable"),
        "provider_name" := JStr(providerName),
        "message" := JStr("Provider '" + providerName + "' is not available"),
        "suggestion" := JStr("Check if the provider is enabled in config.yaml and connected")
      ]
    }

    /** `get_conflict_summary`: one entry per conflicting name (a set, so in no particular
        order) listing the owners of its namespaced forms and those forms. */
    method GetConflictSummary() returns (r: Object)
      ensures r.Keys == {"total_conflicts", "conflicts", "recommendation"}
      ensures r["total_conflicts"] == JInt(|aggregator.conflicts|)
      ensures r["conflicts"].JObj? && r["conflicts"].fields.Keys == aggregator.conflicts
      ensures forall n :: n in r["conflicts"].fields ==>
        r["conflicts"].fields[n] == ConflictDetail(aggregator.providerMap, n)
      ensures r["recommendation"] == JStr("Use namespaced forms (provider:tool_name) for conflicting tools")
    {
      var conflicts := aggregator.GetConflictingTools();
      var details := CollectDetails(aggregator.providerMap, conflicts);
      r := map[
        "total_conflicts" := JInt(|conflicts|),
        "conflicts" := JObj(details),
        "recommendation" := JStr("Use namespaced forms (provider:tool_name) for conflicting tools")
      ];
    }
  }

  // ---------------------------------------------------------------------------------------
  // After one aggregation

  /** The provider map of one aggregation owns each namespaced key by its prefix. */
  lemma FreshMapPrefixOwned(ps: seq<ProviderInfo>, listings: seq<Result<seq<Tool>>>)
    requires WellNamed(ps, listings)
    ensures var pt := ProviderTools(ps, listings);
      PrefixOwned(PutAll([], OwnerEntries(Aggregated(ps, pt, ConflictSet(pt)))))
  {
    var pt := ProviderTools(ps, listings);
    var C := ConflictSet(pt);
    var A := Aggregated(ps, pt, C);
    var kvs := OwnerEntries(A);
    forall e | e in PutAll([], kvs) && Contains(e.0, ":") ensures e.1 == SplitOnce(e.0, ":").value.0 {
      PutAllEntries([], kvs, e);
      var x :| 0 <= x < |kvs| && kvs[x] == e;
      OwnedEntry(ps, listings, x);
    }
  }

  lemma OwnedEntry(ps: seq<ProviderInfo>, listings: seq<Result<seq<Tool>>>, x: nat)
    requires WellNamed(ps, listings)
    requires x < |Aggregated(ps, ProviderTools(ps, listings), ConflictSet(ProviderTools(ps, listings)))|
    ensures var pt := ProviderTools(ps, listings);
      var e := OwnerEntries(Aggregated(ps, pt, ConflictSet(pt)))[x];
      Contains(e.0, ":") ==> e.1 == SplitOnce(e.0, ":").value.0
  {
    var pt := ProviderTools(ps, listings);
    var C := ConflictSet(pt);
    var i, k := ExposedOrigin(ps, listings, x);
    var raw := Listed(listings[i])[k].name;
    var name := Exposed(ps[i].name, raw, C);
    if raw in C {
      SplitNamespaced(ps[i].name, raw);
    } else {
      ContainsChar(raw, ':');
    }
  }

  /** Each provider that lists a conflicting name contributes its namespaced form to the
      ambiguity error, so a real conflict always comes with an example. */
  lemma AmbiguityListsEveryProvider(agg: ToolAggregator, ps: seq<ProviderInfo>,
                                    listings: seq<Result<seq<Tool>>>, i: nat, k: nat)
    requires WellNamed(ps, listings) && FreshlyAggregated(agg, ps, listings)
    requires i < |ps| && k < |Listed(listings[i])|
    requires Listed(listings[i])[k].name in ConflictSet(ProviderTools(ps, listings))
    ensures var n := Listed(listings[i])[k].name;
      ps[i].name + ":" + n in Variants(agg.providerMap, n) && Variants(agg.providerMap, n) != []
  {
    var pt := ProviderTools(ps, listings);
    var C := ConflictSet(pt);
    var A := Aggregated(ps, pt, C);
    var n := Listed(listings[i])[k].name;
    DistinctProviderTools(ps, listings);
    var x := AggregatedPosition(ps, pt, C, i, k);
    ExposedNamesUnique(ps, listings);
    LookupAfterAggregation(A, x);
    assert A[x].name == ps[i].name + ":" + n;
    SplitNamespaced(ps[i].name, n);
    VariantsMembership(agg.providerMap, n, ps[i].name + ":" + n);
  }

  /** After one aggregation, the conflict summary's namespaced forms for a name are the
      ambiguity error's variants for it. */
  lemma SummaryAgreesWithAmbiguity(agg: ToolAggregator, ps: seq<ProviderInfo>,
                                   listings: seq<Result<seq<Tool>>>, n: string)
    requires WellNamed(ps, listings) && FreshlyAggregated(agg, ps, listings)
    ensures Forms(ProvidersOf(agg.providerMap, n), n) == Variants(agg.providerMap, n)
  {
    FreshMapPrefixOwned(ps, listings);
    FormsMatchVariants(agg.providerMap, n);
  }
}
