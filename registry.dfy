/** The provider registry of mcp/registry.py: provider classes by name, in registration
    order, and the instances created from them. */
module Registry {
  import opened Wrappers
  import opened Dicts
  import opened Categories
  import opened Protocol
  import opened Provider

  /** `[p for p in classes if p.category == category]` */
  function OfCategory(cs: seq<ProviderClass>, c: ProviderCategory): (r: seq<ProviderClass>)
    ensures |r| <= |cs|
    ensures forall k :: 0 <= k < |r| ==> r[k].category == c
    decreases |cs|
  {
    if cs == [] then []
    else
      var last := cs[|cs| - 1];
      OfCategory(cs[..|cs| - 1], c) + (if last.category == c then [last] else [])
  }

  /** The filter keeps every class of the category as often as it occurs, and no other. */
  lemma {:induction false} OfCategoryCount(cs: seq<ProviderClass>, c: ProviderCategory, p: ProviderClass)
    ensures multiset(OfCategory(cs, c))[p] == if p.category == c then multiset(cs)[p] else 0
    decreases |cs|
  {
    if cs != [] {
      var init, last := cs[..|cs| - 1], cs[|cs| - 1];
      OfCategoryCount(init, c, p);
      assert cs == init + [last];
      assert multiset(cs) == multiset(init) + multiset{last};
    }
  }

  /** Filtering a concatenation filters each part and keeps them in order. */
  lemma {:induction false} OfCategoryAppend(a: seq<ProviderClass>, b: seq<ProviderClass>, c: ProviderCategory)
    ensures OfCategory(a + b, c) == OfCategory(a, c) + OfCategory(b, c)
    decreases |b|
  {
    if b != [] {
      var init, last := b[..|b| - 1], b[|b| - 1];
      assert (a + b)[..|a + b| - 1] == a + init;
      assert (a + b)[|a + b| - 1] == last;
      OfCategoryAppend(a, init, c);
      var tail := if last.category == c then [last] else [];
      assert OfCategory(a + b, c) == OfCategory(a + init, c) + tail;
      assert OfCategory(b, c) == OfCategory(init, c) + tail;
    } else {
      assert a + b == a;
    }
  }

  /** A single class is kept exactly when it has the category. */
  lemma OfCategoryOne(p: ProviderClass, c: ProviderCategory)
    ensures OfCategory([p], c) == if p.category == c then [p] else []
  {
    assert [p][..0] == [];
  }

  /** The filter keeps the classes of the category in their order: a class that comes
      before another in the registry comes before it in the filtered list. */
  lemma OfCategoryOrder(a: seq<ProviderClass>, p: ProviderClass, m: seq<ProviderClass>, q: ProviderClass,
                        z: seq<ProviderClass>, c: ProviderCategory)
    requires p.category == c && q.category == c
    ensures OfCategory(a + [p] + m + [q] + z, c)
         == OfCategory(a, c) + [p] + OfCategory(m, c) + [q] + OfCategory(z, c)
  {
    OfCategoryAppend(a + [p] + m + [q], z, c);
    OfCategoryAppend(a + [p] + m, [q], c);
    OfCategoryAppend(a + [p], m, c);
    OfCategoryAppend(a, [p], c);
    OfCategoryOne(p, c);
    OfCategoryOne(q, c);
  }

  /** The dict `list_by_category` builds from the classes `cs`, taken in order. */
  function Grouped(cs: seq<ProviderClass>): (r: Dict<ProviderCategory, seq<ProviderClass>>)
    decreases |cs|
  {
    if cs == [] then []
    else
      var g, last := Grouped(cs[..|cs| - 1]), cs[|cs| - 1];
      Put(g, last.category, Get(g, last.category).GetOr([]) + [last])
  }

  /** Each category maps to exactly the classes of that category, in their order, and a
      category with no class has no key. */
  lemma {:induction false} GroupedByCategory(cs: seq<ProviderClass>, c: ProviderCategory)
    ensures Get(Grouped(cs), c) == if OfCategory(cs, c) == [] then None else Some(OfCategory(cs, c))
    decreases |cs|
  {
    if cs != [] {
      var init, last := cs[..|cs| - 1], cs[|cs| - 1];
      var g := Grouped(init);
      var v := Get(g, last.category).GetOr([]) + [last];
      assert Grouped(cs) == Put(g, last.category, v);
      assert OfCategory(cs, c) == OfCategory(init, c) + (if last.category == c then [last] else []);
      GroupedByCategory(init, c);
      GetPut(g, last.category, v, c);
      if last.category != c {
        assert OfCategory(cs, c) == OfCategory(init, c);
      }
    }
  }

  /** The grouped dict has one key per category. */
  lemma {:induction false} GroupedUnique(cs: seq<ProviderClass>)
    ensures UniqueKeys(Grouped(cs))
    decreases |cs|
  {
    if cs != [] {
      var init, last := cs[..|cs| - 1], cs[|cs| - 1];
      GroupedUnique(init);
      PutUnique(Grouped(init), last.category, Get(Grouped(init), last.category).GetOr([]) + [last]);
    }
  }

  /** One step of `list_by_category`: start an empty list for a new category, then append
      the class to its category's list. */
  method AddToGroup(g: Dict<ProviderCategory, seq<ProviderClass>>, p: ProviderClass)
    returns (r: Dict<ProviderCategory, seq<ProviderClass>>)
    ensures r == Put(g, p.category, Get(g, p.category).GetOr([]) + [p])
  {
    r := g;
    if Get(r, p.category).None? {
      r := Put(r, p.category, []);
      GetPut(g, p.category, [], p.category);
    }
    var value := Get(r, p.category).value + [p];
    if Get(g, p.category).None? {
      PutPut(g, p.category, [], value);
    }
    r := Put(r, p.category, value);
  }

  class ProviderRegistry {
    var providers: Dict<string, ProviderClass>
    var instances: Dict<string, MCPProvider>

    ghost predicate Valid()
      reads this
    {
      UniqueKeys(providers) && UniqueKeys(instances)
    }

    constructor()
      ensures providers == [] && instances == [] && Valid()
    {
      providers := [];
      instances := [];
    }

    /** `register`: a class without a name is refused; otherwise it is stored under its name,
        in place of an earlier class of that name and at that class's position. */
    method Register(cls: ProviderClass) returns (r: Result<()>)
      requires Valid()
      modifies this
      ensures Valid() && instances == old(instances)
      ensures cls.name == "" ==>
        r == Err(ValueError("Provider <class '" + cls.typeName + "'> must have a 'name' attribute")) &&
        providers == old(providers)
      ensures cls.name != "" ==> r == Ok(()) && providers == Put(old(providers), cls.name, cls)
      ensures cls.name != "" ==> GetProviderClass(cls.name) == Some(cls)
      ensures cls.name != "" ==> forall n :: n != cls.name ==> GetProviderClass(n) == Get(old(providers), n)
      ensures cls.name != "" ==>
        Keys(providers) == if cls.name in Keys(old(providers)) then Keys(old(providers)) else Keys(old(providers)) + [cls.name]
    {
      if cls.name == "" {
        return Err(ValueError("Provider <class '" + cls.typeName + "'> must have a 'name' attribute"));
      }
      ghost var before := providers;
      PutUnique(providers, cls.name, cls);
      PutKeys(providers, cls.name, cls);
      providers := Put(providers, cls.name, cls);
      forall n ensures Get(providers, n) == if n == cls.name then Some(cls) else Get(before, n) {
        GetPut(before, cls.name, cls, n);
      }
      r := Ok(());
    }

    /** `get_provider_class` */
    function GetProviderClass(name: string): (r: Option<ProviderClass>)
      reads this
      ensures r.Some? <==> name in Keys(providers)
    {
      Get(providers, name)
    }

    /** `list_providers`: all classes in registration order, or those of one category. */
    function ListProviders(category: Option<ProviderCategory>): (r: seq<ProviderClass>)
      reads this
      ensures category.None? ==> r == Values(providers)
      ensures category.Some? ==> r == OfCategory(Values(providers), category.value)
      ensures category.Some? ==> forall p ::
        multiset(r)[p] == if p.category == category.value then multiset(Values(providers))[p] else 0
    {
      if category.None? then Values(providers)
      else
        var r := OfCategory(Values(providers), category.value);
        assert forall p ::
          multiset(r)[p] == if p.category == category.value then multiset(Values(providers))[p] else 0 by {
          forall p ensures multiset(r)[p] ==
            if p.category == category.value then multiset(Values(providers))[p] else 0 {
            OfCategoryCount(Values(providers), category.value, p);
          }
        }
        r
    }

    /** `create_provider`: an unknown name is refused and nothing is cached; otherwise a new
        instance is built from the class and cached under the name, replacing any earlier
        one. A configuration that does not validate caches nothing either. */
    method CreateProvider(name: string, config: Option<Object>) returns (r: Result<MCPProvider>)
      requires Valid()
      modifies this
      ensures Valid() && providers == old(providers)
      ensures Get(providers, name).None? ==>
        r == Err(ValueError("Provider '" + name + "' not found in registry")) && instances == old(instances)
      ensures Get(providers, name).Some? && Validate(Get(providers, name).value.configSchema, config.GetOr(map[])).Err? ==>
        r == Err(Validate(Get(providers, name).value.configSchema, config.GetOr(map[])).error) && instances == old(instances)
      ensures r.Ok? ==>
        Get(providers, name).Some? && fresh(r.value) && r.value.cls == Get(providers, name).value &&
        !r.value.connected && instances == Put(old(instances), name, r.value) &&
        GetInstance(name) == Some(r.value)
      ensures r.Ok? ==> forall n :: n != name ==> GetInstance(n) == Get(old(instances), n)
    {
      var cls := GetProviderClass(name);
      if cls.None? {
        return Err(ValueError("Provider '" + name + "' not found in registry"));
      }
      r := NewProvider(cls.value, config);
      if r.Ok? {
        ghost var before := instances;
        PutUnique(instances, name, r.value);
        instances := Put(instances, name, r.value);
        forall n ensures Get(instances, n) == if n == name then Some(r.value) else Get(before, n) {
          GetPut(before, name, r.value, n);
        }
      }
    }

    /** `get_instance` */
    function GetInstance(name: string): (r: Option<MCPProvider>)
      reads this
      ensures r.Some? <==> name in Keys(instances)
    {
      Get(instances, name)
    }

    /** `list_by_category`: group the registered classes by category, keys in order of first
        appearance, classes in registration order. */
    method ListByCategory() returns (result: Dict<ProviderCategory, seq<ProviderClass>>)
      ensures result == Grouped(Values(providers))
      ensures UniqueKeys(result)
      ensures forall c ::
        Get(result, c) == if OfCategory(Values(providers), c) == [] then None else Some(OfCategory(Values(providers), c))
    {
      var classes := Values(providers);
      result := [];
      var i := 0;
      while i < |classes|
        invariant 0 <= i <= |classes|
        invariant result == Grouped(classes[..i])
      {
        var p := classes[i];
        assert classes[..i + 1] == classes[..i] + [p];
        result := AddToGroup(result, p);
        i := i + 1;
      }
      assert classes[..i] == classes;
      GroupedUnique(classes);
      forall c ensures Get(result, c) ==
        if OfCategory(classes, c) == [] then None else Some(OfCategory(classes, c)) {
        GroupedByCategory(classes, c);
      }
    }
  }
}
