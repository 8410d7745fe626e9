/** The scraper registry: a class-level dict from lower-cased name to scraper class,
    filled by the `register` decorator as scraper modules are imported. */
module Factory {
  import opened Common
  import opened Scrapers

  class ScraperFactory {
    /** `_registry`, as its items in insertion order. */
    var registry: seq<(string, ScraperClass)>

    /** Keys are distinct (a dict) and lower-case (every key passes through `lower`). */
    predicate Valid()
      reads this
    {
      DistinctKeys(registry) && forall i :: 0 <= i < |registry| ==> Lower(registry[i].0) == registry[i].0
    }

    constructor ()
      ensures Valid() && registry == []
    {
      registry := [];
    }

    /** `register(key)(scraper_cls)`: store the class under `key.lower()` and hand it
        back unchanged. A key seen before keeps its place and takes the new class. */
    method Register(key: string, cls: ScraperClass) returns (r: ScraperClass)
      requires Valid()
      modifies this
      ensures Valid()
      ensures r == cls
      ensures registry == Assign(old(registry), Lower(key), cls)
    {
      LowerIdempotent(key);
      AssignKeys(registry, Lower(key), cls);
      AssignDistinct(registry, Lower(key), cls);
      var before := registry;
      registry := Assign(registry, Lower(key), cls);
      forall i | 0 <= i < |registry| ensures Lower(registry[i].0) == registry[i].0 {
        assert registry[i].0 == Keys(registry)[i];
        if registry[i].0 != Lower(key) {
          assert registry[i].0 in Keys(before);
          var j :| 0 <= j < |before| && Keys(before)[j] == registry[i].0;
          assert before[j].0 == registry[i].0;
        }
      }
      r := cls;
    }

    /** `_registry.get(name)`: the raw lookup, without lower-casing. */
    function Get(name: string): (r: Option<ScraperClass>)
      reads this
      ensures r.None? <==> name !in Keys(registry)
      ensures r.Some? ==> exists i :: 0 <= i < |registry| && registry[i] == (name, r.value)
    {
      var r := Lookup(registry, name);
      assert r.None? <==> name !in Keys(registry) by {
        if name in Keys(registry) {
          var i :| 0 <= i < |registry| && Keys(registry)[i] == name;
          assert registry[i].0 == name;
        }
      }
      r
    }

    /** `create_scraper(key, config)`; `launched` is whether the constructor call gets its
        browser or session started. */
    method CreateScraper(key: string, config: Config, launched: bool) returns (r: Outcome<ScraperInstance>)
      ensures Get(Lower(key)).None? ==> r == Err(ValueError("Scraper '" + key + "' is not registered."))
      ensures Get(Lower(key)).Some? ==>
                (r.Ok? <==> Get(Lower(key)).value.constructs(config) && launched) &&
                (r.Err? ==> r.error == ConstructorError) &&
                (r.Ok? ==> fresh(r.value) && r.value.cls == Get(Lower(key)).value &&
                           r.value.config == config &&
                           r.value.calls == [] && r.value.closeCount == 0)
    {
      var found := Get(Lower(key));
      if found.None? {
        r := Err(ValueError("Scraper '" + key + "' is not registered."));
      } else {
        r := Instantiate(found.value, config, launched);
      }
    }

    /** `available_scrapers()`: every registered key once, in first-registration order. */
    function AvailableScrapers(): (r: seq<string>)
      reads this
      requires Valid()
      ensures |r| == |registry|
      ensures forall name :: name in r <==> Get(name).Some?
      ensures forall i, j :: 0 <= i < j < |r| ==> r[i] != r[j]
      ensures forall i :: 0 <= i < |r| ==> Lower(r[i]) == r[i]
    {
      Keys(registry)
    }

    /** The registrations the shown modules perform when the entry point imports them:
        the eBay module first, then the Newegg one. */
    method RegisterShown(ebay: ScraperClass, newegg: ScraperClass)
      requires Valid() && registry == []
      modifies this
      ensures Valid()
      ensures AvailableScrapers() == ["ebay", "newegg"]
      ensures Get("ebay") == Some(ebay) && Get("newegg") == Some(newegg)
      ensures Get("amazon").None?
    {
      LowerWithoutCapitals("ebay");
      LowerWithoutCapitals("newegg");
      var e := Register("ebay", ebay);
      assert registry == [("ebay", ebay)];
      var n := Register("newegg", newegg);
      assert registry == [("ebay", ebay), ("newegg", newegg)];
    }
  }
}
