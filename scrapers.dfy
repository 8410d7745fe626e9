/** What the orchestration layer sees of a scraper: its configuration section, the
    class it is registered as, and the instances built from that class. */
module Scrapers {
  import opened Common

  /** One scraper's section of the YAML configuration. A key the section does not have
      is `None`. `categories` maps a category name to its URL path, in file order. */
  datatype Config = Config(
    categories: Option<seq<(string, string)>>,
    baseUrl: Option<string>,
    maxPages: Option<int>,
    delay: Option<int>,
    maxRetries: Option<int>)

  /** `get_config` of a section that is not in the file: an empty dict. */
  const EmptyConfig := Config(None, None, None, None, None)

  /** A YAML mapping cannot repeat a key. */
  predicate WellFormed(c: Config)
  {
    c.categories.Some? ==> DistinctKeys(c.categories.value)
  }

  /** `ConfigLoader.get_config(name)` over the loaded sections, `{}` when absent. */
  function GetConfig(sections: seq<(string, Config)>, name: string): (c: Config)
    ensures (forall i :: 0 <= i < |sections| ==> sections[i].0 != name) ==> c == EmptyConfig
    ensures DistinctKeys(sections) ==>
              forall i :: 0 <= i < |sections| && sections[i].0 == name ==> c == sections[i].1
  {
    match Lookup(sections, name)
    case None => EmptyConfig
    case Some(c) =>
      assert DistinctKeys(sections) ==>
        forall i :: 0 <= i < |sections| && sections[i].0 == name ==> c == sections[i].1 by {
        if DistinctKeys(sections) {
          forall i | 0 <= i < |sections| && sections[i].0 == name ensures c == sections[i].1 {
            LookupDistinct(sections, i);
          }
        }
      }
      c
  }

  /** `[base_url + v for v in categories.values()]`: one URL per category, in order. */
  function CategoryUrls(categories: seq<(string, string)>, baseUrl: string): seq<string>
  {
    Apply((c: (string, string)) => baseUrl + c.1, categories)
  }

  /** The argument of `scrape`: one URL (browser and static scrapers) or the list of all
      category URLs (the batch crawler). */
  datatype Target = One(url: string) | Many(urls: seq<string>)

  /** A registered scraper class. Its behaviour is given by two functions: whether its
      constructor accepts a configuration (the keys it requires are there), and what
      `scrape` returns or raises for a configuration and a target (the network is folded
      into that function). Whether one constructor call also gets its browser or session
      started is decided per call; see `Instantiate`. */
  class ScraperClass {
    const name: string
    const isScrapy: bool
    const constructs: Config -> bool
    const scrape: (Config, Target) -> Outcome<seq<Product>>

    constructor (name: string, isScrapy: bool, constructs: Config -> bool,
                 scrape: (Config, Target) -> Outcome<seq<Product>>)
      ensures this.name == name && this.isScrapy == isScrapy
      ensures this.constructs == constructs && this.scrape == scrape
    {
      this.name := name;
      this.isScrapy := isScrapy;
      this.constructs := constructs;
      this.scrape := scrape;
    }
  }

  /** An object built by `scraper_cls(config)`. It records every `scrape` call and how
      often `close` ran. */
  class ScraperInstance {
    const cls: ScraperClass
    const config: Config
    var calls: seq<Target>
    var closeCount: nat

    constructor (cls: ScraperClass, config: Config)
      requires cls.constructs(config)
      ensures this.cls == cls && this.config == config
      ensures calls == [] && closeCount == 0
    {
      this.cls := cls;
      this.config := config;
      calls := [];
      closeCount := 0;
    }

    method Scrape(target: Target) returns (r: Outcome<seq<Product>>)
      modifies this
      ensures r == cls.scrape(config, target)
      ensures calls == old(calls) + [target] && closeCount == old(closeCount)
    {
      r := cls.scrape(config, target);
      calls := calls + [target];
    }

    method Close()
      modifies this
      ensures closeCount == old(closeCount) + 1 && calls == old(calls)
    {
      closeCount := closeCount + 1;
    }
  }

  /** `scraper_cls(config)`: a fresh instance, or the constructor's exception. The call
      succeeds when the class accepts the configuration and `launched` holds, that is,
      when this call's browser or session starts (a Chrome launch can fail on one call
      and succeed on the next). */
  method Instantiate(cls: ScraperClass, config: Config, launched: bool) returns (r: Outcome<ScraperInstance>)
    ensures r.Ok? <==> cls.constructs(config) && launched
    ensures r.Err? ==> r.error == ConstructorError
    ensures r.Ok? ==> fresh(r.value) && r.value.cls == cls && r.value.config == config
    ensures r.Ok? ==> r.value.calls == [] && r.value.closeCount == 0
  {
    if cls.constructs(config) && launched {
      var s := new ScraperInstance(cls, config);
      r := Ok(s);
    } else {
      r := Err(ConstructorError);
    }
  }
}
