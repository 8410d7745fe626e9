/** The orchestrator that runs every registered scraper: the batch-crawl path (one
    `scrape` call with every category URL, categories inferred from product URLs), the
    threaded path (one executor job per category, each product tagged with its job's
    category), and the merge of all sources in completion order. */
module ScraperOrchestration {
  import opened Common
  import opened Scrapers
  import opened Factory
  import opened Executor

  /** `prod.get('url') or ''`. */
  function UrlText(url: Option<string>): string
  {
    if url.None? then "" else url.value
  }

  /** `next((k for k, v in categories.items() if v in url_text), None)`. */
  function InferCategory(categories: seq<(string, string)>, url: Option<string>): (r: Option<string>)
  {
    if categories == [] then None
    else if Contains(UrlText(url), categories[0].1) then Some(categories[0].0)
    else InferCategory(categories[1..], url)
  }

  /** The inferred category is the first one, in configuration order, whose path occurs
      in the URL; there is none exactly when no path occurs in it. */
  lemma {:induction false} InferCategoryFirstMatch(categories: seq<(string, string)>, url: Option<string>)
    ensures InferCategory(categories, url).None? <==>
              forall i :: 0 <= i < |categories| ==> !Contains(UrlText(url), categories[i].1)
    ensures InferCategory(categories, url).Some? ==>
              exists i :: 0 <= i < |categories| && categories[i].0 == InferCategory(categories, url).value &&
                          Contains(UrlText(url), categories[i].1) &&
                          forall j :: 0 <= j < i ==> !Contains(UrlText(url), categories[j].1)
  {
    if categories != [] && !Contains(UrlText(url), categories[0].1) {
      InferCategoryFirstMatch(categories[1..], url);
      var r := InferCategory(categories[1..], url);
      if r.Some? {
        var i :| 0 <= i < |categories[1..]| && categories[1..][i].0 == r.value &&
                 Contains(UrlText(url), categories[1..][i].1) &&
                 forall j :: 0 <= j < i ==> !Contains(UrlText(url), categories[1..][j].1);
        assert categories[i + 1] == categories[1..][i];
        forall j | 0 <= j < i + 1 ensures !Contains(UrlText(url), categories[j].1) {
          if j > 0 { assert categories[j] == categories[1..][j - 1]; }
        }
      } else {
        forall i | 0 <= i < |categories| ensures !Contains(UrlText(url), categories[i].1) {
          if i > 0 { assert categories[i] == categories[1..][i - 1]; }
        }
      }
    }
  }

  /** A product without a URL reads as the empty string, which only an empty path
      matches: with no empty path among the categories it gets no category. */
  lemma InferCategoryWithoutUrl(categories: seq<(string, string)>)
    requires forall i :: 0 <= i < |categories| ==> categories[i].1 != ""
    ensures InferCategory(categories, None) == None
  {
    InferCategoryFirstMatch(categories, None);
    forall i | 0 <= i < |categories| ensures !Contains("", categories[i].1) {
      ContainsIff("", categories[i].1);
    }
  }

  /** Tagging on the batch path: the source is overwritten; a missing or empty category
      is replaced by the inferred one, a non-empty one is kept. */
  function TagBatch(categories: seq<(string, string)>, name: string, p: Product): Product
  {
    var q := p.(source := Some(name));
    if p.category.None? || p.category.value == "" then q.(category := InferCategory(categories, p.url)) else q
  }

  /** Tagging on the threaded path: source and category are both overwritten. */
  function TagJob(name: string, category: string, p: Product): Product
  {
    p.(source := Some(name), category := Some(category))
  }

  /** What the batch path returns: the tagged items, or `[]` when the constructor or
      `scrape` raised. */
  function BatchResult(cls: ScraperClass, config: Config, name: string,
                       categories: seq<(string, string)>, baseUrl: string): seq<Product>
  {
    if !cls.constructs(config) then []
    else match cls.scrape(config, Many(CategoryUrls(categories, baseUrl)))
      case Err(_) => []
      case Ok(items) => Apply((p: Product) => TagBatch(categories, name, p), items)
  }

  /** The threaded path's flattening of the executor's dict, in its iteration order. */
  function TagResults(name: string, results: seq<(string, seq<Product>)>): seq<Product>
  {
    if results == [] then []
    else Apply((p: Product) => TagJob(name, results[0].0, p), results[0].1) + TagResults(name, results[1..])
  }

  /** `_run_scraper(name)`: its return value, or the exception that escapes it. The
      executor's jobs run as `jobRun` says. */
  function RunScraperResult(registry: seq<(string, ScraperClass)>, sections: seq<(string, Config)>,
                            name: string, jobRun: JobRun): Outcome<seq<Product>>
  {
    var config := GetConfig(sections, name);
    match Lookup(registry, name)
    case None => Ok([])
    case Some(cls) =>
      if config.categories.None? then Err(KeyError("categories"))
      else if config.baseUrl.None? then Err(KeyError("base_url"))
      else if cls.isScrapy then Ok(BatchResult(cls, config, name, config.categories.value, config.baseUrl.value))
      else
        match ExecutorResult(cls, config, config.categories.value, Some(|config.categories.value| + 2),
                             config.baseUrl.value, jobRun)
        case Err(e) => Err(e)
        case Ok(results) => Ok(TagResults(name, results))
  }

  /** A name the registry does not hold yields `[]`; a section without `categories`
      or `base_url` raises `KeyError`; the batch path never raises; the threaded path
      raises a constructor's exception exactly when some job's constructor call fails. */
  lemma RunScraperOutcomes(registry: seq<(string, ScraperClass)>, sections: seq<(string, Config)>,
                           name: string, jobRun: JobRun)
    ensures var r := RunScraperResult(registry, sections, name, jobRun);
            var config := GetConfig(sections, name);
            && (Lookup(registry, name).None? ==> r == Ok([]))
            && (Lookup(registry, name).Some? && config.categories.None? ==> r == Err(KeyError("categories")))
            && (Lookup(registry, name).Some? && config.categories.Some? && config.baseUrl.None? ==>
                  r == Err(KeyError("base_url")))
            && ((Lookup(registry, name).Some? && Lookup(registry, name).value.isScrapy &&
                 config.categories.Some? && config.baseUrl.Some?) ==> r.Ok?)
            && ((Lookup(registry, name).Some? && !Lookup(registry, name).value.isScrapy &&
                 config.categories.Some? && config.baseUrl.Some?) ==>
                  (r == Err(ConstructorError) <==>
                     exists m :: 0 <= m < |config.categories.value| && !Builds(Lookup(registry, name).value, config, jobRun, m)))
            && (r.Err? ==> r.error in {KeyError("categories"), KeyError("base_url"), ConstructorError})
  {
    var config := GetConfig(sections, name);
    if Lookup(registry, name).Some? && config.categories.Some? && config.baseUrl.Some? &&
       !Lookup(registry, name).value.isScrapy {
      var cats := config.categories.value;
      var cls := Lookup(registry, name).value;
      ExecutorErrors(cls, config, cats, Some(|cats| + 2), config.baseUrl.value, jobRun);
      var ex := ExecutorResult(cls, config, cats, Some(|cats| + 2), config.baseUrl.value, jobRun);
      assert RunScraperResult(registry, sections, name, jobRun) ==
             if ex.Err? then Err(ex.error) else Ok(TagResults(name, ex.value));
    }
    assert var r := RunScraperResult(registry, sections, name, jobRun);
           ((Lookup(registry, name).Some? && !Lookup(registry, name).value.isScrapy &&
             config.categories.Some? && config.baseUrl.Some?) ==>
              (r == Err(ConstructorError) <==>
                 exists m :: 0 <= m < |config.categories.value| && !Builds(Lookup(registry, name).value, config, jobRun, m)));
  }

  /** On the batch path every product gets `source == name`, keeps a non-empty category,
      and otherwise gets the inferred one; nothing is added or dropped. */
  lemma BatchTagging(cls: ScraperClass, config: Config, name: string,
                     categories: seq<(string, string)>, baseUrl: string)
    ensures var r := BatchResult(cls, config, name, categories, baseUrl);
            var s := cls.scrape(config, Many(CategoryUrls(categories, baseUrl)));
            && (cls.constructs(config) && s.Ok? ==> |r| == |s.value|)
            && (!cls.constructs(config) || s.Err? ==> r == [])
            && (forall i :: 0 <= i < |r| ==> r[i].source == Some(name))
            && (cls.constructs(config) && s.Ok? ==>
                  forall i :: 0 <= i < |r| ==>
                    r[i].title == s.value[i].title && r[i].price == s.value[i].price &&
                    r[i].url == s.value[i].url &&
                    r[i].category == (if s.value[i].category.None? || s.value[i].category.value == ""
                                      then InferCategory(categories, s.value[i].url)
                                      else s.value[i].category))
  {
  }

  /** The batch call receives `base_url + path` for every category, in order. */
  lemma CategoryUrlsInOrder(categories: seq<(string, string)>, baseUrl: string)
    ensures |CategoryUrls(categories, baseUrl)| == |categories|
    ensures forall i :: 0 <= i < |categories| ==> CategoryUrls(categories, baseUrl)[i] == baseUrl + categories[i].1
  {
  }

  /** On the threaded path every product carries `source == name` and its job's
      category, and the output has as many products as the per-job lists together. */
  lemma {:induction false} TagResultsFacts(name: string, results: seq<(string, seq<Product>)>)
    ensures |TagResults(name, results)| == SumLengths(Values(results))
    ensures forall p :: p in TagResults(name, results) ==>
              p.source == Some(name) && p.category.Some? && p.category.value in Keys(results)
  {
    if results != [] {
      TagResultsFacts(name, results[1..]);
      assert Values(results) == [results[0].1] + Values(results[1..]);
      assert Keys(results) == [results[0].0] + Keys(results[1..]);
    }
  }

  lemma {:induction false} TagResultsSplit(name: string, a: seq<(string, seq<Product>)>, b: seq<(string, seq<Product>)>)
    ensures TagResults(name, a + b) == TagResults(name, a) + TagResults(name, b)
  {
    if a != [] {
      assert (a + b)[1..] == a[1..] + b;
      TagResultsSplit(name, a[1..], b);
    } else {
      assert a + b == b;
    }
  }

  /** The threaded path's categories are job names. */
  lemma ThreadedTagging(cls: ScraperClass, config: Config, name: string,
                        categories: seq<(string, string)>, baseUrl: string, jobRun: JobRun)
    requires IsPermutation(jobRun.arrival, |categories|)
    requires ExecutorResult(cls, config, categories, Some(|categories| + 2), baseUrl, jobRun).Ok?
    ensures var results := ExecutorResult(cls, config, categories, Some(|categories| + 2), baseUrl, jobRun).value;
            && |TagResults(name, results)| == SumLengths(Values(results))
            && forall p :: p in TagResults(name, results) ==>
                 p.source == Some(name) && p.category.Some? && p.category.value in Keys(categories)
  {
    var results := ExecutorItems(cls, config, baseUrl, categories, jobRun.arrival);
    TagResultsFacts(name, results);
    ExecutorKeys(cls, config, categories, baseUrl, jobRun.arrival);
  }

  /** The inner loop of the threaded path: tag each product of one job. */
  method TagJobItems(name: string, category: string, items: seq<Product>) returns (tagged: seq<Product>)
    ensures |tagged| == |items|
    ensures forall j :: 0 <= j < |items| ==> tagged[j] == TagJob(name, category, items[j])
  {
    tagged := [];
    for j := 0 to |items|
      invariant |tagged| == j
      invariant forall m :: 0 <= m < j ==> tagged[m] == TagJob(name, category, items[m])
    {
      tagged := tagged + [TagJob(name, category, items[j])];
    }
  }

  /** The threaded path's loops over the executor's dict: tag and append. */
  method TagAll(name: string, results: seq<(string, seq<Product>)>) returns (products: seq<Product>)
    ensures products == TagResults(name, results)
  {
    products := [];
    for i := 0 to |results|
      invariant products == TagResults(name, results[..i])
    {
      var tagged := TagJobItems(name, results[i].0, results[i].1);
      assert TagResults(name, [results[i]]) == tagged + TagResults(name, []);
      TagResultsSplit(name, results[..i], [results[i]]);
      assert results[..i + 1] == results[..i] + [results[i]];
      products := products + tagged;
    }
    assert results[..|results|] == results;
  }

  /** The per-source lists `run_all` merges: a source that raised contributes `[]`. */
  function Contribution<T>(o: Outcome<seq<T>>): seq<T>
  {
    if o.Ok? then o.value else []
  }

  /** Each registered source's contribution, in registration order. */
  function SourceResults(registry: seq<(string, ScraperClass)>, sections: seq<(string, Config)>,
                         names: seq<string>, jobRuns: seq<JobRun>): (r: seq<seq<Product>>)
    requires |jobRuns| == |names|
    ensures |r| == |names|
    ensures forall i :: 0 <= i < |names| ==>
              r[i] == Contribution(RunScraperResult(registry, sections, names[i], jobRuns[i]))
  {
    if names == [] then []
    else [Contribution(RunScraperResult(registry, sections, names[0], jobRuns[0]))] +
         SourceResults(registry, sections, names[1..], jobRuns[1..])
  }

  /** The executor's run covers the source's own category jobs. */
  ghost predicate JobRunFits(config: Config, jobRun: JobRun)
  {
    config.categories.Some? ==> RunFits(jobRun, |config.categories.value|)
  }

  /** The merge loop of `run_all`: take the finished sources in `arrival` order and
      append the list of each one that returned. */
  method Merge<T>(outcomes: seq<Outcome<seq<T>>>, arrival: seq<nat>) returns (r: seq<T>)
    requires forall k :: 0 <= k < |arrival| ==> arrival[k] < |outcomes|
    ensures r == Flatten(Arrange(Apply(Contribution, outcomes), arrival, []))
  {
    ghost var arranged := Arrange(Apply(Contribution, outcomes), arrival, []);
    r := [];
    for k := 0 to |arrival|
      invariant r == Flatten(arranged[..k])
    {
      var o := outcomes[arrival[k]];
      assert Contribution(o) == arranged[k];
      assert arranged[..k + 1] == arranged[..k] + [arranged[k]];
      FlattenAppend(arranged[..k], [arranged[k]]);
      assert Flatten([arranged[k]]) == arranged[k] + Flatten([]);
      if o.Ok? {
        r := r + o.value;
      }
    }
    assert arranged[..|arrival|] == arranged;
  }

  class ScraperOrchestrator {
    const factory: ScraperFactory
    const sections: seq<(string, Config)>
    const scraperNames: seq<string>

    /** `ScraperOrchestrator(path)`: the loaded sections, and the registry's names as
        they are when the orchestrator is built. */
    constructor (factory: ScraperFactory, sections: seq<(string, Config)>)
      requires factory.Valid()
      ensures this.factory == factory && this.sections == sections
      ensures scraperNames == factory.AvailableScrapers()
    {
      this.factory := factory;
      this.sections := sections;
      scraperNames := factory.AvailableScrapers();
    }

    /** The batch path: one instance, one `scrape` call with every category URL, the
        instance never closed; any exception makes the source return `[]`. */
    method RunBatch(cls: ScraperClass, config: Config, name: string,
                    categories: seq<(string, string)>, baseUrl: string)
      returns (r: seq<Product>, ghost made: Option<ScraperInstance>)
      ensures r == BatchResult(cls, config, name, categories, baseUrl)
      ensures made.Some? <==> cls.constructs(config)
      ensures made.Some? ==> fresh(made.value) && made.value.cls == cls && made.value.config == config
      ensures made.Some? ==> made.value.calls == [Many(CategoryUrls(categories, baseUrl))] && made.value.closeCount == 0
    {
      // the crawler class's constructor only stores its configuration and starts nothing
      var built := Instantiate(cls, config, true);
      if built.Err? {
        return [], None;
      }
      made := Some(built.value);
      var urls := CategoryUrls(categories, baseUrl);
      var outcome := built.value.Scrape(Many(urls));
      if outcome.Err? {
        return [], made;
      }
      var items := outcome.value;
      r := [];
      for i := 0 to |items|
        invariant |r| == i
        invariant forall m :: 0 <= m < i ==> r[m] == TagBatch(categories, name, items[m])
      {
        r := r + [TagBatch(categories, name, items[i])];
      }
    }

    /** `_run_scraper(name)`, its executor's jobs running as `jobRun` says. */
    method RunScraper(name: string, jobRun: JobRun) returns (r: Outcome<seq<Product>>)
      requires JobRunFits(GetConfig(sections, name), jobRun)
      ensures r == RunScraperResult(factory.registry, sections, name, jobRun)
    {
      var config := GetConfig(sections, name);
      var found := Lookup(factory.registry, name);
      if found.None? {
        return Ok([]);
      }
      var cls := found.value;
      if config.categories.None? {
        return Err(KeyError("categories"));
      }
      if config.baseUrl.None? {
        return Err(KeyError("base_url"));
      }
      var categories := config.categories.value;
      var baseUrl := config.baseUrl.value;
      if cls.isScrapy {
        var items, made := RunBatch(cls, config, name, categories, baseUrl);
        return Ok(items);
      }
      var results, scrapers := ThreadedScrapeExecutor(cls, config, categories, Some(|categories| + 2), baseUrl, jobRun);
      if results.Err? {
        return Err(results.error);
      }
      var products := TagAll(name, results.value);
      r := Ok(products);
    }

    /** `run_all(max_workers)`: a process pool asked for fewer than one worker raises
        before any source runs. Otherwise every source runs, and their lists are
        concatenated in the order `arrival` in which the source processes finish. A
        source that raised adds nothing; the others are unaffected. */
    method RunAll(maxWorkers: int, arrival: seq<nat>, jobRuns: seq<JobRun>) returns (r: Outcome<seq<Product>>)
      requires IsPermutation(arrival, |scraperNames|)
      requires |jobRuns| == |scraperNames|
      requires forall i :: 0 <= i < |scraperNames| ==> JobRunFits(GetConfig(sections, scraperNames[i]), jobRuns[i])
      ensures r.Err? <==> maxWorkers < 1
      ensures r.Err? ==> r.error == PoolSizeError
      ensures r.Ok? ==> r.value == Flatten(Arrange(SourceResults(factory.registry, sections, scraperNames, jobRuns), arrival, []))
      ensures r.Ok? ==> multiset(r.value) == multiset(Flatten(SourceResults(factory.registry, sections, scraperNames, jobRuns)))
      ensures r.Ok? && scraperNames == [] ==> r.value == []
    {
      if maxWorkers < 1 {
        return Err(PoolSizeError);
      }
      var outcomes: seq<Outcome<seq<Product>>> := [];
      for i := 0 to |scraperNames|
        invariant |outcomes| == i
        invariant forall m :: 0 <= m < i ==>
                    outcomes[m] == RunScraperResult(factory.registry, sections, scraperNames[m], jobRuns[m])
      {
        var o := RunScraper(scraperNames[i], jobRuns[i]);
        outcomes := outcomes + [o];
      }
      ghost var per := SourceResults(factory.registry, sections, scraperNames, jobRuns);
      assert Apply(Contribution, outcomes) == per;
      PermutationBounds(arrival, |scraperNames|);
      var merged := Merge(outcomes, arrival);
      r := Ok(merged);
      ghost var arranged := Arrange(per, arrival, []);
      ArrangePermutation(per, arrival, []);
      FlattenPermutation(arranged, per);
      if scraperNames == [] {
        assert |arrival| == 0;
      }
    }
  }
}
