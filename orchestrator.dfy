/** The earlier, sequential orchestrator: a fixed table of scraper classes, run one
    after the other, each through the threaded executor with one worker per category.
    Unlike the newer orchestrator nothing is caught, so the first exception ends the run. */
module SequentialOrchestration {
  import opened Common
  import opened Scrapers
  import opened Executor
  import opened ScraperOrchestration

  /** One source's step of `run_all`: look up the section, run the executor with
      `max_workers=len(categories)`, and tag every product with the source and its job. */
  function SourceOutcome(sections: seq<(string, Config)>, name: string, cls: ScraperClass,
                         jobRun: JobRun): Outcome<seq<Product>>
  {
    var config := GetConfig(sections, name);
    if config.categories.None? then Err(KeyError("categories"))
    else if config.baseUrl.None? then Err(KeyError("base_url"))
    else
      match ExecutorResult(cls, config, config.categories.value, Some(|config.categories.value|),
                           config.baseUrl.value, jobRun)
      case Err(e) => Err(e)
      case Ok(results) => Ok(TagResults(name, results))
  }

  /** The outcome of each table entry, in table order. */
  function SourceOutcomes(sections: seq<(string, Config)>, classes: seq<(string, ScraperClass)>,
                          jobRuns: seq<JobRun>): (r: seq<Outcome<seq<Product>>>)
    requires |jobRuns| == |classes|
    ensures |r| == |classes|
    ensures forall i :: 0 <= i < |classes| ==>
              r[i] == SourceOutcome(sections, classes[i].0, classes[i].1, jobRuns[i])
  {
    if classes == [] then []
    else [SourceOutcome(sections, classes[0].0, classes[0].1, jobRuns[0])] +
         SourceOutcomes(sections, classes[1..], jobRuns[1..])
  }

  /** Running steps one after the other, appending their lists, with the first
      exception ending the run. */
  function Concatenated<T>(outs: seq<Outcome<seq<T>>>): Outcome<seq<T>>
  {
    if outs == [] then Ok([])
    else
      match Concatenated(outs[..|outs| - 1])
      case Err(e) => Err(e)
      case Ok(before) =>
        match outs[|outs| - 1]
        case Err(e) => Err(e)
        case Ok(more) => Ok(before + more)
  }

  /** `run_all()`: the products of every table entry in table order, or the first
      exception raised. */
  function SequentialResult(sections: seq<(string, Config)>, classes: seq<(string, ScraperClass)>,
                            jobRuns: seq<JobRun>): Outcome<seq<Product>>
    requires |jobRuns| == |classes|
  {
    Concatenated(SourceOutcomes(sections, classes, jobRuns))
  }

  /** One more step: an exception ends the run with that exception, a list is appended. */
  lemma ConcatenatedStep<T>(outs: seq<Outcome<seq<T>>>, i: nat, before: seq<T>)
    requires i < |outs| && Concatenated(outs[..i]) == Ok(before)
    ensures Concatenated(outs[..i + 1]) == if outs[i].Err? then Err(outs[i].error) else Ok(before + outs[i].value)
  {
    assert outs[..i + 1][..i] == outs[..i];
  }

  /** Once a prefix of the steps has raised, the whole run raises the same error. */
  lemma {:induction false} ErrorPersists<T>(outs: seq<Outcome<seq<T>>>, k: nat)
    requires k <= |outs| && Concatenated(outs[..k]).Err?
    ensures Concatenated(outs) == Concatenated(outs[..k])
    decreases |outs| - k
  {
    if k < |outs| {
      var n := |outs| - 1;
      assert outs[..n][..k] == outs[..k];
      ErrorPersists(outs[..n], k);
    } else {
      assert outs[..k] == outs;
    }
  }

  /** All or nothing: the run succeeds exactly when every step does. */
  lemma {:induction false} ConcatenatedOk<T>(outs: seq<Outcome<seq<T>>>)
    ensures Concatenated(outs).Ok? <==> forall i :: 0 <= i < |outs| ==> outs[i].Ok?
  {
    if outs != [] {
      var n := |outs| - 1;
      ConcatenatedOk(outs[..n]);
      assert forall j :: 0 <= j < n ==> outs[j] == outs[..n][j];
    }
  }

  /** A run that succeeds returns the steps' lists concatenated in order. */
  lemma {:induction false} ConcatenatedValue<T>(outs: seq<Outcome<seq<T>>>)
    requires Concatenated(outs).Ok?
    ensures Concatenated(outs).value == Flatten(Apply(Contribution, outs))
  {
    if outs != [] {
      var n := |outs| - 1;
      ConcatenatedValue(outs[..n]);
      ghost var parts := Apply(Contribution, outs);
      assert parts[..n] == Apply(Contribution, outs[..n]);
      assert parts == parts[..n] + [parts[n]];
      FlattenAppend(parts[..n], [parts[n]]);
      assert Flatten([parts[n]]) == parts[n] + Flatten([]);
    }
  }

  /** A run that raises raises the error of its first failing step. */
  lemma {:induction false} ConcatenatedErr<T>(outs: seq<Outcome<seq<T>>>)
    ensures Concatenated(outs).Err? ==>
              exists i :: 0 <= i < |outs| && outs[i] == Concatenated(outs) &&
                          forall j :: 0 <= j < i ==> outs[j].Ok?
  {
    if outs != [] {
      var n := |outs| - 1;
      ConcatenatedErr(outs[..n]);
      ConcatenatedOk(outs[..n]);
      if Concatenated(outs[..n]).Err? {
        var i :| 0 <= i < n && outs[..n][i] == Concatenated(outs[..n]) &&
                 forall j :: 0 <= j < i ==> outs[..n][j].Ok?;
        assert outs[i] == Concatenated(outs);
        assert forall j :: 0 <= j < i ==> outs[j] == outs[..n][j];
      } else if Concatenated(outs).Err? {
        assert forall j :: 0 <= j < n ==> outs[j] == outs[..n][j];
      }
    }
  }

  /** Every product a source contributes carries that source's name and one of its
      configured category names. */
  lemma SourceTagging(sections: seq<(string, Config)>, name: string, cls: ScraperClass, jobRun: JobRun)
    requires JobRunFits(GetConfig(sections, name), jobRun)
    requires SourceOutcome(sections, name, cls, jobRun).Ok?
    ensures var config := GetConfig(sections, name);
            var r := SourceOutcome(sections, name, cls, jobRun).value;
            forall p :: p in r ==>
              p.source == Some(name) && p.category.Some? && p.category.value in Keys(config.categories.value)
  {
    var config := GetConfig(sections, name);
    var cats := config.categories.value;
    var results := ExecutorItems(cls, config, config.baseUrl.value, cats, jobRun.arrival);
    TagResultsFacts(name, results);
    ExecutorKeys(cls, config, cats, config.baseUrl.value, jobRun.arrival);
  }

  /** A configured source with no categories asks for a pool of zero workers, which the
      executor refuses: the whole run raises. */
  lemma ZeroCategoriesRaise(sections: seq<(string, Config)>, classes: seq<(string, ScraperClass)>,
                            jobRuns: seq<JobRun>, i: nat)
    requires |jobRuns| == |classes| && i < |classes|
    requires GetConfig(sections, classes[i].0).categories == Some([])
    requires GetConfig(sections, classes[i].0).baseUrl.Some?
    ensures SourceOutcome(sections, classes[i].0, classes[i].1, jobRuns[i]) == Err(PoolSizeError)
    ensures SequentialResult(sections, classes, jobRuns).Err?
  {
    var config := GetConfig(sections, classes[i].0);
    ExecutorErrors(classes[i].1, config, [], Some(0), config.baseUrl.value, jobRuns[i]);
    ConcatenatedOk(SourceOutcomes(sections, classes, jobRuns));
  }

  /** The body of `run_all`'s loop for one table entry. */
  method RunSource(sections: seq<(string, Config)>, name: string, cls: ScraperClass, jobRun: JobRun)
    returns (step: Outcome<seq<Product>>)
    requires JobRunFits(GetConfig(sections, name), jobRun)
    ensures step == SourceOutcome(sections, name, cls, jobRun)
  {
    var config := GetConfig(sections, name);
    if config.categories.None? {
      return Err(KeyError("categories"));
    }
    if config.baseUrl.None? {
      return Err(KeyError("base_url"));
    }
    var categories := config.categories.value;
    var results, scrapers := ThreadedScrapeExecutor(cls, config, categories, Some(|categories|),
                                                    config.baseUrl.value, jobRun);
    if results.Err? {
      return Err(results.error);
    }
    var products := TagAll(name, results.value);
    step := Ok(products);
  }

  class SequentialOrchestrator {
    const sections: seq<(string, Config)>
    const scraperClasses: seq<(string, ScraperClass)>

    /** The table holds only the Amazon browser scraper. */
    constructor (sections: seq<(string, Config)>, amazon: ScraperClass)
      ensures this.sections == sections && scraperClasses == [("amazon", amazon)]
    {
      this.sections := sections;
      scraperClasses := [("amazon", amazon)];
    }

    /** `run_all()`; `jobRuns` says, per source, which jobs' constructor calls succeed
        and the order its jobs finish in. */
    method RunAll(jobRuns: seq<JobRun>) returns (r: Outcome<seq<Product>>)
      requires |jobRuns| == |scraperClasses|
      requires forall i :: 0 <= i < |scraperClasses| ==>
                 JobRunFits(GetConfig(sections, scraperClasses[i].0), jobRuns[i])
      ensures r == SequentialResult(sections, scraperClasses, jobRuns)
    {
      ghost var outs := SourceOutcomes(sections, scraperClasses, jobRuns);
      var all: seq<Product> := [];
      for i := 0 to |scraperClasses|
        invariant Concatenated(outs[..i]) == Ok(all)
      {
        var step := RunSource(sections, scraperClasses[i].0, scraperClasses[i].1, jobRuns[i]);
        ConcatenatedStep(outs, i, all);
        if step.Err? {
          ErrorPersists(outs, i + 1);
          return step;
        }
        all := all + step.value;
      }
      assert outs[..|outs|] == outs;
      r := Ok(all);
    }
  }
}
