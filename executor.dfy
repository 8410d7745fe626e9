/** The per-source job executor: one worker per category job, each building its own
    scraper, scraping `url_prefix + path`, mapping a failed scrape to `[]` and closing
    the scraper in a `finally`; results are stored in a dict as the futures complete. */
module Executor {
  import opened Common
  import opened Scrapers

  /** How a source's jobs run: the order `arrival` (indices into the jobs) in which their
      futures complete, and for each job whether its constructor call gets its browser
      or session started. */
  datatype JobRun = JobRun(arrival: seq<nat>, launched: seq<bool>)

  /** A run over `n` jobs: the completion order is a permutation of them, and every job
      has a launch outcome. */
  ghost predicate RunFits(run: JobRun, n: nat)
  {
    IsPermutation(run.arrival, n) && |run.launched| == n
  }

  /** Job `m`'s worker builds its scraper: the class accepts the configuration and that
      call's launch succeeds. */
  predicate Builds(cls: ScraperClass, config: Config, run: JobRun, m: nat)
  {
    cls.constructs(config) && m < |run.launched| && run.launched[m]
  }

  /** `max_workers or len(jobs)`: `None` and `0` both fall back to the job count. */
  function EffectiveWorkers(maxWorkers: Option<int>, jobCount: nat): int
  {
    if maxWorkers.None? || maxWorkers.value == 0 then jobCount else maxWorkers.value
  }

  /** The items a worker returns for a job whose scraper was built: what `scrape`
      returned, or `[]` when it raised. */
  function JobItems(cls: ScraperClass, config: Config, prefix: string, job: (string, string)): seq<Product>
  {
    match cls.scrape(config, One(prefix + job.1))
    case Ok(items) => items
    case Err(_) => []
  }

  /** The `(job_name, items)` pair of every job, in submission order. */
  function Finished(cls: ScraperClass, config: Config, prefix: string, jobs: seq<(string, string)>): (r: seq<(string, seq<Product>)>)
    ensures |r| == |jobs|
    ensures forall i :: 0 <= i < |jobs| ==> r[i] == (jobs[i].0, JobItems(cls, config, prefix, jobs[i]))
  {
    Apply((job: (string, string)) => (job.0, JobItems(cls, config, prefix, job)), jobs)
  }

  /** The results dict after `results[job_name] = items` for each pair in turn. */
  function Collect(arrived: seq<(string, seq<Product>)>): seq<(string, seq<Product>)>
  {
    if arrived == [] then []
    else
      var last := arrived[|arrived| - 1];
      Assign(Collect(arrived[..|arrived| - 1]), last.0, last.1)
  }

  /** Every stored name is a name that arrived, each at most once. */
  lemma {:induction false} CollectKeys(arrived: seq<(string, seq<Product>)>)
    ensures DistinctKeys(Collect(arrived))
    ensures forall name :: name in Keys(Collect(arrived)) <==> name in Keys(arrived)
  {
    if arrived != [] {
      var init := arrived[..|arrived| - 1];
      var last := arrived[|arrived| - 1];
      CollectKeys(init);
      AssignKeys(Collect(init), last.0, last.1);
      AssignDistinct(Collect(init), last.0, last.1);
      KeysSnoc(arrived);
    }
  }

  /** A name whose every arrival carried the same items maps to those items. */
  lemma {:induction false} CollectLookup(arrived: seq<(string, seq<Product>)>, name: string, items: seq<Product>)
    requires exists k :: 0 <= k < |arrived| && arrived[k].0 == name
    requires forall k :: 0 <= k < |arrived| && arrived[k].0 == name ==> arrived[k].1 == items
    ensures Lookup(Collect(arrived), name) == Some(items)
  {
    var init := arrived[..|arrived| - 1];
    var last := arrived[|arrived| - 1];
    AssignLookup(Collect(init), last.0, last.1, name);
    if last.0 != name {
      var k :| 0 <= k < |arrived| && arrived[k].0 == name;
      assert init[k] == arrived[k];
      CollectLookup(init, name, items);
    }
  }

  /** `threaded_scrape_executor`'s return value or exception, for submitted jobs `jobs`
      run as `run` says. A worker whose constructor raised hands that exception to its
      future, and the collecting loop re-raises it. */
  function ExecutorResult(cls: ScraperClass, config: Config, jobs: seq<(string, string)>,
                          maxWorkers: Option<int>, prefix: string, run: JobRun)
    : Outcome<seq<(string, seq<Product>)>>
  {
    if EffectiveWorkers(maxWorkers, |jobs|) <= 0 then Err(PoolSizeError)
    else if exists m :: 0 <= m < |jobs| && !Builds(cls, config, run, m) then Err(ConstructorError)
    else Ok(ExecutorItems(cls, config, prefix, jobs, run.arrival))
  }

  /** The dict the executor returns when nothing raised. */
  function ExecutorItems(cls: ScraperClass, config: Config, prefix: string, jobs: seq<(string, string)>,
                         arrival: seq<nat>): seq<(string, seq<Product>)>
  {
    Collect(Arrange(Finished(cls, config, prefix, jobs), arrival, ("", [])))
  }

  /** The two ways the executor raises: a pool size below one (no `max_workers` and no
      jobs, for one), and a scraper constructor that raises in some job's worker, which
      escapes through `future.result()`. A missing `max_workers` means one worker per job. */
  lemma ExecutorErrors(cls: ScraperClass, config: Config, jobs: seq<(string, string)>,
                       maxWorkers: Option<int>, prefix: string, run: JobRun)
    ensures var r := ExecutorResult(cls, config, jobs, maxWorkers, prefix, run);
            && (r == Err(PoolSizeError) <==>
                 ((maxWorkers.None? || maxWorkers == Some(0)) && jobs == []) ||
                 (maxWorkers.Some? && maxWorkers.value < 0))
            && (r == Err(ConstructorError) <==>
                 EffectiveWorkers(maxWorkers, |jobs|) > 0 &&
                 exists m :: 0 <= m < |jobs| && !Builds(cls, config, run, m))
            && (r.Err? ==> r == Err(PoolSizeError) || r == Err(ConstructorError))
  {
  }

  /** The result dict's keys are exactly the job names: each job stores its pair once,
      whatever the completion order. */
  lemma ExecutorKeys(cls: ScraperClass, config: Config, jobs: seq<(string, string)>,
                     prefix: string, arrival: seq<nat>)
    requires IsPermutation(arrival, |jobs|)
    ensures var r := ExecutorItems(cls, config, prefix, jobs, arrival);
            DistinctKeys(r) && forall name :: name in Keys(r) <==> name in Keys(jobs)
  {
    var done := Finished(cls, config, prefix, jobs);
    ArrangePermutation(done, arrival, ("", []));
    CollectPermutedKeys(done, Arrange(done, arrival, ("", [])));
    FinishedKeys(cls, config, prefix, jobs);
  }

  lemma FinishedKeys(cls: ScraperClass, config: Config, prefix: string, jobs: seq<(string, string)>)
    ensures Keys(Finished(cls, config, prefix, jobs)) == Keys(jobs)
  {
  }

  lemma CollectPermutedKeys(done: seq<(string, seq<Product>)>, arrived: seq<(string, seq<Product>)>)
    requires multiset(arrived) == multiset(done)
    ensures DistinctKeys(Collect(arrived))
    ensures forall name :: name in Keys(Collect(arrived)) <==> name in Keys(done)
  {
    KeysOfPermutation(arrived, done);
    CollectKeys(arrived);
  }

  /** Each job name maps to that job's items, which are `[]` when its `scrape` raised. */
  lemma ExecutorLookup(cls: ScraperClass, config: Config, jobs: seq<(string, string)>,
                       prefix: string, arrival: seq<nat>, i: nat)
    requires DistinctKeys(jobs) && IsPermutation(arrival, |jobs|) && i < |jobs|
    ensures var r := ExecutorItems(cls, config, prefix, jobs, arrival);
            && Lookup(r, jobs[i].0) == Some(JobItems(cls, config, prefix, jobs[i]))
            && (cls.scrape(config, One(prefix + jobs[i].1)).Err? ==> Lookup(r, jobs[i].0) == Some([]))
  {
    var done := Finished(cls, config, prefix, jobs);
    var arrived := Arrange(done, arrival, ("", []));
    PermutationBounds(arrival, |jobs|);
    PermutationCovers(arrival, |jobs|, i);
    var k :| 0 <= k < |arrival| && arrival[k] == i;
    assert arrived[k].0 == jobs[i].0;
    forall m | 0 <= m < |arrived| && arrived[m].0 == jobs[i].0
      ensures arrived[m].1 == JobItems(cls, config, prefix, jobs[i])
    {
      assert jobs[arrival[m]].0 == jobs[i].0;
    }
    CollectLookup(arrived, jobs[i].0, JobItems(cls, config, prefix, jobs[i]));
  }

  /** `worker(job_name, job_path)`: build a scraper (outside the `try`), scrape
      `url_prefix + job_path`, turn an exception into `[]`, and close in `finally`.
      `launched` is whether this worker's constructor call gets its browser started. */
  method Worker(cls: ScraperClass, config: Config, prefix: string, job: (string, string), launched: bool)
    returns (r: Outcome<(string, seq<Product>)>, ghost made: Option<ScraperInstance>)
    ensures r == if cls.constructs(config) && launched then Ok((job.0, JobItems(cls, config, prefix, job)))
                 else Err(ConstructorError)
    ensures made.Some? <==> cls.constructs(config) && launched
    ensures made.Some? ==> fresh(made.value) && made.value.cls == cls && made.value.config == config
    ensures made.Some? ==> made.value.calls == [One(prefix + job.1)] && made.value.closeCount == 1
  {
    var built := Instantiate(cls, config, launched);
    if built.Err? {
      return Err(built.error), None;
    }
    var scraper := built.value;
    var outcome := scraper.Scrape(One(prefix + job.1));
    var items := if outcome.Ok? then outcome.value else [];
    scraper.Close();
    r := Ok((job.0, items));
    made := Some(scraper);
  }

  /** The scrapers the workers built, one slot per job: each was built exactly when its
      job's constructor call succeeded, is new, was scraped once on its job's URL and
      closed once, and no two are the same object. */
  ghost predicate BuiltPerJob(cls: ScraperClass, config: Config, prefix: string, jobs: seq<(string, string)>,
                              run: JobRun, scrapers: seq<Option<ScraperInstance>>, n: nat)
    reads set m | 0 <= m < |scrapers| && scrapers[m].Some? :: scrapers[m].value
    requires n <= |jobs|
  {
    && |scrapers| == n
    && (forall m :: 0 <= m < n ==> (scrapers[m].Some? <==> Builds(cls, config, run, m)))
    && (forall m :: 0 <= m < n && scrapers[m].Some? ==>
          scrapers[m].value.cls == cls && scrapers[m].value.config == config &&
          scrapers[m].value.calls == [One(prefix + jobs[m].1)] && scrapers[m].value.closeCount == 1)
    && (forall m, k :: 0 <= m < k < n && scrapers[m].Some? && scrapers[k].Some? ==>
          scrapers[m].value != scrapers[k].value)
  }

  /** `threaded_scrape_executor(scraper_cls, base_config, jobs, max_workers, url_prefix)`,
      with the jobs run as `run` says. Every worker runs, so every scraper built is
      scraped once and closed once, even when another worker's constructor raised and
      the call as a whole raises. */
  method ThreadedScrapeExecutor(cls: ScraperClass, config: Config, jobs: seq<(string, string)>,
                                maxWorkers: Option<int>, prefix: string, run: JobRun)
    returns (r: Outcome<seq<(string, seq<Product>)>>, ghost scrapers: seq<Option<ScraperInstance>>)
    requires RunFits(run, |jobs|)
    ensures r == ExecutorResult(cls, config, jobs, maxWorkers, prefix, run)
    ensures EffectiveWorkers(maxWorkers, |jobs|) <= 0 ==> scrapers == []
    ensures EffectiveWorkers(maxWorkers, |jobs|) > 0 ==> BuiltPerJob(cls, config, prefix, jobs, run, scrapers, |jobs|)
    ensures forall m :: 0 <= m < |scrapers| && scrapers[m].Some? ==> fresh(scrapers[m].value)
  {
    scrapers := [];
    if EffectiveWorkers(maxWorkers, |jobs|) <= 0 {
      return Err(PoolSizeError), scrapers;
    }
    var done;
    done, scrapers := RunWorkers(cls, config, prefix, jobs, run);
    PermutationBounds(run.arrival, |jobs|);
    ghost var arrived := Arrange(Finished(cls, config, prefix, jobs), run.arrival, ("", []));
    r := CollectInOrder(done, run.arrival, arrived);
    CollectedOutcome(cls, config, jobs, maxWorkers, prefix, run, done, r);
  }

  /** The collecting loop's outcome over the workers' futures is the reference result:
      the first failed future in completion order re-raises a constructor's exception,
      and otherwise the dict of every job's pair is returned. */
  lemma CollectedOutcome(cls: ScraperClass, config: Config, jobs: seq<(string, string)>,
                         maxWorkers: Option<int>, prefix: string, run: JobRun,
                         done: seq<Outcome<(string, seq<Product>)>>, r: Outcome<seq<(string, seq<Product>)>>)
    requires RunFits(run, |jobs|) && EffectiveWorkers(maxWorkers, |jobs|) > 0
    requires |done| == |jobs|
    requires forall m :: 0 <= m < |jobs| ==>
               done[m] == if Builds(cls, config, run, m) then Ok((jobs[m].0, JobItems(cls, config, prefix, jobs[m])))
                          else Err(ConstructorError)
    requires forall k :: 0 <= k < |run.arrival| ==> run.arrival[k] < |done|
    requires (forall k :: 0 <= k < |run.arrival| ==> done[run.arrival[k]].Ok?) ==>
               r == Ok(Collect(Arrange(Finished(cls, config, prefix, jobs), run.arrival, ("", []))))
    requires (exists k :: 0 <= k < |run.arrival| && done[run.arrival[k]].Err?) ==> r.Err?
    requires r.Err? ==> exists k :: 0 <= k < |run.arrival| && done[run.arrival[k]] == Err(r.error)
    ensures r == ExecutorResult(cls, config, jobs, maxWorkers, prefix, run)
  {
    if m :| 0 <= m < |jobs| && !Builds(cls, config, run, m) {
      PermutationCovers(run.arrival, |jobs|, m);
      var k :| 0 <= k < |run.arrival| && run.arrival[k] == m;
      assert done[run.arrival[k]].Err?;
    }
  }

  /** One worker per job, in submission order: the outcome each future holds and the
      scrapers the workers built. */
  method RunWorkers(cls: ScraperClass, config: Config, prefix: string, jobs: seq<(string, string)>, run: JobRun)
    returns (done: seq<Outcome<(string, seq<Product>)>>, ghost scrapers: seq<Option<ScraperInstance>>)
    requires |run.launched| == |jobs|
    ensures |done| == |jobs|
    ensures forall m :: 0 <= m < |jobs| ==>
              done[m] == if Builds(cls, config, run, m) then Ok((jobs[m].0, JobItems(cls, config, prefix, jobs[m])))
                         else Err(ConstructorError)
    ensures BuiltPerJob(cls, config, prefix, jobs, run, scrapers, |jobs|)
    ensures forall m :: 0 <= m < |scrapers| && scrapers[m].Some? ==> fresh(scrapers[m].value)
  {
    done, scrapers := [], [];
    for i := 0 to |jobs|
      invariant |done| == i
      invariant forall m :: 0 <= m < i ==>
                  done[m] == if Builds(cls, config, run, m) then Ok((jobs[m].0, JobItems(cls, config, prefix, jobs[m])))
                             else Err(ConstructorError)
      invariant BuiltPerJob(cls, config, prefix, jobs, run, scrapers, i)
      invariant forall m :: 0 <= m < |scrapers| && scrapers[m].Some? ==> fresh(scrapers[m].value)
    {
      var outcome, made := Worker(cls, config, prefix, jobs[i], run.launched[i]);
      done := done + [outcome];
      scrapers := scrapers + [made];
    }
  }

  /** The `as_completed` loop: store each finished pair in completion order; the first
      future that raised re-raises out of the loop. `arrived` names the pairs the
      futures hand back, in completion order. */
  method CollectInOrder(done: seq<Outcome<(string, seq<Product>)>>, arrival: seq<nat>,
                        ghost arrived: seq<(string, seq<Product>)>)
    returns (r: Outcome<seq<(string, seq<Product>)>>)
    requires |arrived| == |arrival|
    requires forall k :: 0 <= k < |arrival| ==> arrival[k] < |done|
    requires forall k :: 0 <= k < |arrival| && done[arrival[k]].Ok? ==> done[arrival[k]].value == arrived[k]
    ensures (forall k :: 0 <= k < |arrival| ==> done[arrival[k]].Ok?) ==> r == Ok(Collect(arrived))
    ensures (exists k :: 0 <= k < |arrival| && done[arrival[k]].Err?) ==> r.Err?
    ensures r.Err? ==> exists k :: 0 <= k < |arrival| && done[arrival[k]] == Err(r.error)
  {
    var results: seq<(string, seq<Product>)> := [];
    for k := 0 to |arrival|
      invariant results == Collect(arrived[..k])
      invariant forall m :: 0 <= m < k ==> done[arrival[m]].Ok?
    {
      var outcome := done[arrival[k]];
      if outcome.Err? {
        return Err(outcome.error);
      }
      assert arrived[..k + 1][..k] == arrived[..k];
      results := Assign(results, outcome.value.0, outcome.value.1);
    }
    assert arrived[..|arrival|] == arrived;
    r := Ok(results);
  }
}
