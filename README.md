# E-commerce scraping pipeline: a verified model

The system scrapes product listings from four stores: Amazon and eBay with a
browser, Micro Center with plain HTTP requests, and Newegg with a Scrapy spider.
It runs one scraper per registered source and one job per category, then merges
the records. It cleans and de-duplicates the merged records, stores them in two
tables keyed by URL, and computes statistics, trends and cross-source comparisons.

This project models each core file as one Dafny module and proves what each part
promises.

- **Orchestration.** These modules model the registry of scraper classes and the
  per-source job executor, which builds, scrapes and closes one scraper per job.
  They also model both orchestrators: the batch path with its category inference,
  the threaded path with its tagging, the merge, and per-source failure isolation.
- **Scrapers.** These modules model the control logic of the four scrapers:
  - the bounded retry loops of `fetch`, which stop early at a captcha;
  - the pagination loops and the page-URL rule;
  - the per-card keep/drop filters;
  - the small string-to-number helpers.
- **Data.** These modules model the cleaning pass, the data-quality report and the
  export dispatch. They also model the URL rule of the two table inserts, the
  unconfigured-session guards, and the recursive key rewrite that prepares results
  for JSON.
- **Analysis.** These modules model the statistics engine, the trend analyzer, the
  mutual-category comparison, and the analysis engine with its feature engineering.

Module layout (one file per module):

| file | module | models |
|---|---|---|
| common.dfy | Common | results and errors, string helpers, flattening, permutations, ordered key/value lists |
| scrapers.dfy | Scrapers | configuration sections, scraper classes and instances |
| factory.dfy | Factory | `ScraperFactory` |
| executor.dfy | Executor | `threaded_scrape_executor` |
| orchestrator.dfy | SequentialOrchestration | the older sequential orchestrator |
| scraper_orchestrator.dfy | ScraperOrchestration | `ScraperOrchestrator` |
| browser.dfy | Browser | the browser driver and the retry loop shared by the Selenium scrapers |
| selenium_scraper.dfy | Amazon | `AmazonSeleniumScraper` and its field helpers |
| ebay.dfy | Ebay | the eBay Selenium scraper |
| static_scraper.dfy | MicroCenter | `MicroCenterStaticScraper` |
| newegg.dfy | Newegg | the Newegg spider, its helpers and its Scrapy wrapper |
| frames.dfy | Frames | the tables pandas works on, masks, de-duplication, group keys |
| reductions.dfy | Reductions | sort, mean, minimum, maximum, median, quantiles, `describe()` |
| processors.dfy | Processing | `ProductDataProcessor` |
| database.dfy | Database | the persistence layer |
| statistics.dfy | Statistics | `StatisticsEngine` |
| trends.dfy | Trends | `TrendAnalyzer` |
| comparative.dfy | Comparative | `ComparativeAnalyzer` |
| analysis_engine.dfy | Analysis | `AnalysisEngine` |

Effects are turned into data:

- **Concurrency.** Thread and process pools become a completion order, which is
  any permutation of the jobs. Each job's worker calls the scraper constructor
  itself, so whether that call gets its browser or session started is one boolean
  per job: one worker's launch can fail while the others succeed.
- **Browser and fetchers.**
  - A browser is two functions: what attempt `n` at loading a URL gives, and what
    the `n`-th page reached from a category URL shows.
  - An HTTP fetcher is a sequence of attempt outcomes.
  - The Scrapy engine is a sequence of responses.
- **Exceptions.** Each raised exception becomes the `Err` arm of an outcome
  (`Outcome<T>`), carrying the exception's class and message.
- **Objects.** Objects whose fields the source updates are Dafny classes, and
  their methods carry `modifies` clauses:
  - the factory registry;
  - scraper instances, which count their `close()` calls;
  - the drivers;
  - the spider;
  - the processor;
  - the database store;
  - the analysis engine.

## Notes on the code

The model follows the code wherever the code and its documentation or tests
disagree:

- **Batch path does not close.** On the batch path, the scraper built for a
  source is never closed (src/pipeline/scraper_orchestrator.py:55-69). Only the
  threaded path's executor closes its scrapers.
- **Empty paths match URL-less records.** During category inference, a record
  without a URL is read as the empty string. A configured category whose path is
  empty therefore still matches it (src/pipeline/scraper_orchestrator.py:62-63).
- **Grouped median never added.** `by_source` and `by_category` test
  `isinstance(desc[k], dict)`. The unstacked `to_dict()` gives float values there,
  so the `median` patch never applies, and the grouped statistics carry only the
  `describe()` statistics (src/analysis/statistics.py:34-36, 47-49).
- **Statistics tests disagree with the code.** tests/unit/analysis/test_statistics_engine.py
  expects three things the code does not do:
  - Lines 95-104 expect `summary()` to describe non-numeric columns, but
    statistics.py:17-19 gives `{}`.
  - Lines 95-104 also expect `{}` from the grouped statistics without a grouping
    column, but statistics.py:29-31 raises `KeyError` once a numeric field is present.
  - Lines 56-64 expect `unique_counts()` to report price and rating as well, but
    statistics.py:70-72 counts only the category and source columns.

  The model follows statistics.py.
- **Amazon rating is a float.** utils/unit/test_selenium_scraper.py:59 expects
  the rating string `"4.5"`. `clean_product_fields` turns it into a number, and
  the model follows the code.
- **Zero categories raise.** `threaded_scrape_executor` sizes its pool as
  `max_workers or len(jobs)`. A source with an empty `categories` section asks
  for a pool of size 0, which raises `ValueError`.
  - The older sequential orchestrator has no `try`, so that error escapes
    `run_all` (`SequentialOrchestration.ZeroCategoriesRaise`).
  - The newer orchestrator passes `len(categories) + 2`, so it never asks for
    an empty pool.

## Model

| member | source | states |
|---|---|---|
| Common.Lower | src/scrapers/factory.py:11 | `str.lower()` keeps the length and lowers each character on its own |
| Common.LowerIdempotent | src/data/processors.py:29-31 | lowering twice is lowering once |
| Common.LowerWithoutCapitals | src/scrapers/factory.py:11 | a name without capitals is its own lower-case form |
| Common.ContainsIff | src/scrapers/selenium/ebay_selenium_scraper.py:129-130 | `sub in s` holds exactly when `sub` occurs in `s` at some position |
| Common.StripTrimmed | src/scrapers/selenium_scraper.py:76-80 | `strip()` returns a slice of its input that neither starts nor ends with whitespace |
| Common.Remove | src/scrapers/selenium_scraper.py:71 | `replace(c, '')` keeps every other character and no `c` |
| Common.RemoveConcat | src/scrapers/selenium_scraper.py:71 | removing a character from a concatenation removes it from each part |
| Common.CleanPriceText | src/scrapers/selenium_scraper.py:69-71 | the price text handed to `float()` holds exactly the digits and dots of the scraped text |
| Common.ParseIntRoundTrip | src/scrapers/selenium_scraper.py:82 | `int(str(i)) == i` for every integer |
| Common.ParseIntRejects | src/scrapers/selenium_scraper.py:82 | `int()` rejects the empty string, a non-digit after the first character and a first character that is neither a sign nor a digit |
| Common.FlattenPermutation | src/pipeline/scraper_orchestrator.py:110-114 | concatenating the same lists of products in any order collects the same products |
| Common.ArrangePermutation | src/utils/executor.py:46-48 | whatever order the jobs complete in, the same results are collected |
| Frames.MissingColumn | src/analysis/comparative.py:45 | no column is missing exactly when every name is a column; otherwise the named one is missing |
| Frames.WhereMembers | src/analysis/comparative.py:32 | a boolean mask keeps exactly the rows that satisfy it, and never more rows |
| Frames.WhereInOrder | src/analysis/comparative.py:32 | a boolean mask keeps the rows in their order |
| Frames.KeepFirstDistinct | src/data/processors.py:32 | after `drop_duplicates(subset=['url'])` no two rows share a url |
| Frames.KeepFirstRows | src/data/processors.py:32 | de-duplication keeps only rows of the frame |
| Frames.KeepFirstValues | src/data/processors.py:32 | de-duplication keeps every url value of the frame and adds none |
| Frames.KeepFirstKeepsFirst | src/data/processors.py:32 | the first row with each url is the one kept |
| Frames.KeepFirstInOrder | src/data/processors.py:32 | de-duplication keeps the rows in their order |
| Frames.DedupSpec | src/analysis/statistics.py:72 | the distinct values, each once and none added |
| Frames.GroupsSpec | src/analysis/trends.py:29 | `groupby([a, b])` has one group per key a row carries with neither cell null, none repeated and no other |
| Reductions.Numbers | src/analysis/statistics.py:21 | the numbers of a column are those of its numeric cells, at most one per cell |
| Reductions.SortSpec | src/analysis/statistics.py:21-24 | the sort behind the median and the quartiles is sorted and a permutation of its input |
| Reductions.MeanBounds | src/analysis/trends.py:29 | a mean lies between the minimum and the maximum |
| Reductions.QuantileBounds | src/analysis/analysis_engine.py:145 | every linearly interpolated quantile lies between the minimum and the maximum |
| Reductions.QuantileEnds | src/analysis/analysis_engine.py:150-152 | the 0 quantile is the minimum and the 1 quantile the maximum, the outer `qcut` edges |
| Reductions.QuantileConstant | src/analysis/analysis_engine.py:141-147 | for a single repeated value every quantile and the median are that value |
| Reductions.MedianIsHalfQuantile | src/analysis/statistics.py:24 | the median is the 0.5 quantile |
| Reductions.DescribeKeys | src/analysis/statistics.py:21 | `describe()` reports the eight statistics count, mean, std, min, 25%, 50%, 75% and max, and its count is 0 exactly when the column holds no number |
| Reductions.DescribeMedian | src/analysis/statistics.py:21-24 | the `50%` of `describe()` is the median |
| Reductions.DescribeQuartiles | src/analysis/statistics.py:21 | with a number present, min <= 25% <= max and min <= 75% <= max |
| Scrapers.GetConfig | src/utils/config.py:33-43 | a section the file does not have yields the empty configuration; with distinct section names, a present section is returned as stored |
| Scrapers.ScraperClass.constructor | src/scrapers/base_scraper.py:4-28 | a scraper class is its name, whether it is a Scrapy spider, whether its constructor accepts a configuration, and what `scrape` returns or raises |
| Scrapers.ScraperInstance.constructor | src/utils/executor.py:27 | an instance built from a class and a configuration starts with no `scrape` call and no `close` |
| Scrapers.ScraperInstance.Scrape | src/scrapers/base_scraper.py:23-28 | returns the class's `scrape` outcome for the instance's configuration and target, records the call and leaves the close count alone |
| Scrapers.ScraperInstance.Close | src/utils/executor.py:37-38 | raises the close count by one and records no call |
| Scrapers.Instantiate | src/utils/executor.py:27 | `scraper_cls(config)` succeeds exactly when the class accepts the configuration and this call's browser or session start succeeds, giving a fresh untouched instance of that class; otherwise it raises the constructor's exception |
| Executor.Finished | src/utils/executor.py:26-36 | one `(job_name, items)` pair per job, in submission order, carrying that job's own items |
| Executor.CollectKeys | src/utils/executor.py:46-48 | the results dict built by storing the arrived pairs holds each arrived name exactly once and no other name |
| Executor.CollectLookup | src/utils/executor.py:46-48 | a name whose every arrival carried the same items maps to those items in the results dict |
| Executor.ExecutorErrors | src/utils/executor.py:27-48 | the executor raises exactly in two cases: a pool size below one (`max_workers` missing or 0 and no jobs, or negative), and, with a pool, some job whose own constructor call fails (the class refuses the configuration or that call's launch fails); nothing else escapes |
| Executor.FinishedKeys | src/utils/executor.py:42-45 | the finished pairs carry the job names in job order |
| Executor.CollectPermutedKeys | src/utils/executor.py:46-48 | whatever order the pairs arrive in, the results dict's keys are the job names, each once |
| Executor.ExecutorKeys | src/utils/executor.py:40-49 | for every completion order of the futures, the returned dict's keys are exactly the job names, without repetition |
| Executor.ExecutorLookup | src/utils/executor.py:26-49 | with distinct job names and any completion order, each job name maps to its own job's items, and to `[]` when its `scrape` raised |
| Executor.Worker | src/utils/executor.py:26-38 | builds the job's own scraper outside the `try`, so a failed constructor call is the worker's exception and builds nothing; otherwise it scrapes `url_prefix + job_path` once, turns a scrape exception into `[]`, and closes the scraper exactly once |
| Executor.RunWorkers | src/utils/executor.py:41-45 | every job is run by its own worker with its own constructor call: job `m`'s future fails exactly when that call fails; each job whose call succeeded has a distinct fresh scraper, scraped once on its URL and closed once, and a job whose call failed has none |
| Executor.ThreadedScrapeExecutor | src/utils/executor.py:4-49 | the executor's return value or exception equals the reference `ExecutorResult` for the given completion order and per-job launches, so it raises exactly when some job's constructor call raises; every scraper built, one per job whose call succeeded, was scraped once on its own URL and closed exactly once |
| Executor.CollectInOrder | src/utils/executor.py:46-48 | storing results in completion order gives the dict of all arrived pairs when no future raised, and re-raises the error of a future that raised otherwise |
| Factory.ScraperFactory.constructor | src/scrapers/factory.py:1-2 | the registry starts empty, and with distinct lower-case keys |
| Factory.ScraperFactory.Register | src/scrapers/factory.py:4-14 | stores the class under `key.lower()`, replacing an earlier class with that key in place, hands the class back unchanged, and keeps the keys distinct and lower-case |
| Factory.ScraperFactory.Get | src/scrapers/factory.py:21 | the raw registry lookup is absent exactly for a key that was never stored, and otherwise returns the class stored with that key |
| Factory.ScraperFactory.CreateScraper | src/scrapers/factory.py:16-24 | a key whose lower-case form is not registered raises a ValueError naming the key; otherwise the registered class's constructor runs on the configuration, and succeeds exactly when the class accepts it and the call's launch succeeds, returning a fresh instance, or else raising the constructor's exception |
| Factory.ScraperFactory.AvailableScrapers | src/scrapers/factory.py:26-31 | lists every registered key exactly once, in registration order, each lower-case; a name is listed iff it is registered |
| Factory.ScraperFactory.RegisterShown | src/scrapers/selenium/ebay_selenium_scraper.py:89 | the two decorators in the modelled modules (eBay, then Newegg) leave exactly `["ebay", "newegg"]` registered, and no `amazon` entry |
| SequentialOrchestration.SourceOutcomes | src/pipeline/orchestrator.py:20-36 | one outcome per table entry, in table order, each being that source's own step |
| SequentialOrchestration.ErrorPersists | src/pipeline/orchestrator.py:18-38 | once a step has raised, no later step changes the run's outcome: it raises that same error |
| SequentialOrchestration.ConcatenatedOk | src/pipeline/orchestrator.py:18-38 | the run returns a list exactly when every source's step succeeds |
| SequentialOrchestration.ConcatenatedValue | src/pipeline/orchestrator.py:32-38 | a successful run returns the sources' product lists concatenated in table order |
| SequentialOrchestration.ConcatenatedStep | src/pipeline/orchestrator.py:32-36 | one more step either ends the run with that step's exception or appends that step's list to the products so far |
| SequentialOrchestration.ConcatenatedErr | src/pipeline/orchestrator.py:18-38 | a failing run raises the error of its first failing step, every earlier step having succeeded |
| SequentialOrchestration.SourceTagging | src/pipeline/orchestrator.py:32-36 | every product a source contributes carries that source's name and one of its configured category names |
| SequentialOrchestration.ZeroCategoriesRaise | src/pipeline/orchestrator.py:25-31 | a source configured with no categories asks the executor for zero workers, which raises, and the whole run raises |
| SequentialOrchestration.RunSource | src/pipeline/orchestrator.py:21-36 | one loop iteration: a missing `categories` or `base_url` raises a KeyError, an executor exception propagates, and otherwise the tagged products of every job are returned |
| SequentialOrchestration.SequentialOrchestrator.constructor | src/pipeline/orchestrator.py:12-16 | the scraper table holds only the Amazon browser scraper |
| SequentialOrchestration.SequentialOrchestrator.RunAll | src/pipeline/orchestrator.py:18-38 | the run's value or exception equals the reference `SequentialResult`: all products in table order, or the first exception |
| ScraperOrchestration.InferCategoryFirstMatch | src/pipeline/scraper_orchestrator.py:62-64 | the inferred category is the first configured one whose path occurs in the product's URL, and there is none exactly when no configured path occurs in it |
| ScraperOrchestration.InferCategoryWithoutUrl | src/pipeline/scraper_orchestrator.py:63 | a product without a URL is matched against the empty string, so with no empty path configured it gets no category |
| ScraperOrchestration.RunScraperOutcomes | src/pipeline/scraper_orchestrator.py:46-85 | an unregistered name yields `[]`; a section without `categories` or without `base_url` raises that KeyError; the batch path never raises; the threaded path raises a constructor's exception exactly when some category job's own constructor call fails; nothing else escapes |
| ScraperOrchestration.BatchTagging | src/pipeline/scraper_orchestrator.py:55-69 | on the batch path the output has one product per scraped item, each with the source set and its title, price and URL kept; a missing or empty category is replaced by the inferred one and a non-empty one is kept; a constructor or `scrape` exception yields `[]` |
| ScraperOrchestration.CategoryUrlsInOrder | src/pipeline/scraper_orchestrator.py:56 | the batch call receives `base_url + path` for every category, in configuration order |
| ScraperOrchestration.TagResultsFacts | src/pipeline/scraper_orchestrator.py:78-85 | the threaded path returns as many products as the per-job lists hold together, each tagged with the source and with the name of the job it came from |
| ScraperOrchestration.TagResultsSplit | src/pipeline/scraper_orchestrator.py:79-83 | flattening the results dict distributes over its items: the products of two parts of the dict are those of each part, concatenated |
| ScraperOrchestration.ThreadedTagging | src/pipeline/scraper_orchestrator.py:71-85 | on the threaded path, for every completion order, each product's category is one of the configured category names and its source is the scraper's name |
| ScraperOrchestration.TagJobItems | src/pipeline/scraper_orchestrator.py:80-83 | one job's products, each with source and category overwritten, in order |
| ScraperOrchestration.TagAll | src/pipeline/scraper_orchestrator.py:78-83 | the loops over the results dict produce the reference flattening `TagResults` |
| ScraperOrchestration.SourceResults | src/pipeline/scraper_orchestrator.py:106-114 | one contribution per registered source, in registration order: its product list, or `[]` when it raised |
| ScraperOrchestration.Merge | src/pipeline/scraper_orchestrator.py:110-114 | taking the finished sources in completion order and extending with each successful list gives the contributions, arranged in that order, concatenated |
| ScraperOrchestration.ScraperOrchestrator.constructor | src/pipeline/scraper_orchestrator.py:25-28 | the orchestrator keeps the loaded sections and the registry's names as they are when it is built |
| ScraperOrchestration.ScraperOrchestrator.RunBatch | src/pipeline/scraper_orchestrator.py:55-69 | the batch path builds one instance, calls `scrape` once with every category URL, never closes it, and returns the reference `BatchResult` |
| ScraperOrchestration.ScraperOrchestrator.RunScraper | src/pipeline/scraper_orchestrator.py:30-85 | `_run_scraper` returns or raises exactly what the reference `RunScraperResult` gives for that name, its jobs' completion order and their per-job launches |
| ScraperOrchestration.ScraperOrchestrator.RunAll | src/pipeline/scraper_orchestrator.py:87-115 | a `max_workers` below one raises the process pool's `ValueError` before any source runs; otherwise every source runs; the result is the per-source contributions concatenated in completion order, so as a multiset it is the same for every completion order; a failing source adds nothing and does not stop the others; no sources give `[]` |
| Browser.FetchFromSpec | src/scrapers/selenium_scraper.py:179-206 | the retry loop raises exactly when every attempt up to `retries` failed off a captcha page; otherwise it returns the page of the first attempt that loaded or hit a captcha, or, with no attempt to make, the page the driver already shows |
| Browser.CaptchaStopsAtOnce | src/scrapers/selenium_scraper.py:191-195 | a captcha on the first attempt ends the loop at once with that page, however many retries were allowed |
| Browser.VisitedBound | src/scrapers/selenium_scraper.py:240 | a page loop parses at most `max_pages` pages |
| Browser.VisitedAll | src/scrapers/selenium_scraper.py:240-276 | when no product wait ends the loop and every next-click before the last page works, all `max_pages` pages are parsed |
| Browser.VisitedStopsAtClick | src/scrapers/selenium_scraper.py:258-276 | with product waits not ending the loop, it stops on the first page before the last whose next-click fails, that page included |
| Browser.PagesFromVisited | src/scrapers/selenium_scraper.py:252-255 | a page loop's products are the products of the pages it visits, concatenated in page order |
| Browser.Session.constructor | src/scrapers/selenium_scraper.py:149-158 | the scraper's constructor starts one driver, which is then live |
| Browser.Session.Fetch | src/scrapers/selenium_scraper.py:179-206 | `fetch` returns or raises the reference `FetchResult`; each retry quits the driver and starts a new one, so a live driver stays live; at most `retries` loads are tried |
| Browser.Session.Quit | src/scrapers/selenium_scraper.py:289-290 | quitting counts one more quit and changes nothing else |
| Amazon.ExtractRatingSpec | src/scrapers/selenium_scraper.py:20-34 | a rating is found exactly when the star text or the small span's text starts with a digit or a dot; it is the star text's whole leading number when that starts with one, else the small text's |
| Amazon.ExtractRatingShape | src/scrapers/selenium_scraper.py:26-28 | every extracted rating is a non-empty run of digits and dots |
| Amazon.StripParens | src/scrapers/selenium_scraper.py:118 | `strip("()")` leaves a text that neither starts nor ends with a parenthesis and is no longer than before |
| Amazon.CleanReviewCountSpec | src/scrapers/selenium_scraper.py:79-84 | commas in a review count are ignored, a written integer reads back as itself, a present count never becomes `None` and a missing one stays missing |
| Amazon.CleanReviewCountUnreadable | src/scrapers/selenium_scraper.py:81-84 | a count that starts with anything but a digit, a sign, a comma or whitespace is no integer and becomes 0 |
| Amazon.CleanReviewCountGrouped | src/scrapers/selenium_scraper.py:80-82 | digits with a thousands comma count as the digits alone ("1,234" is 1234) |
| Amazon.CleanReviewCountDigits | src/scrapers/selenium_scraper.py:80-82 | a count that is digits once its commas go counts those digits |
| Amazon.Clean | src/scrapers/selenium_scraper.py:66-85 | cleaning copies title, URL and image, converts the review count by the count rule and sets neither source nor category |
| Amazon.ParsedCardsSound | src/scrapers/selenium_scraper.py:214-219 | every product `parse` keeps has all six fields truthy and is the parsed product of one of the page's cards |
| Amazon.ParsedCardsComplete | src/scrapers/selenium_scraper.py:216-219 | every card whose parsed product has all fields truthy is kept |
| Amazon.UnreadableCountDropped | src/scrapers/selenium_scraper.py:79-84 | a product whose review count is missing or is no integer (so counts 0) is dropped by the all-truthy filter |
| Amazon.AmazonScraper.constructor | src/scrapers/selenium_scraper.py:142-150 | `max_retries` defaults to 3, `base_url`, `categories`, `max_pages` and `delay` are taken from the configuration, and one live driver with Amazon's captcha markers is started |
| Amazon.AmazonScraper.Fetch | src/scrapers/selenium_scraper.py:179-206 | `fetch` with an explicit count, or `max_retries` for `None`, returns the reference `FetchResult` and keeps the driver live |
| Amazon.AmazonScraper.FetchDefault | src/scrapers/selenium_scraper.py:179 | `fetch(url)` makes three attempts, whatever `max_retries` says |
| Amazon.AmazonScraper.Parse | src/scrapers/selenium_scraper.py:208-221 | `parse` returns the reference `ParsedCards`: each card's cleaned product, kept when all its fields are truthy, in page order |
| Amazon.AmazonScraper.ScrapeCategory | src/scrapers/selenium_scraper.py:223-279 | the page loop returns the reference `PagesFrom`: pages in order until a product wait fails, a next-click fails or `max_pages` (a falsy argument meaning the instance's) is reached |
| Amazon.AmazonScraper.Scrape | src/scrapers/selenium_scraper.py:281-287 | `scrape(url)` is the page loop with the instance's page limit |
| Amazon.AmazonScraper.Close | src/scrapers/selenium_scraper.py:289-291 | `close` quits the driver once |
| Ebay.TitleSpec | src/scrapers/selenium/ebay_selenium_scraper.py:42-47 | a title is kept exactly when the tag's text is non-empty and does not mention `results for`, and it is then that text |
| Ebay.ParseProductFields | src/scrapers/selenium/ebay_selenium_scraper.py:30-78 | rating and review count are the placeholder -1, URL and image are the found attributes, a kept title is the tag text, and a missing price text gives no price |
| Ebay.ParsedCardsSound | src/scrapers/selenium/ebay_selenium_scraper.py:160-169 | every product `parse` keeps has a non-empty title without `results for` and is the parsed product of one of the page's cards |
| Ebay.ParsedCardsComplete | src/scrapers/selenium/ebay_selenium_scraper.py:164-167 | every card with a title is kept, and the page yields no more products than cards |
| Ebay.EbayCaptchaIgnoresCase | src/scrapers/selenium/ebay_selenium_scraper.py:126-132 | the page-source captcha markers are matched regardless of letter case |
| Ebay.EbayRunEnds | src/scrapers/selenium/ebay_selenium_scraper.py:171-203 | because the product wait swallows its timeout, a category run ends only at the page limit or at the first page whose next-click fails, and its products are those of the pages visited, in order |
| Ebay.EbayScraper.constructor | src/scrapers/selenium/ebay_selenium_scraper.py:100-116 | `max_retries` defaults to 3, `base_url`, `categories`, `max_pages` and `delay` are taken from the configuration, and one live driver with eBay's captcha test is started |
| Ebay.EbayScraper.Fetch | src/scrapers/selenium/ebay_selenium_scraper.py:134-158 | `fetch` with `None`, its default, makes `max_retries` attempts, and returns the reference `FetchResult`, keeping the driver live |
| Ebay.EbayScraper.Parse | src/scrapers/selenium/ebay_selenium_scraper.py:160-169 | `parse` returns the reference `ParsedCards`: each card's product, kept when it has a title, in page order |
| Ebay.EbayScraper.ScrapeCategory | src/scrapers/selenium/ebay_selenium_scraper.py:171-203 | the page loop parses every page, loaded or not, until a next-click fails or `max_pages` (a falsy argument meaning the instance's) is reached |
| Ebay.EbayScraper.Scrape | src/scrapers/selenium/ebay_selenium_scraper.py:205-207 | `scrape(url)` is the page loop with the instance's page limit |
| Ebay.EbayScraper.Close | src/scrapers/selenium/ebay_selenium_scraper.py:209-211 | `close` quits the driver once |
| MicroCenter.FetchFromSpec | src/scrapers/static_scraper.py:30-53 | `fetch` returns the body of the first attempt answered with status 200, and raises a RuntimeError naming the retry count and the URL exactly when none of the `max_retries` attempts is |
| MicroCenter.ParsedCardsSound | src/scrapers/static_scraper.py:55-64 | every kept product has a non-empty title, a price and the fixed -1 rating and review count; a page yields no more products than cards |
| MicroCenter.ParsedCardsComplete | src/scrapers/static_scraper.py:59-62 | every card whose product has a title and a price is kept |
| MicroCenter.EmptyTitleDropped | src/scrapers/static_scraper.py:61 | a card whose link has no text is dropped, whatever its price |
| MicroCenter.PageUrlRule | src/scrapers/static_scraper.py:125-129 | page 1 is the category URL itself; a later page appends `&page=N` on search-result URLs and `?page=N` elsewhere, `N` reading back as the page number |
| MicroCenter.PagesFromFiltered | src/scrapers/static_scraper.py:118-138 | every product of a successful category run passed the page filter |
| MicroCenter.PagesFromEdges | src/scrapers/static_scraper.py:123-130 | a run with no page to visit returns `[]` without fetching, and one whose first page cannot be fetched raises that fetch's RuntimeError |
| MicroCenter.MicroCenterScraper.constructor | src/scrapers/static_scraper.py:19-28 | `base_url` and `categories` are required; `max_retries` defaults to 3, `max_pages` to 1 and `delay` to 1; the session is open |
| MicroCenter.MicroCenterScraper.Fetch | src/scrapers/static_scraper.py:30-53 | `fetch` returns or raises the reference `FetchResult`, sends at most `max_retries` requests, and a returned body is that of a 200 answer |
| MicroCenter.MicroCenterScraper.Parse | src/scrapers/static_scraper.py:55-64 | `parse` returns the reference `ParsedCards`: the products with a title and a price, in card order |
| MicroCenter.MicroCenterScraper.ScrapeCategory | src/scrapers/static_scraper.py:118-138 | the page loop returns or raises the reference `PagesFrom`: pages fetched in order up to `max_pages` (a falsy argument meaning the instance's), stopping after the first empty page, a failed fetch ending the call |
| MicroCenter.MicroCenterScraper.Scrape | src/scrapers/static_scraper.py:115-116 | `scrape(url)` is the page loop with the instance's page limit |
| MicroCenter.MicroCenterScraper.Close | src/scrapers/static_scraper.py:140-141 | `close` closes the session |
| Newegg.RatingDigits | src/scrapers/scrapy_crawler/newegg_crawler/spriders/newegg_scrapy.py:31 | the captured rating group consists of digits only |
| Newegg.FirstRatingLeftmost | src/scrapers/scrapy_crawler/newegg_crawler/spriders/newegg_scrapy.py:31-32 | the search finds no rating exactly when no `rating-<digit>` occurs from the start position on, and otherwise reads the whole digit run of the leftmost occurrence |
| Newegg.ParseRatingSpec | src/scrapers/scrapy_crawler/newegg_crawler/spriders/newegg_scrapy.py:29-32 | `parse_rating` is the value of the digits after the leftmost `rating-<digits>`, and `None` exactly when there is no input or no such match |
| Newegg.ParseRatingExamples | src/scrapers/scrapy_crawler/newegg_crawler/spriders/newegg_scrapy.py:29-32 | `rating-5` reads 5, `rating-10 xyz` reads 10, and a class without the marker or no class reads `None` |
| Newegg.CountGroup | src/scrapers/scrapy_crawler/newegg_crawler/spriders/newegg_scrapy.py:37 | the captured review-count group consists of digits and commas only |
| Newegg.FirstCount | src/scrapers/scrapy_crawler/newegg_crawler/spriders/newegg_scrapy.py:37 | the first parenthesised group found consists of digits and commas only |
| Newegg.CountDigits | src/scrapers/scrapy_crawler/newegg_crawler/spriders/newegg_scrapy.py:38 | a group with its commas removed consists of digits only |
| Newegg.ParseReviewCountAsWritten | src/scrapers/scrapy_crawler/newegg_crawler/spriders/newegg_scrapy.py:35-38 | the helper as written raises only the `ValueError` of `int('')` |
| Newegg.ReviewCountCommasOnly | src/scrapers/scrapy_crawler/newegg_crawler/spriders/newegg_scrapy.py:35-38 | as written, the review-count text `(,)` matches the pattern and then `int('')` raises |
| Newegg.FirstNumericCountAgrees | src/scrapers/scrapy_crawler/newegg_crawler/spriders/newegg_scrapy.py:37-38 | where the first group holds a digit, the corrected search finds that same group's number, and where there is no group it finds none |
| Newegg.ParseReviewCountAgrees | src/scrapers/scrapy_crawler/newegg_crawler/spriders/newegg_scrapy.py:35-38 | wherever the helper as written returns, the corrected helper returns the same value |
| Newegg.ParseReviewCountThousands | src/scrapers/scrapy_crawler/newegg_crawler/spriders/newegg_scrapy.py:37-38 | `(1,234)` reads 1234: thousands separators are dropped |
| Newegg.ThousandsDigits | src/scrapers/scrapy_crawler/newegg_crawler/spriders/newegg_scrapy.py:38 | the group `1,234` without its comma is `1234`, whose value is 1234 |
| Newegg.ParseReviewCountPlain | src/scrapers/scrapy_crawler/newegg_crawler/spriders/newegg_scrapy.py:37-38 | `(56)` reads 56 |
| Newegg.ParseReviewCountNone | src/scrapers/scrapy_crawler/newegg_crawler/spriders/newegg_scrapy.py:35-38 | a text without a parenthesised count, the empty text, and (corrected) `(,)` read `None` |
| Newegg.FirstNumericCountAbsent | src/scrapers/scrapy_crawler/newegg_crawler/spriders/newegg_scrapy.py:37-38 | a text without an opening parenthesis holds no count |
| Newegg.KeptCardsSound | src/scrapers/scrapy_crawler/newegg_crawler/spriders/newegg_scrapy.py:122-161 | every record appended comes from a card with a title and a URL, the page yields no more records than cards |
| Newegg.CardProductFields | src/scrapers/scrapy_crawler/newegg_crawler/spriders/newegg_scrapy.py:151-160 | a kept card's record has the stripped title, the card's URL, the page's category and no source |
| Newegg.KeptCardsComplete | src/scrapers/scrapy_crawler/newegg_crawler/spriders/newegg_scrapy.py:151-161 | every card with a title and a URL gives a record |
| Newegg.KeptCardsNonEmpty | src/scrapers/scrapy_crawler/newegg_crawler/spriders/newegg_scrapy.py:151-165 | a page yields records exactly when one of its cards has a title and a URL |
| Newegg.NonOkResponse | src/scrapers/scrapy_crawler/newegg_crawler/spriders/newegg_scrapy.py:95-98 | a response whose status is not 200 appends nothing and requests nothing |
| Newegg.NextRequestRule | src/scrapers/scrapy_crawler/newegg_crawler/spriders/newegg_scrapy.py:165-193 | a next page is requested exactly when the response is a 200, its page number is below `max_pages`, a record was kept and a next link exists; it carries the same category and the next page number, which stays within the limit |
| Newegg.NeweggSpider.constructor | src/scrapers/scrapy_crawler/newegg_crawler/spriders/newegg_scrapy.py:64-72 | the spider keeps its start URLs, results list and page limit, a missing category map is `{}`, and no request has been counted |
| Newegg.NeweggSpider.StartRequests | src/scrapers/scrapy_crawler/newegg_crawler/spriders/newegg_scrapy.py:74-89 | one first-page request per start URL, in order, each with that URL's category or `unknown` |
| Newegg.NeweggSpider.Parse | src/scrapers/scrapy_crawler/newegg_crawler/spriders/newegg_scrapy.py:91-193 | counts the response, appends exactly the page's records (none for a non-200 response or a page without cards) and yields the reference `NextRequest` |
| Newegg.CardsBeforeRaise | src/scrapers/scrapy_crawler/newegg_crawler/spriders/newegg_scrapy.py:123-147 | the cards before the first one whose review-count text raises all read, and the card at that position, if any, raises |
| Newegg.KeptCardsPrefix | src/scrapers/scrapy_crawler/newegg_crawler/spriders/newegg_scrapy.py:122-161 | the records of the first cards of a page begin the records of the whole page |
| Newegg.ParseAsWrittenAgrees | src/scrapers/scrapy_crawler/newegg_crawler/spriders/newegg_scrapy.py:91-193 | `parse` as written appends a prefix of the corrected records; it raises exactly when a 200 page has a card whose count text raises; otherwise it appends the same records and yields the same next request as the corrected spider |
| Newegg.CommasCardDropsPage | src/scrapers/scrapy_crawler/newegg_crawler/spriders/newegg_scrapy.py:35-38 | as written, a page whose first card reads `(,)` appends no record and raises, where the corrected spider appends both records and requests the next page |
| Newegg.NeweggSpider.AppendCardsAsWritten | src/scrapers/scrapy_crawler/newegg_crawler/spriders/newegg_scrapy.py:122-161 | the card loop as written appends the kept cards' records up to the first raising card and reports whether such a card was met |
| Newegg.NeweggSpider.ParseAsWritten | src/scrapers/scrapy_crawler/newegg_crawler/spriders/newegg_scrapy.py:91-193 | `parse` as written counts the response, appends the records before the first raising card, and ends with that card's `ValueError` or with the follow-up request |
| Newegg.UrlToCategoryKeys | src/scrapers/scrapy_crawler/newegg_crawler/spriders/newegg_scrapy.py:222-223 | the URL-to-category map has distinct keys, which are exactly the start URLs |
| Newegg.UrlToCategoryLookup | src/scrapers/scrapy_crawler/newegg_crawler/spriders/newegg_scrapy.py:222 | a start URL maps to the last category whose path gives it |
| Newegg.StartRequestCategories | src/scrapers/scrapy_crawler/newegg_crawler/spriders/newegg_scrapy.py:78 | with distinct category paths every start request carries its own category's name |
| Newegg.CrawlProductsFacts | src/scrapers/scrapy_crawler/newegg_crawler/spriders/newegg_scrapy.py:246-257 | every record of the crawl comes from a delivered 200 response and carries the category that response resolved to |
| Newegg.NeweggScraper.constructor | src/scrapers/scrapy_crawler/newegg_crawler/spriders/newegg_scrapy.py:210-211 | the scraper keeps its configuration and has run no crawl |
| Newegg.NeweggScraper.Scrape | src/scrapers/scrapy_crawler/newegg_crawler/spriders/newegg_scrapy.py:219-257 | the URL argument is ignored; a missing `base_url` with categories raises a KeyError; otherwise the start URLs are `base_url` plus each path, the page limit defaults to 5, every delivered response is parsed once, and the records appended are returned |
| Newegg.CrawlAsWrittenAgrees | src/scrapers/scrapy_crawler/newegg_crawler/spriders/newegg_scrapy.py:246-257 | as written the crawl never has more records than the corrected one, and has the same records when no delivered card's count text raises |
| Newegg.ScrapeAsWrittenAgrees | src/scrapers/scrapy_crawler/newegg_crawler/spriders/newegg_scrapy.py:219-257 | the scrape as written fails exactly when the corrected one does, and otherwise returns no more records |
| Newegg.NeweggScraper.ScrapeAsWritten | src/scrapers/scrapy_crawler/newegg_crawler/spriders/newegg_scrapy.py:219-257 | `scrape` as written returns the reference `ScrapeResultAsWritten`: a page whose callback raised keeps its earlier records and the crawl goes on |
| Newegg.NeweggScraper.Fetch | src/scrapers/scrapy_crawler/newegg_crawler/spriders/newegg_scrapy.py:213-214 | `fetch(urls)` is `scrape(urls)` |
| Processing.Numeric | src/data/processors.py:23 | coercion gives a number or a null, never text |
| Processing.Truncate | src/data/processors.py:27 | `astype(int)` cuts the fraction off towards zero: the whole number lies within one of the value, on the side of zero |
| Processing.SetColumn | src/data/processors.py:23-31 | assigning a converted column changes that column in every row and nothing else, keeping the row count |
| Processing.ConvertedRows | src/data/processors.py:23-31 | converting the frame column by column is converting each row on its own, keeping the row count |
| Processing.CleanedFails | src/data/processors.py:22-31 | cleaning raises exactly when title, price or url is not a column, which is a KeyError naming a missing one, or when the complete rows' source or category column has a non-null cell and only numbers or only booleans, which is the `.str` accessor's AttributeError; a cleaned frame keeps its columns |
| Processing.RefusedOnInput | src/data/processors.py:23-31 | the numeric conversions and the source lowering leave the source and category cells alone, so `.str` judges the complete input rows' own cells |
| Processing.NumericSourceRefused | src/data/processors.py:28-29 | a frame whose one complete row has a number as its source makes cleaning raise the `.str` AttributeError |
| Processing.SetColumnOther | src/data/processors.py:23-31 | assigning one column leaves every other column's cells as they were |
| Processing.NumberedKeeps | src/data/processors.py:23-27 | the numeric conversions keep the row count and every row's title and URL, and leave each price a number or null |
| Processing.LoweredKeeps | src/data/processors.py:28-29 | lowering the source column keeps the row count and every row's title, URL and price |
| Processing.AfterCleaningFacts | src/data/processors.py:22-34 | after the KeyError the frame is unchanged; on success it is the cleaned frame; after the `.str` AttributeError it holds one row per complete input row, in order, with its title and URL and a numeric or null price |
| Processing.PrepareKeeps | src/data/processors.py:23-31 | conversion leaves a row's title and URL alone |
| Processing.CleanedFromComplete | src/data/processors.py:22-33 | every cleaned row is the conversion of an input row that had a title, a price and a URL, so no cleaned row lacks a title or a URL |
| Processing.CleanedUrlsUnique | src/data/processors.py:32 | after cleaning no two rows share a URL |
| Processing.CleanedKeepsFirst | src/data/processors.py:32-33 | no URL of a complete row is lost, the first complete row of each URL is the one kept, and the kept rows stay in input order |
| Processing.PrepareNumbers | src/data/processors.py:23-25 | prices and, where the column exists, ratings come out as numbers or nulls |
| Processing.PrepareCounts | src/data/processors.py:26-27 | review counts come out as whole numbers, a missing one as 0 |
| Processing.LowerCellLower | src/data/processors.py:29-31 | a lower-cased cell is lower-case text or null |
| Processing.PrepareSource | src/data/processors.py:28-29 | the source column is lower-cased where it exists |
| Processing.PrepareCategory | src/data/processors.py:30-31 | the category column is lower-cased where it exists |
| Processing.PrepareLabels | src/data/processors.py:28-31 | sources and categories come out as lower-case text or null |
| Processing.QualityReportOk | src/data/processors.py:75-93 | the report is produced exactly when title, price and url are columns and no price is text; it counts every row, and reports no missing rating when there is no rating column |
| Processing.RequiredPresent | src/data/processors.py:22 | no required column is missing exactly when title, price and url are all columns |
| Processing.NullCountNone | src/data/processors.py:76-78 | a column without nulls counts none missing |
| Processing.DistinctNUnique | src/data/processors.py:80 | distinct non-null URLs count once each in `nunique` |
| Processing.CleanedPrices | src/data/processors.py:23 | no cleaned price is text |
| Processing.CleanedNoNulls | src/data/processors.py:22 | on a cleaned frame no title and no URL is missing |
| Processing.QualityAfterCleaning | src/data/processors.py:8-93 | the report on a cleaned frame is always produced and finds no missing title, no missing URL and no duplicate URL |
| Processing.QualityOfClean | src/data/processors.py:75-93 | a frame with the three columns, no text price, no missing title or URL and no repeated URL reports zero missing titles, zero missing URLs and zero duplicate URLs |
| Processing.ProductDataProcessor.constructor | src/data/processors.py:5-6 | the processor holds the given frame and has written no export |
| Processing.ProductDataProcessor.CleanAndValidate | src/data/processors.py:8-34 | returns the processor itself exactly when the reference `Cleaned` succeeds, and otherwise raises its error; the frame becomes the reference `AfterCleaning` frame: untouched after a missing required column, converted up to the refused column after a refused `.str`, the cleaned frame otherwise; no export is written |
| Processing.ProductDataProcessor.ConvertNumbers | src/data/processors.py:23-27 | the frame's price, and its rating and review count where they are columns, are replaced by the coerced columns; the columns and the exports stay |
| Processing.ProductDataProcessor.LowerColumn | src/data/processors.py:28-31 | reports a refusal exactly when the column exists and `.str` refuses it, and then leaves the frame unchanged; otherwise lower-cases the column where it exists |
| Processing.ProductDataProcessor.Export | src/data/processors.py:36-58 | csv, excel and json record one export of the current frame and return the processor; any other format raises a ValueError naming it and writes nothing; the frame is unchanged |
| Database.InsertedAppends | src/data/database.py:97-115 | saving only appends: stored rows stay as they were, and every added row is a batch record whose insert did not fail and whose URL was not stored; at most one row per record is added |
| Database.InsertedDistinct | src/data/database.py:106-110 | a table whose URLs are distinct keeps them distinct after saving, the URL uniqueness of both tables |
| Database.InsertedCovers | src/data/database.py:103-113 | after saving, every stored row is still there and every record whose insert did not fail has its URL stored |
| Database.InsertedNothingNew | src/data/database.py:106-107 | a batch whose every record fails or is already stored changes nothing |
| Database.ResaveUnchanged | src/data/database.py:97-115 | saving records again after saving them once changes nothing: saving is idempotent |
| Database.FailingRecordSkipped | src/data/database.py:108-112 | a record whose row object raises while being built is skipped, and the records after it are saved as if it had not been in the batch |
| Database.InsertNew | src/data/database.py:102-110 | the insert loop produces the reference `Inserted` table and counts exactly the rows it added |
| Database.Store.constructor | src/data/database.py:49-51 | before configuration no engine, no session factory and no connection parameters are set |
| Database.Store.ConfigureEngine | src/data/database.py:54-67 | sets the engine, the session factory and exactly the five connection parameters, touching no table |
| Database.Store.InitDbWithSql | src/data/database.py:70-94 | refuses with "db engine not configured." without an engine or parameters, re-raises what running the script raised, and otherwise runs the schema once |
| Database.Store.SaveProductsRaw | src/data/database.py:97-115 | raises "DB session not configured." without a session; otherwise the raw table becomes the reference `Inserted` table and nothing else changes |
| Database.Store.LoadProductsRaw | src/data/database.py:118-129 | raises "Database session not configured." without a session, and otherwise returns the raw rows as stored |
| Database.Store.SaveProducts | src/data/database.py:132-150 | raises "db session not configured." without a session; otherwise the products table becomes the reference `Inserted` table and nothing else changes |
| Database.Store.LoadProducts | src/data/database.py:153-164 | raises "Database session not configured." without a session, and otherwise returns the product rows as stored |
| Database.BuildSpec | src/data/database.py:169-173 | the rebuilt dict holds distinct keys, and only items that were given |
| Database.ConvertedStringKeyed | src/data/database.py:167-178 | after the key rewrite every dict, at every depth, is keyed by distinct strings |
| Database.ConvertStringKeyedIdentity | src/data/database.py:167-178 | a value already keyed by distinct strings is left as it is |
| Database.ConvertTupleKeysIdempotent | src/data/database.py:167-178 | rewriting keys twice is rewriting them once |
| Database.ConvertTupleKeysShape | src/data/database.py:175-178 | values that are neither dicts nor lists are returned unchanged, lists keep their length, and dicts never grow |
| Database.PairKeyText | src/data/database.py:171-172 | a pair key `(a, b)` becomes the string `a_b` |
| Database.TupleKeyExample | src/data/database.py:167-178 | the dict `{('a', 1): {'b': 2}}` is rewritten with the key `"a_1"` |
| Database.RecordsShape | src/data/database.py:182-183 | a frame becomes a list of one record per row, each keyed by the columns in order, with no frame inside |
| Database.ConvertForJsonFrameFree | src/data/database.py:181-189 | the JSON conversion leaves no frame at any depth |
| Database.ConvertForJsonIdentity | src/data/database.py:181-189 | a value without frames is returned unchanged |
| Database.ConvertForJsonIdempotent | src/data/database.py:181-189 | converting twice is converting once, and dicts keep their keys in order |
| Comparative.SourceListMembers | src/analysis/comparative.py:29 | a source is a group of `groupby('source')` exactly when it is non-null and on some row |
| Comparative.CategoriesOfMembers | src/analysis/comparative.py:29 | a category is in a source's `unique()` list exactly when it is non-null and some row carries both |
| Comparative.CountIsSources | src/analysis/comparative.py:30-31 | the `Counter` over the concatenated lists counts a category once per source that lists it |
| Comparative.ListingIsSourcesOf | src/analysis/comparative.py:29-31 | the sources that list a category are exactly the non-null sources of the rows in that category |
| Comparative.MutualIff | src/analysis/comparative.py:29-31 | a category is mutual exactly when it is non-null and carried by at least `min_sources` distinct sources, and by at least one |
| Comparative.AggregateOrder | src/analysis/comparative.py:36-39 | a feature's mean, median, minimum and maximum over a group are all null exactly when the group holds no number there; otherwise minimum <= median <= maximum and minimum <= mean <= maximum |
| Comparative.AggNames | src/analysis/comparative.py:34-40 | every aggregation name starts with `avg_`, `median_`, `min_` or `max_`, so none can hide the group key columns |
| Comparative.FeatureAggsShape | src/analysis/comparative.py:35-39 | each feature gets one aggregation of each kind, named by its prefix and the feature |
| Comparative.AggsNamed | src/analysis/comparative.py:34-39 | the column `avg_f` (likewise `median_f`, `min_f`, `max_f`) exists for each feature `f` and stands for that aggregation of `f` alone |
| Comparative.ComparisonFails | src/analysis/comparative.py:29-47 | the comparison raises `KeyError` exactly when source, category, title or a feature is not a column, naming a missing column |
| Comparative.ComparisonRowCells | src/analysis/comparative.py:40-46 | a result row carries its (category, source) key and the count of non-null titles of its group |
| Comparative.ComparisonRowFeature | src/analysis/comparative.py:36-46 | a result row's `avg_`, `median_`, `min_` and `max_` cells of a feature are those aggregates over its group |
| Comparative.ComparisonGroups | src/analysis/comparative.py:32-47 | the result has one row per (category, source) pair carried by a row in a mutual category, with no pair repeated and no other row |
| Comparative.ComparisonOnlyMutual | src/analysis/comparative.py:31-32 | every result row's category has at least `min_sources` distinct sources |
| Comparative.ComparisonEmpty | src/analysis/comparative.py:31-47 | when no category reaches `min_sources` sources the result has no row |
| Statistics.Present | src/analysis/statistics.py:17 | the fields kept are exactly the listed fields that are columns |
| Statistics.StatisticsEngine.constructor | src/analysis/statistics.py:10-11 | the engine holds the frame it is given |
| Statistics.StatisticsEngine.Summary | src/analysis/statistics.py:13-25 | the loop builds the reference summary: one `describe()` entry with its median per numeric field present, `{}` when there is none |
| Statistics.StatisticsEngine.GroupStats | src/analysis/statistics.py:27-51 | `by_source` / `by_category` build the reference grouped statistics, or raise the `KeyError` of the grouping column at the first numeric field present |
| Statistics.StatisticsEngine.NullSummary | src/analysis/statistics.py:53-64 | one entry per business field that is a column, holding its null count |
| Statistics.StatisticsEngine.UniqueCounts | src/analysis/statistics.py:66-72 | one entry per categorical field that is a column, holding its distinct non-null count |
| Statistics.SummaryKeys | src/analysis/statistics.py:17-21 | the summary is `{}` exactly when no numeric field is a column, and otherwise is keyed by the numeric fields present |
| Statistics.SummaryEntries | src/analysis/statistics.py:21-24 | each summary entry holds the eight `describe()` statistics and `median`, and its median equals its `50%` |
| Statistics.SummaryEntrySpec | src/analysis/statistics.py:21-24 | one entry's keys are the `describe()` statistics plus `median`, and `median` equals `50%` and the column's median |
| Statistics.GroupStatsSpec | src/analysis/statistics.py:27-51 | the grouped statistics raise exactly when the grouping column is missing and a numeric field is present, and then raise `KeyError` of that column; otherwise they are keyed by the numeric fields present |
| Statistics.GroupValue | src/analysis/statistics.py:31 | a value is a group exactly when it is non-null and some row holds it |
| Statistics.GroupDescribeKeys | src/analysis/statistics.py:31-32 | the unstacked statistics are keyed by every (statistic, group) pair, and by no other |
| Statistics.GroupDescribeCount | src/analysis/statistics.py:32 | a group's `count` is the number of numbers its rows hold in the field |
| Statistics.NullSummaryBound | src/analysis/statistics.py:62-63 | a null count is at most the number of rows, and nulls plus non-nulls make up the column |
| Statistics.NullsAndValues | src/analysis/statistics.py:62 | a column's null cells and non-null cells together are the whole column |
| Statistics.UniqueCountsBound | src/analysis/statistics.py:72 | a distinct count is at most the column's non-null cells, so at most the rows minus the nulls |
| Statistics.UniqueAtMostValues | src/analysis/statistics.py:72 | `nunique()` is at most the number of non-null cells |
| Statistics.NullSummaryAfterCleaning | src/analysis/statistics.py:62-63 | on a cleaned frame the null summary reports no missing title and no missing url |
| Trends.TrendAnalyzer.constructor | src/analysis/trends.py:14-15 | the analyzer holds the frame it is given |
| Trends.TrendAnalyzer.PriceTrend | src/analysis/trends.py:17-30 | the empty frame exactly when category, source or price is not a column; otherwise the columns category, source, price |
| Trends.TrendAnalyzer.ReviewTrend | src/analysis/trends.py:32-44 | the empty frame exactly when category, source or review_count is not a column; otherwise the columns category, source, review_count |
| Trends.TrendGroups | src/analysis/trends.py:29 | a trend has one row per (category, source) pair some row carries, none repeated and no other, each row with its pair and the group's mean |
| Trends.GroupMeanBounds | src/analysis/trends.py:29 | a group's mean is null exactly when the group holds no number, and otherwise lies between the group's minimum and maximum |
| Trends.GroupNotEmpty | src/analysis/trends.py:29 | every group holds at least one row |
| Analysis.BandOf | src/analysis/analysis_engine.py:155-156 | `very_low` exactly below 50, `very_high` exactly above 5000, `normal` otherwise, a missing price included |
| Analysis.AddColumn | src/analysis/analysis_engine.py:142 | assigning a column keeps the number of rows |
| Analysis.Thresholds | src/analysis/analysis_engine.py:141-147 | the first engineered columns are `expensive` against the median and one `price_q_p` flag per level 5, 25, 50, 75, 95 against that quantile, in that order |
| Analysis.Edges | src/analysis/analysis_engine.py:150-152 | `qcut` into n bins has n + 1 edges |
| Analysis.Engineered | src/analysis/analysis_engine.py:132-164 | feature engineering keeps the number of rows |
| Analysis.AnalysisEngine.Copy | src/analysis/analysis_engine.py:22 | the engine starts with its own copy of the frame and nothing computed yet |
| Analysis.AnalysisEngine.FeatureEngineering | src/analysis/analysis_engine.py:132-164 | `df` becomes the reference engineered frame; when it raises, it reports the reference error and leaves the frame as far as the source got (the threshold columns when the bins fail, unchanged otherwise) |
| Analysis.AnalysisEngine.AddThresholds | src/analysis/analysis_engine.py:141-147 | the loop adds `expensive` and the five quantile flags exactly as the reference list does |
| Analysis.AnalysisEngine.StoreStats | src/analysis/analysis_engine.py:26-28 | stores the summary and both grouped statistics of the engineered frame, or reports the `KeyError` of source, then of category |
| Analysis.AnalysisEngine.Analyse | src/analysis/analysis_engine.py:24-32 | stores the statistics, the null and distinct counts and both trends of the engineered frame, or reports the statistics' error |
| Analysis.AnalysisEngine.Create | src/analysis/analysis_engine.py:21-32 | `AnalysisEngine(df)` raises exactly the error of feature engineering, then of the grouped statistics; otherwise its frame is the engineered frame and every stored result is the one computed on it |
| Analysis.AnalysisEngine.TrendAnalysis | src/analysis/analysis_engine.py:79-89 | exactly the keys `price_trend` and `review_trend`, holding the stored trends |
| Analysis.AnalysisEngine.OverallReport | src/analysis/analysis_engine.py:91-105 | exactly the six keys summary, nulls, uniques, by_source, by_category and trends, the last holding the two trend keys (tests/unit/analysis/test_analysis_engine.py:65-70) |
| Analysis.AnalysisEngine.ComparativeAnalysis | src/analysis/analysis_engine.py:166-202 | raises exactly when source, category, title or a feature is not a column of the engineered frame; otherwise every row's category has at least `min_sources` sources |
| Analysis.AddAllCells | src/analysis/analysis_engine.py:142-163 | after adding columns every row keeps its other cells, each added column holds the cell of the last rule given for it, and the original columns keep their order ahead of the new ones |
| Analysis.LastRuleOf | src/analysis/analysis_engine.py:142-163 | with distinct names, the last rule given for a column is its own |
| Analysis.EngineeringNames | src/analysis/analysis_engine.py:142-163 | the engineered columns are added in the order expensive, price_q_5 … price_q_95, price_group, price_flag, outlier |
| Analysis.AddAllNamed | src/analysis/analysis_engine.py:142-163 | columns with distinct names other than price: each holds its rule's cell on every row, and the rest of the row is unchanged |
| Analysis.EngineeredFrame | src/analysis/analysis_engine.py:140-164 | a non-empty engineered frame has the same rows and the original columns first, then exactly the engineered columns, each holding its rule's cell and nothing else changed (tests/unit/analysis/test_analysis_engine.py:10-20) |
| Analysis.NamesDistinct | src/analysis/analysis_engine.py:142-163 | the engineered column names are distinct and none is price |
| Analysis.BinSpec | src/analysis/analysis_engine.py:150-152 | a price between the outer edges falls in a bin `b`, the interval from edge b (inclusive for the first bin only) to edge b + 1 |
| Analysis.FirstBinSpec | src/analysis/analysis_engine.py:150-152 | the search for the first edge not below the price finds a bin whose edges enclose it |
| Analysis.EngineeredFails | src/analysis/analysis_engine.py:140-164 | an empty frame is left as it is; otherwise it raises exactly for a missing price (`KeyError`), a string price (`TypeError`) or repeated bin edges (`ValueError`), in that order |
| Analysis.GroupRuleFails | src/analysis/analysis_engine.py:149-154 | the bins raise exactly when there are at least two distinct prices and no number or repeated edges; at most one distinct price gives `Low` |
| Analysis.EngineeredCell | src/analysis/analysis_engine.py:142-163 | each engineered cell of a row is its rule applied to that row's price |
| Analysis.ExpensiveColumn | src/analysis/analysis_engine.py:141-142 | `expensive` holds exactly when the price exceeds the median (tests/unit/analysis/test_analysis_engine.py:19-20) |
| Analysis.QuantileColumn | src/analysis/analysis_engine.py:144-147 | `price_q_p` holds exactly when the price exceeds the p% quantile |
| Analysis.FlagColumn | src/analysis/analysis_engine.py:155-156 | `price_flag` is the band of the row's price |
| Analysis.OutlierColumn | src/analysis/analysis_engine.py:158-163 | `outlier` holds exactly when the price is outside the fences q1 - 1.5 iqr and q3 + 1.5 iqr, so never for a price between q1 and q3 |
| Analysis.SinglePrice | tests/unit/analysis/test_analysis_engine.py:23-28 | with one distinct price, feature engineering succeeds, no row is expensive and every row is in price group Low |
| Analysis.SinglePriceRow | src/analysis/analysis_engine.py:141-154 | with one distinct price, a row is not expensive and is in price group Low |
| Analysis.GroupColumn | src/analysis/analysis_engine.py:149-154 | `price_group` is Low for all rows with at most one distinct price; otherwise the edges are distinct, a missing price gets no label and a present price gets the label of a bin whose edges enclose it |
| Analysis.BinnedLabel | src/analysis/analysis_engine.py:150-152 | a price among the prices falls in one of the n labelled quantile bins |

## Left out

- **Real concurrency.** There are no real threads or processes, and no pickling.
  - `ThreadPoolExecutor` and `ProcessPoolExecutor` scheduling, and `as_completed`
    timing, become a completion-order parameter that is any permutation of the jobs.
  - The old orchestrator's pool and worker count are not modelled beyond the
    pool-size check.
- **Browser, network and crawler.**
  - Selenium waits, clicks, `execute_script`, screenshots and driver creation are
    not modelled; a browser is a pair of functions from attempt or page number to
    outcome.
  - `requests.Session` is a sequence of HTTP attempt outcomes.
  - The Scrapy `CrawlerProcess`, its settings and `Request` scheduling are a
    sequence of responses the spider's `parse` is applied to.
  - The ScraperAPI URL wrapping is not modelled.
- **HTML and CSS extraction.** The selectors' results are inputs: each card
  carries the texts and attributes the selectors would find. Three price readers
  are covered by this:
  - `extract_price` (src/scrapers/selenium_scraper.py:37-57) is the card's price text.
  - The Micro Center price regex and `float()` (src/scrapers/static_scraper.py:76-97)
    become the card's optional price.
  - Newegg's `parse_price` (src/scrapers/scrapy_crawler/newegg_crawler/spriders/newegg_scrapy.py:16-26)
    also becomes the card's optional price.
- **eBay `parse_price`** (src/scrapers/selenium/ebay_selenium_scraper.py:20-27) is
  never called by the scraper, so it is not modelled.
- **Floating point.**
  - Prices, ratings and statistics are exact reals, with no NaN or infinity.
  - `float()` on a string is a parameter (`toFloat`, `toNumber`) that returns a
    number or nothing.
  - The standard deviation in `describe()` needs a square root, so it is a
    parameter (`std`).
  - The 0.99-quantile outlier count of the quality report is a parameter.
- **NaN cleaning for JSON.** `sanitize_for_json` (src/data/database.py:192-213) only
  replaces NaN and infinite floats, which the exact reals of the model cannot hold.
- **Persistence and files.**
  - SQLAlchemy engines and sessions are fields of the store: set or unset, plus the
    five connection parameters.
  - The schema script is a parameter whose run either succeeds or raises.
  - Whether building one record's `ProductRaw(**p)` or `Product(**p)` raises is a
    parameter (`fails`); errors raised by the database itself are not (see below).
  - `save_analysis_summary`, `save_analysis_group_stats`, `save_analysis_trends`
    (src/data/database.py:216-254) and `generate_run_id` (257-260) are inserts and
    a UUID; they are not modelled.
  - `export` records the written file in a list instead of writing it.
  - `AnalysisEngine.export_all` (src/analysis/analysis_engine.py:107-130) and
    `ReportGenerator` are file output and printing; they are not modelled.
- **String handling.** `str.lower()` lowers ASCII letters only, and `str.strip()`
  removes ASCII whitespace only.
- **Plumbing.**
  - Logging is not modelled, and neither is the Newegg spider's `handle_error`
    errback, which only logs.
  - `time.sleep` delays and random user agents are not modelled.
  - `ConfigLoader.load_yaml` reads a file, so the loaded sections are a parameter.
  - `get_df` is the processor's `df` field.
  - The engine's accessor methods (src/analysis/analysis_engine.py:34-77) are its
    stored fields.
- **`df.copy()`.** Frames are values, so the copies made by `StatisticsEngine`,
  `AnalysisEngine` and `clean_product_fields` need no modelling. The input cannot
  be changed through them.
- **pandas details.**
  - `groupby` groups appear in order of first appearance, not sorted order.
  - The `price_group` column is a text column, not a categorical one.
  - `pd.qcut`'s error message is abbreviated to "Bin edges must be unique".
  - A price column holding no number at all, when binned, is reported as that same
    `ValueError`.
  - `BinCount` counts distinct cells, so a missing price counts as one more value,
    as `unique()` does.
  - The quantile columns are named by the literal levels 5, 25, 50, 75 and 95.
  - In the comparison, the minimum and maximum of a text feature are not modelled:
    a group's text cells hold no number, so their aggregates are null.
  - The `TypeError` of a string price carries the column name, not pandas' message.
- **Unicode digits and digit separators.** Digits are the ASCII `0`-`9` throughout.
  Python's `int()` also reads `_` between digits (`"1_000"`) and non-ASCII decimal
  digits, and `\d` in the Newegg patterns also matches non-ASCII digits.
- Common.ParseIntRejects: rejects `"1_000"` and non-ASCII digits, which Python's `int()` reads as numbers.
- Amazon.CleanReviewCountUnreadable: a count starting with a non-ASCII decimal digit becomes 0 here, where Python's `int()` may read it.
- Newegg.ParseRatingSpec, Newegg.FirstCount and Newegg.ParseReviewCount: a non-ASCII digit in the class or the review text is not a digit here, although `\d` matches it.
- **Text cells in numeric columns.** Callers pass frames loaded from the database, whose
  price, rating and review-count columns are numeric, so text in them is not modelled
  as pandas treats it:
  - Reductions.Numbers: a text cell holds no number and is skipped, whereas pandas
    `mean()` and `median()` raise `TypeError` on a column holding text.
  - Trends.TrendGroups and Trends.GroupMeanBounds: the group means skip text cells,
    where `groupby(...).mean()` (src/analysis/trends.py:29, 44) raises `TypeError`.
  - Statistics.SummaryEntries and Statistics.SummaryEntrySpec: a column holding text
    is summarised from its numbers, where `describe()` drops it and the explicit
    median at src/analysis/statistics.py:24 then raises.
  - Statistics.GroupStatsSpec: a text column is described from its numbers, where
    the grouped `describe()` of a text column reports count, unique, top and freq.
- **A `close()` that raises.** A scraper's `close()` never fails in the model. In the
  code, `driver.quit()` or `session.close()` runs in the worker's `finally`
  (src/utils/executor.py:37-38), and its exception escapes through `future.result()`
  (src/utils/executor.py:47). Then the newer orchestrator drops the whole source
  (src/pipeline/scraper_orchestrator.py:111-114) and the older one raises.
- Scrapers.ScraperInstance.Close: has no failure outcome; a `close()` exception is not modelled.
- Executor.Worker: its outcome is the scrape's; a `close()` exception in the `finally`, which would replace it, is not modelled.
- Executor.ExecutorErrors: "nothing else escapes" leaves out a `close()` exception, which escapes through `future.result()`.
- Executor.ThreadedScrapeExecutor: the reference `ExecutorResult` has no case for a `close()` exception.
- ScraperOrchestration.RunScraperOutcomes: a `close()` exception would also escape `_run_scraper`; it is not modelled.
- SequentialOrchestration.SequentialOrchestrator.RunAll: the reference `SequentialResult` has no case for a `close()` exception, which would end the run.
- **Database-side insert errors.** The only insert error modelled is one raised while
  building the row object. A pending insert that the database refuses (a constraint
  or type error) is raised by autoflush at the next record's query
  (src/data/database.py:106, 141), inside the `try`, and leaves the session needing a
  rollback. Every later query then raises too, and so does `session.commit()`
  (src/data/database.py:113, 148), which lies outside the `try`: nothing is saved and
  the exception reaches the caller.
- Database.Inserted: `fails` stands for construction errors only; a flush error is not a per-record skip.
- Database.FailingRecordSkipped: holds for a construction error only, not for a record the database refuses.
- Database.Store.SaveProductsRaw: once configured it never raises here, whereas a flush or commit failure raises out of `session.commit()` and saves nothing.
- Database.Store.SaveProducts: once configured it never raises here, whereas a flush or commit failure raises out of `session.commit()` and saves nothing.
- **The Newegg spider uses the corrected review-count helper.** As written,
  `parse_review_count` raises on the text `(,)` (see Findings). That happens inside
  the card loop (src/scrapers/scrapy_crawler/newegg_crawler/spriders/newegg_scrapy.py:147), before the title test. The callback then
  ends: the records of earlier cards stay appended, the card and every later card are
  lost, and no next-page request is yielded. Scrapy logs the exception and goes on
  with the next response. The members below state the corrected spider. The spider as
  written is `Newegg.NeweggSpider.ParseAsWritten`, `Newegg.ParsedProductsAsWritten`,
  `Newegg.ParseEndAsWritten` and `Newegg.NeweggScraper.ScrapeAsWritten`, related to
  the corrected one by `Newegg.ParseAsWrittenAgrees` and `Newegg.CrawlAsWrittenAgrees`.
- Newegg.KeptCardsComplete: as written, a kept card after one whose count text raises gives no record.
- Newegg.KeptCardsNonEmpty: as written, a page whose first kept card comes after a raising card yields no record.
- Newegg.NextRequestRule: as written, a page with a card whose count text raises yields no next request.
- Newegg.NeweggSpider.Parse: as written, it stops at the first card whose count text raises and yields no next request.
- Newegg.NeweggScraper.Scrape: as written, a page keeps only the records of the cards before a raising card, and its next page is not requested.
- **Test fixture.** tests/unit/analysis/test_analysis_engine.py:87-92 expects the
  sample fixture to compare {laptop, desktop} in 4 rows. That concrete outcome is
  not restated; `Comparative.ComparisonGroups` and `Comparative.ComparisonOnlyMutual`
  state the rule it follows.
- **`.str` on a column without text.** `.str.lower()` (src/data/processors.py:29, 31)
  raises `AttributeError` on a column that pandas does not infer as text. The model
  decides this from the cells of the complete rows:
  - non-null cells that are all numbers, or all booleans, are refused;
  - a mix of numbers and booleans with no text is accepted, since pandas infers it
    as mixed.

  A column whose kept cells are all null is decided by its dtype instead. An
  all-NaN float column raises, and an all-None object column does not. The model
  has one `Null` cell for both, so it treats such a column as accepted.
- Processing.CleanedFails: a source or category column with no non-null cell among the complete rows is taken as accepted, though pandas raises `AttributeError` on it when its dtype is numeric.
- Processing.ProductDataProcessor.CleanAndValidate: in the same case, an all-null source or category column of numeric dtype, it returns instead of raising `AttributeError`.
- **Stale tests.** The tests that call members the code does not define are not
  modelled:
  - tests/unit/pipeline/test_scraper_orchestrator.py:12 calls `_run_scraper(name, cls)`.
  - tests/integration/test_database.py:52 calls `sanitize_db_for_json`.
  - tests/unit/analysis/test_statistics_engine.py:82-87 calls `StatisticsEngine.overall_report()`,
    which src/analysis/statistics.py does not define.
- **CLI and entry points.** The CLI (src/cli/), the data pipeline and the entry
  points are not part of this model.

## Findings

| source | as written | input that shows it | evidently intended | confidence | as-written member | corrected member |
|---|---|---|---|---|---|---|
| src/scrapers/scrapy_crawler/newegg_crawler/spriders/newegg_scrapy.py:35-38 | `parse_review_count` matches `\(([\d,]+)\)`, whose group may be only commas, then calls `int()` on the group with its commas removed | the review text `(,)`: the group is `,`, and `int('')` raises `ValueError` inside the spider's card loop; `Newegg.CommasCardDropsPage` shows a page whose first card reads `(,)` losing both of its records and its next page | no count (`None`), as for any text without a number in parentheses | not executed | Newegg.ReviewCountCommasOnly | Newegg.ParseReviewCountNone |
