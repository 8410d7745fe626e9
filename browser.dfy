/** What the two browser scrapers share: a driver that loads pages, the bounded retry
    loop of their `fetch` (retry with a fresh driver, stop at a captcha, re-raise on the
    last attempt), and the shape of their page loops. The browser is a pair of
    functions: what attempt `n` at loading a URL gives, and what the `n`-th page reached
    from a category URL looks like. */
module Browser {
  import opened Common

  /** One attempt at `driver.get(url)` followed by the product wait: it returned, or
      something in it raised. `page` is the page source the driver shows afterwards,
      `currentUrl` the address it ended on. */
  datatype Attempt = Loaded(page: string) | Failed(page: string, currentUrl: string)

  /** The attempt ends the loop: a load returns, and a failure on a page that
      `isCaptcha` recognises breaks out of it. */
  predicate Stops(isCaptcha: (string, string) -> bool, a: Attempt)
  {
    a.Loaded? || isCaptcha(a.page, a.currentUrl)
  }

  /** The retry loop from attempt `attempt` on, with `current` the driver's page source. */
  function FetchFrom(browser: (string, nat) -> Attempt, isCaptcha: (string, string) -> bool,
                     url: string, retries: int, attempt: nat, current: string): Outcome<string>
    decreases retries - attempt
  {
    if attempt > retries then Ok(current)
    else
      var a := browser(url, attempt);
      if Stops(isCaptcha, a) then Ok(a.page)
      else if attempt < retries then FetchFrom(browser, isCaptcha, url, retries, attempt + 1, a.page)
      else Err(DriverError)
  }

  /** `fetch(url, retries)` on a driver whose page source is `current`. */
  function FetchResult(browser: (string, nat) -> Attempt, isCaptcha: (string, string) -> bool,
                       url: string, retries: int, current: string): Outcome<string>
  {
    FetchFrom(browser, isCaptcha, url, retries, 1, current)
  }

  /** The loop raises exactly when every attempt up to `retries` failed on a page that
      is not a captcha; otherwise it returns the page of the first attempt that loaded
      or hit a captcha, or, with no attempt to make, the page the driver already shows. */
  lemma {:induction false} FetchFromSpec(browser: (string, nat) -> Attempt, isCaptcha: (string, string) -> bool,
                                         url: string, retries: int, first: nat, current: string)
    requires first >= 1
    ensures var r := FetchFrom(browser, isCaptcha, url, retries, first, current);
            && (r.Err? <==> first <= retries && forall a: nat :: first <= a <= retries ==> !Stops(isCaptcha, browser(url, a)))
            && (r.Err? ==> r.error == DriverError)
            && (r.Ok? && first > retries ==> r.value == current)
            && (r.Ok? && first <= retries ==>
                  exists a: nat :: first <= a <= retries && Stops(isCaptcha, browser(url, a)) && r.value == browser(url, a).page &&
                                   forall b: nat :: first <= b < a ==> !Stops(isCaptcha, browser(url, b)))
    decreases retries - first
  {
    if first < retries && !Stops(isCaptcha, browser(url, first)) {
      FetchFromSpec(browser, isCaptcha, url, retries, first + 1, browser(url, first).page);
      var r := FetchFrom(browser, isCaptcha, url, retries, first, current);
      if r.Ok? {
        var a: nat :| first + 1 <= a <= retries && Stops(isCaptcha, browser(url, a)) && r.value == browser(url, a).page &&
                      forall b: nat :: first + 1 <= b < a ==> !Stops(isCaptcha, browser(url, b));
        assert forall b: nat :: first <= b < a ==> !Stops(isCaptcha, browser(url, b));
      }
    }
  }

  /** A captcha after the first attempt ends the loop at once with that page, however
      many retries were allowed. */
  lemma CaptchaStopsAtOnce(browser: (string, nat) -> Attempt, isCaptcha: (string, string) -> bool,
                           url: string, retries: int, current: string)
    requires retries >= 1 && browser(url, 1).Failed? && isCaptcha(browser(url, 1).page, browser(url, 1).currentUrl)
    ensures FetchResult(browser, isCaptcha, url, retries, current) == Ok(browser(url, 1).page)
  {
  }

  /** What the browser shows on the `n`-th page reached from a category URL: whether the
      product wait succeeded, the page source, and whether the next button could be clicked. */
  datatype PageView = PageView(loaded: bool, page: string, nextClickable: bool)

  /** A page-loop run from page `page` on: a failed product wait ends it when
      `stopOnWait`; otherwise the page is parsed, and a failed next-click ends it
      unless the page was the last one. */
  function PagesFrom<P>(view: (string, nat) -> PageView, parse: string -> seq<P>, url: string,
                        page: nat, maxPages: int, stopOnWait: bool): seq<P>
    decreases maxPages - page
  {
    if page > maxPages then []
    else
      var v := view(url, page);
      if stopOnWait && !v.loaded then []
      else if page < maxPages && !v.nextClickable then parse(v.page)
      else parse(v.page) + PagesFrom(view, parse, url, page + 1, maxPages, stopOnWait)
  }

  /** The page sources a run parses, in page order. */
  function VisitedPages(view: (string, nat) -> PageView, url: string, page: nat, maxPages: int,
                        stopOnWait: bool): seq<string>
    decreases maxPages - page
  {
    if page > maxPages then []
    else
      var v := view(url, page);
      if stopOnWait && !v.loaded then []
      else if page < maxPages && !v.nextClickable then [v.page]
      else [v.page] + VisitedPages(view, url, page + 1, maxPages, stopOnWait)
  }

  /** No run parses more than the `maxPages - page + 1` pages it may visit. */
  lemma {:induction false} VisitedBound(view: (string, nat) -> PageView, url: string, page: nat, maxPages: int,
                                        stopOnWait: bool)
    ensures |VisitedPages(view, url, page, maxPages, stopOnWait)| <= (if maxPages < page then 0 else maxPages - page + 1)
    decreases maxPages - page
  {
    if page <= maxPages {
      VisitedBound(view, url, page + 1, maxPages, stopOnWait);
    }
  }

  /** When product waits do not end the run and every next-click before the last page
      works, the run parses every page up to `maxPages`. */
  lemma {:induction false} VisitedAll(view: (string, nat) -> PageView, url: string, page: nat, maxPages: int)
    requires page <= maxPages
    requires forall p: nat :: page <= p < maxPages ==> view(url, p).nextClickable
    ensures |VisitedPages(view, url, page, maxPages, false)| == maxPages - page + 1
    decreases maxPages - page
  {
    if page < maxPages {
      VisitedAll(view, url, page + 1, maxPages);
    }
  }

  /** When product waits do not end the run, it stops on the first page before the last
      whose next-click fails. */
  lemma {:induction false} VisitedStopsAtClick(view: (string, nat) -> PageView, url: string, page: nat, maxPages: int,
                                               stop: nat)
    requires page <= stop < maxPages && !view(url, stop).nextClickable
    requires forall q: nat :: page <= q < stop ==> view(url, q).nextClickable
    ensures |VisitedPages(view, url, page, maxPages, false)| == stop - page + 1
    decreases stop - page
  {
    if page < stop {
      VisitedStopsAtClick(view, url, page + 1, maxPages, stop);
    }
  }

  /** A run's products are the products of the pages it visits, in page order. */
  lemma {:induction false} PagesFromVisited<P>(view: (string, nat) -> PageView, parse: string -> seq<P>, url: string,
                                               page: nat, maxPages: int, stopOnWait: bool)
    ensures PagesFrom(view, parse, url, page, maxPages, stopOnWait) ==
            Flatten(Apply(parse, VisitedPages(view, url, page, maxPages, stopOnWait)))
    decreases maxPages - page
  {
    if page <= maxPages {
      var v := view(url, page);
      if !(stopOnWait && !v.loaded) && !(page < maxPages && !v.nextClickable) {
        PagesFromVisited(view, parse, url, page + 1, maxPages, stopOnWait);
      }
    }
  }

  /** The Chrome driver of one scraper, over the browser's behaviour. `started` and
      `quits` count the drivers created and quit, so the scraper holds a live driver
      exactly when `Live()`. */
  class Session {
    const browser: (string, nat) -> Attempt
    const isCaptcha: (string, string) -> bool
    const view: (string, nat) -> PageView
    var pageSource: string
    var started: nat
    var quits: nat

    predicate Live()
      reads this
    {
      started == quits + 1
    }

    /** `_init_driver()` in the scraper's constructor. */
    constructor (browser: (string, nat) -> Attempt, isCaptcha: (string, string) -> bool,
                 view: (string, nat) -> PageView)
      ensures this.browser == browser && this.isCaptcha == isCaptcha && this.view == view
      ensures pageSource == "" && started == 1 && quits == 0 && Live()
    {
      this.browser := browser;
      this.isCaptcha := isCaptcha;
      this.view := view;
      pageSource := "";
      started := 1;
      quits := 0;
    }

    /** The shared `fetch` loop with `retries` attempts. A failed attempt that is not a
        captcha and is followed by another quits the driver and starts a new one, so a
        live driver stays live and one new driver is started per retry; `attempts` is
        how many loads were tried. */
    method Fetch(url: string, retries: int) returns (r: Outcome<string>, ghost attempts: nat)
      modifies this
      ensures r == FetchResult(browser, isCaptcha, url, retries, old(pageSource))
      ensures attempts <= (if retries < 0 then 0 else retries)
      ensures started - quits == old(started) - old(quits)
      ensures started == old(started) + (if attempts == 0 then 0 else attempts - 1)
    {
      attempts := 0;
      var attempt := 1;
      while attempt <= retries
        invariant 1 <= attempt && attempts == attempt - 1
        invariant attempt <= retries || attempt == 1
        invariant FetchResult(browser, isCaptcha, url, retries, old(pageSource)) ==
                  FetchFrom(browser, isCaptcha, url, retries, attempt, pageSource)
        invariant started - quits == old(started) - old(quits)
        invariant started == old(started) + attempt - 1
        decreases retries - attempt
      {
        var a := browser(url, attempt);
        pageSource := a.page;
        attempts := attempt;
        if a.Loaded? {
          return Ok(pageSource), attempts;
        }
        if isCaptcha(a.page, a.currentUrl) {
          break;
        }
        if attempt < retries {
          quits := quits + 1;
          started := started + 1;
        } else {
          return Err(DriverError), attempts;
        }
        attempt := attempt + 1;
      }
      r := Ok(pageSource);
    }

    /** `driver.quit()`. */
    method Quit()
      modifies this
      ensures quits == old(quits) + 1 && started == old(started) && pageSource == old(pageSource)
    {
      quits := quits + 1;
    }
  }
}
