/** The eBay browser scraper: the title rule and fixed fields of a product, the filter
    on the title, and the scraper's fetch and page loop over the shared driver. Its
    product wait swallows its own timeout, so only a failed next-click or the page limit
    ends a category run. A card holds what the selectors found in one `li.s-item`. */
module Ebay {
  import opened Common
  import opened Browser
  import Scrapers

  /** What the selectors found in one result: the stripped text of `.s-item__title`
      if that tag exists, the `href` of `a.s-item__link` (absent without the tag or the
      attribute), the stripped price text and the image source. */
  datatype Card = Card(titleText: Option<string>, href: Option<string>, priceText: Option<string>,
                       imgSrc: Option<string>)

  /** The title rule: no tag, an empty text, or a text containing `results for` (the
      header row of a result list) gives no title. */
  function Title(text: Option<string>): (t: Option<string>)
  {
    if text.None? || text.value == "" || Contains(text.value, "results for") then None else text
  }

  /** A title is kept exactly when the text is non-empty and does not mention
      `results for`, and it is then the text itself. */
  lemma TitleSpec(text: Option<string>)
    ensures Title(text).Some? <==> Truthy(text) && !Contains(text.value, "results for")
    ensures Title(text).Some? ==> Title(text) == text
    ensures Title(text).Some? ==> forall i: nat :: !OccursAt(text.value, "results for", i)
  {
    if text.Some? {
      ContainsIff(text.value, "results for");
    }
  }

  /** `parse_product` followed by `clean_product_fields`, with `toFloat` standing for
      `float()` (`None` where it raises): only the price text is converted; rating and
      review count are the placeholder -1. */
  function ParseProduct(card: Card, toFloat: string -> Option<real>): (p: Product)
  {
    Product(
      title := Title(card.titleText),
      price := if card.priceText.Some? then toFloat(CleanPriceText(card.priceText.value)) else None,
      rating := Some(-1.0),
      reviewCount := Some(-1),
      url := card.href,
      imgUrl := card.imgSrc,
      category := None,
      source := None)
  }

  /** Cleaning changes the price and nothing else: every other field is what
      `parse_product` put in the dict, with the fixed -1 for rating and review count. */
  lemma ParseProductFields(card: Card, toFloat: string -> Option<real>)
    ensures var p := ParseProduct(card, toFloat);
            && p.rating == Some(-1.0) && p.reviewCount == Some(-1)
            && p.url == card.href && p.imgUrl == card.imgSrc
            && (p.title.Some? ==> p.title == card.titleText)
            && (card.priceText.None? ==> p.price.None?)
  {
  }

  /** `parse(html)` on the page's cards: the products with a truthy title. */
  function ParsedCards(cards: seq<Card>, toFloat: string -> Option<real>): seq<Product>
  {
    if cards == [] then []
    else
      var before := ParsedCards(cards[..|cards| - 1], toFloat);
      var p := ParseProduct(cards[|cards| - 1], toFloat);
      if Truthy(p.title) then before + [p] else before
  }

  /** Every kept product has a title without `results for`, and comes from one of the cards. */
  lemma {:induction false} ParsedCardsSound(cards: seq<Card>, toFloat: string -> Option<real>)
    ensures forall p :: p in ParsedCards(cards, toFloat) ==>
              Truthy(p.title) && !Contains(p.title.value, "results for") &&
              exists c :: c in cards && p == ParseProduct(c, toFloat)
  {
    if cards != [] {
      var n := |cards| - 1;
      ParsedCardsSound(cards[..n], toFloat);
      assert forall c :: c in cards[..n] ==> c in cards;
    }
  }

  /** Every card with a title is kept, and none is invented: the page yields one
      product per titled card. */
  lemma {:induction false} ParsedCardsComplete(cards: seq<Card>, toFloat: string -> Option<real>)
    ensures forall c :: c in cards && Title(c.titleText).Some? ==> ParseProduct(c, toFloat) in ParsedCards(cards, toFloat)
    ensures |ParsedCards(cards, toFloat)| <= |cards|
  {
    if cards != [] {
      var n := |cards| - 1;
      ParsedCardsComplete(cards[..n], toFloat);
      assert forall c :: c in cards ==> c in cards[..n] || c == cards[n];
    }
  }

  /** The parser of one page's HTML, given how its cards are selected. */
  function PageParser(cardsOf: string -> seq<Card>, toFloat: string -> Option<real>): string -> seq<Product>
  {
    html => ParsedCards(cardsOf(html), toFloat)
  }

  /** `is_captcha_page()` for eBay: two markers in the lower-cased page source, or a
      challenge address. */
  predicate EbayCaptcha(src: string, currentUrl: string)
  {
    || Contains(Lower(src), "detected unusual traffic")
    || Contains(Lower(src), "please verify you are a human")
    || Contains(currentUrl, "/challenge?")
  }

  /** The page markers are matched without regard to case. */
  lemma EbayCaptchaIgnoresCase(src: string, currentUrl: string)
    ensures EbayCaptcha(Lower(src), currentUrl) == EbayCaptcha(src, currentUrl)
  {
    LowerIdempotent(src);
  }

  /** A run of the page loop from `page` on ends only at the page limit or at the first
      page whose next-click fails; its products are those of the pages it visited. */
  lemma EbayRunEnds(view: (string, nat) -> PageView, parser: string -> seq<Product>, url: string, maxPages: int)
    requires maxPages >= 1
    ensures PagesFrom(view, parser, url, 1, maxPages, false) == Flatten(Apply(parser, VisitedPages(view, url, 1, maxPages, false)))
    ensures (forall p: nat :: 1 <= p < maxPages ==> view(url, p).nextClickable) ==>
              |VisitedPages(view, url, 1, maxPages, false)| == maxPages
    ensures forall stop: nat :: 1 <= stop < maxPages && !view(url, stop).nextClickable &&
                                (forall q: nat :: 1 <= q < stop ==> view(url, q).nextClickable) ==>
              |VisitedPages(view, url, 1, maxPages, false)| == stop
  {
    PagesFromVisited(view, parser, url, 1, maxPages, false);
    if forall p: nat :: 1 <= p < maxPages ==> view(url, p).nextClickable {
      VisitedAll(view, url, 1, maxPages);
    }
    forall stop: nat | 1 <= stop < maxPages && !view(url, stop).nextClickable &&
                       (forall q: nat :: 1 <= q < stop ==> view(url, q).nextClickable)
      ensures |VisitedPages(view, url, 1, maxPages, false)| == stop
    {
      VisitedStopsAtClick(view, url, 1, maxPages, stop);
    }
  }

  /** The constructor reads `base_url`, `categories`, `max_pages` and `delay` with `[]`. */
  predicate Constructs(config: Scrapers.Config)
  {
    config.baseUrl.Some? && config.categories.Some? && config.maxPages.Some? && config.delay.Some?
  }

  class EbayScraper {
    const maxRetries: int
    const baseUrl: string
    const categories: seq<(string, string)>
    const maxPages: int
    const delay: int
    const cardsOf: string -> seq<Card>
    const toFloat: string -> Option<real>
    const driver: Session

    /** `EbaySeleniumScraper(config)`: `max_retries` defaults to 3, the other four
        settings are required, and one driver is started. */
    constructor (config: Scrapers.Config, browser: (string, nat) -> Attempt, view: (string, nat) -> PageView,
                 cardsOf: string -> seq<Card>, toFloat: string -> Option<real>)
      requires Constructs(config)
      ensures maxRetries == (if config.maxRetries.None? then 3 else config.maxRetries.value)
      ensures baseUrl == config.baseUrl.value && categories == config.categories.value
      ensures maxPages == config.maxPages.value && delay == config.delay.value
      ensures this.cardsOf == cardsOf && this.toFloat == toFloat
      ensures fresh(driver) && driver.browser == browser && driver.view == view
      ensures driver.isCaptcha == EbayCaptcha && driver.Live()
    {
      maxRetries := if config.maxRetries.None? then 3 else config.maxRetries.value;
      baseUrl := config.baseUrl.value;
      categories := config.categories.value;
      maxPages := config.maxPages.value;
      delay := config.delay.value;
      this.cardsOf := cardsOf;
      this.toFloat := toFloat;
      driver := new Session(browser, EbayCaptcha, view);
    }

    /** `fetch(url, retries)`; `None`, the default, means `max_retries`. */
    method Fetch(url: string, retries: Option<int>) returns (r: Outcome<string>)
      modifies driver
      ensures r == FetchResult(driver.browser, driver.isCaptcha, url,
                               if retries.None? then maxRetries else retries.value, old(driver.pageSource))
      ensures driver.started - driver.quits == old(driver.started) - old(driver.quits)
    {
      ghost var attempts;
      r, attempts := driver.Fetch(url, if retries.None? then maxRetries else retries.value);
    }

    /** `parse(html)`: every card's product, kept when it has a title. */
    method Parse(html: string) returns (products: seq<Product>)
      ensures products == ParsedCards(cardsOf(html), toFloat)
    {
      var cards := cardsOf(html);
      products := [];
      for i := 0 to |cards|
        invariant products == ParsedCards(cards[..i], toFloat)
      {
        assert cards[..i + 1][..i] == cards[..i];
        var data := ParseProduct(cards[i], toFloat);
        if Truthy(data.title) {
          products := products + [data];
        }
      }
      assert cards[..|cards|] == cards;
    }

    /** `scrape_category(category_url, max_pages, delay)`: every page is parsed, whether or
        not its products appeared, until a next-click fails or `max_pages` pages are done. */
    method ScrapeCategory(categoryUrl: string, maxPagesArg: Option<int>, delayArg: Option<int>)
      returns (all: seq<Product>)
      ensures all == PagesFrom(driver.view, PageParser(cardsOf, toFloat), categoryUrl, 1,
                               OrDefault(maxPagesArg, maxPages), false)
    {
      var limit := OrDefault(maxPagesArg, maxPages);
      var pause := OrDefault(delayArg, delay);
      ghost var parser := PageParser(cardsOf, toFloat);
      all := [];
      var page := 1;
      while page <= limit
        invariant 1 <= page
        invariant PagesFrom(driver.view, parser, categoryUrl, 1, limit, false) ==
                  all + PagesFrom(driver.view, parser, categoryUrl, page, limit, false)
        decreases limit - page
      {
        var v := driver.view(categoryUrl, page);
        var found := Parse(v.page);
        ghost var rest := PagesFrom(driver.view, parser, categoryUrl, page + 1, limit, false);
        if page < limit && !v.nextClickable {
          assert PagesFrom(driver.view, parser, categoryUrl, page, limit, false) == found;
          all := all + found;
          return;
        }
        assert PagesFrom(driver.view, parser, categoryUrl, page, limit, false) == found + rest;
        all := all + found;
        page := page + 1;
      }
      assert all + [] == all;
    }

    /** `scrape(url)` is the category run with the instance's page limit. */
    method Scrape(url: string) returns (r: seq<Product>)
      ensures r == PagesFrom(driver.view, PageParser(cardsOf, toFloat), url, 1, maxPages, false)
    {
      r := ScrapeCategory(url, None, None);
    }

    /** `close()` quits the driver. */
    method Close()
      modifies driver
      ensures driver.quits == old(driver.quits) + 1 && driver.started == old(driver.started)
    {
      driver.Quit();
    }
  }
}
