/** The Micro Center static scraper: a bounded retry loop around an HTTP session, a page
    loop that builds each page's URL and stops at the first empty page, and the filter
    that keeps only cards with a title and a price. The session is a function from a URL
    and an attempt number to what that request got; the HTML is read through a function
    from page text to the product cards on it. */
module MicroCenter {
  import opened Common
  import opened Scrapers

  /** One request of the session: a response with a status and body, or a raised error. */
  datatype HttpAttempt = Response(status: int, text: string) | RequestFailed

  /** What the selectors read from one `li.product_wrapper` card. */
  datatype Card = Card(titleTag: Option<TitleTag>, imgSrc: Option<string>, price: Option<real>)

  /** The `.h2 a` tag: its text and its `href`, if it has one. */
  datatype TitleTag = TitleTag(text: string, href: Option<string>)

  // ---------------------------------------------------------------- fetch

  /** The answer the loop returns or raises from attempt `attempt` on: the body of the
      first 200 response, or `RuntimeError` once every attempt up to `maxRetries` failed. */
  function FetchFrom(network: (string, nat) -> HttpAttempt, maxRetries: int, url: string, attempt: nat): Outcome<string>
    decreases maxRetries - attempt
  {
    if attempt > maxRetries then Err(FetchFailed(maxRetries, url))
    else
      match network(url, attempt)
      case Response(status, text) =>
        if status == 200 then Ok(text) else FetchFrom(network, maxRetries, url, attempt + 1)
      case RequestFailed => FetchFrom(network, maxRetries, url, attempt + 1)
  }

  predicate Succeeds(network: (string, nat) -> HttpAttempt, url: string, attempt: nat)
  {
    network(url, attempt).Response? && network(url, attempt).status == 200
  }

  /** `fetch(url)`. */
  function FetchResult(network: (string, nat) -> HttpAttempt, maxRetries: int, url: string): Outcome<string>
  {
    FetchFrom(network, maxRetries, url, 1)
  }

  /** The loop returns the body of the first successful attempt within `first..maxRetries`,
      and raises exactly when none of them succeeds, naming the retry count and URL. */
  lemma {:induction false} FetchFromSpec(network: (string, nat) -> HttpAttempt, maxRetries: int, url: string, first: nat)
    ensures var r := FetchFrom(network, maxRetries, url, first);
            && (r.Err? <==> forall a: nat :: first <= a <= maxRetries ==> !Succeeds(network, url, a))
            && (r.Err? ==> r.error == FetchFailed(maxRetries, url))
            && (r.Ok? ==> exists a: nat :: first <= a <= maxRetries && Succeeds(network, url, a) &&
                                           r.value == network(url, a).text &&
                                           forall b: nat :: first <= b < a ==> !Succeeds(network, url, b))
    decreases maxRetries - first
  {
    if first <= maxRetries && !Succeeds(network, url, first) {
      FetchFromSpec(network, maxRetries, url, first + 1);
      var r := FetchFrom(network, maxRetries, url, first);
      if r.Ok? {
        var a: nat :| first + 1 <= a <= maxRetries && Succeeds(network, url, a) &&
                      r.value == network(url, a).text &&
                      forall b: nat :: first + 1 <= b < a ==> !Succeeds(network, url, b);
        assert forall b: nat :: first <= b < a ==> !Succeeds(network, url, b);
      }
    }
  }

  // ---------------------------------------------------------------- parse

  /** `parse_product(card)`: stripped title text when the tag exists, the absolute URL only
      when the tag has an `href`, and the fixed `-1` rating and review count. */
  function ParseProduct(card: Card): Product
  {
    var title := if card.titleTag.None? then None else Some(Strip(card.titleTag.value.text));
    var url := if card.titleTag.Some? && card.titleTag.value.href.Some?
               then Some("https://www.microcenter.com" + card.titleTag.value.href.value) else None;
    Product(title, card.price, Some(-1.0), Some(-1), url, card.imgSrc, None, None)
  }

  /** `product.get('title') and product.get('price') is not None`. */
  predicate KeepProduct(p: Product)
  {
    Truthy(p.title) && p.price.Some?
  }

  /** The products of a page's cards that pass the filter, in card order. */
  function ParsedCards(cards: seq<Card>): seq<Product>
  {
    if cards == [] then []
    else
      var n := |cards| - 1;
      ParsedCards(cards[..n]) + (if KeepProduct(ParseProduct(cards[n])) then [ParseProduct(cards[n])] else [])
  }

  /** Every kept product passes the filter and has the fixed fields. */
  lemma {:induction false} ParsedCardsSound(cards: seq<Card>)
    ensures |ParsedCards(cards)| <= |cards|
    ensures forall p :: p in ParsedCards(cards) ==>
              KeepProduct(p) && p.rating == Some(-1.0) && p.reviewCount == Some(-1)
  {
    if cards != [] {
      ParsedCardsSound(cards[..|cards| - 1]);
    }
  }

  /** Every card whose product passes the filter is kept. */
  lemma {:induction false} ParsedCardsComplete(cards: seq<Card>)
    ensures forall c :: c in cards && KeepProduct(ParseProduct(c)) ==> ParseProduct(c) in ParsedCards(cards)
  {
    if cards != [] {
      var n := |cards| - 1;
      ParsedCardsComplete(cards[..n]);
      assert forall c :: c in cards ==> c in cards[..n] || c == cards[n];
    }
  }

  /** A card whose link has no text is dropped, whatever its price. */
  lemma EmptyTitleDropped(href: string, price: Option<real>, img: Option<string>)
    ensures ParsedCards([Card(Some(TitleTag("", Some(href))), img, price)]) == []
  {
    var cards := [Card(Some(TitleTag("", Some(href))), img, price)];
    assert cards[..0] == [];
    assert Strip("") == "";
  }

  // ---------------------------------------------------------------- pages

  /** The URL of page `page` of a category. */
  function PageUrl(categoryUrl: string, page: nat): string
  {
    if Contains(categoryUrl, "search_results.aspx") && page > 1 then categoryUrl + "&page=" + NatToString(page)
    else if page > 1 then categoryUrl + "?page=" + NatToString(page)
    else categoryUrl
  }

  /** Page 1 is the category URL itself; a later page appends `&page=N` on search pages
      and `?page=N` elsewhere, and `N` reads back as the page number. */
  lemma PageUrlRule(categoryUrl: string, page: nat)
    ensures page <= 1 ==> PageUrl(categoryUrl, page) == categoryUrl
    ensures page > 1 ==>
              var sep := if Contains(categoryUrl, "search_results.aspx") then "&page=" else "?page=";
              var u := PageUrl(categoryUrl, page);
              |u| > |categoryUrl| + 6 && u[..|categoryUrl| + 6] == categoryUrl + sep &&
              (forall i :: |categoryUrl| + 6 <= i < |u| ==> IsDigit(u[i])) &&
              DigitsValue(u[|categoryUrl| + 6..]) == page
  {
    if page > 1 {
      var sep := if Contains(categoryUrl, "search_results.aspx") then "&page=" else "?page=";
      var u := PageUrl(categoryUrl, page);
      assert u == (categoryUrl + sep) + NatToString(page);
      assert u[|categoryUrl| + 6..] == NatToString(page);
    }
  }

  function Prepend(before: seq<Product>, o: Outcome<seq<Product>>): Outcome<seq<Product>>
  {
    if o.Err? then o else Ok(before + o.value)
  }

  lemma PrependAssociates(a: seq<Product>, b: seq<Product>, o: Outcome<seq<Product>>)
    ensures Prepend([], o) == o
    ensures Prepend(a, Prepend(b, o)) == Prepend(a + b, o)
  {
    if o.Ok? {
      assert [] + o.value == o.value;
      assert a + (b + o.value) == (a + b) + o.value;
    }
  }

  /** The products of pages `page..maxPages` of a category: each page is fetched and
      parsed; an empty page ends the loop; a fetch that raises ends the whole call. */
  function PagesFrom(network: (string, nat) -> HttpAttempt, cardsOf: string -> seq<Card>, maxRetries: int,
                     categoryUrl: string, page: nat, maxPages: int): Outcome<seq<Product>>
    decreases maxPages - page
  {
    if page > maxPages then Ok([])
    else
      match FetchResult(network, maxRetries, PageUrl(categoryUrl, page))
      case Err(e) => Err(e)
      case Ok(html) =>
        var found := ParsedCards(cardsOf(html));
        if found == [] then Ok([])
        else Prepend(found, PagesFrom(network, cardsOf, maxRetries, categoryUrl, page + 1, maxPages))
  }

  /** Every product of a successful category run passed the page filter. */
  lemma {:induction false} PagesFromFiltered(network: (string, nat) -> HttpAttempt, cardsOf: string -> seq<Card>,
                                             maxRetries: int, categoryUrl: string, page: nat, maxPages: int)
    ensures var r := PagesFrom(network, cardsOf, maxRetries, categoryUrl, page, maxPages);
            r.Ok? ==> forall p :: p in r.value ==> KeepProduct(p) && p.rating == Some(-1.0) && p.reviewCount == Some(-1)
    decreases maxPages - page
  {
    if page <= maxPages {
      var f := FetchResult(network, maxRetries, PageUrl(categoryUrl, page));
      if f.Ok? {
        ParsedCardsSound(cardsOf(f.value));
        PagesFromFiltered(network, cardsOf, maxRetries, categoryUrl, page + 1, maxPages);
      }
    }
  }

  /** A run with no page to visit returns `[]` without fetching, and a run whose first
      page fails to load raises that page's error. */
  lemma PagesFromEdges(network: (string, nat) -> HttpAttempt, cardsOf: string -> seq<Card>,
                       maxRetries: int, categoryUrl: string, maxPages: int)
    ensures maxPages < 1 ==> PagesFrom(network, cardsOf, maxRetries, categoryUrl, 1, maxPages) == Ok([])
    ensures maxPages >= 1 && (forall a: nat :: 1 <= a <= maxRetries ==> !Succeeds(network, categoryUrl, a)) ==>
              PagesFrom(network, cardsOf, maxRetries, categoryUrl, 1, maxPages) == Err(FetchFailed(maxRetries, categoryUrl))
  {
    FetchFromSpec(network, maxRetries, categoryUrl, 1);
  }

  // ---------------------------------------------------------------- the scraper

  /** The constructor reads `base_url` and `categories` with `[]`. */
  predicate Constructs(config: Config)
  {
    config.baseUrl.Some? && config.categories.Some?
  }

  class MicroCenterScraper {
    const network: (string, nat) -> HttpAttempt
    const cardsOf: string -> seq<Card>
    const maxRetries: int
    const baseUrl: string
    const categories: seq<(string, string)>
    const maxPages: int
    const delay: int
    var sessionOpen: bool

    /** `MicroCenterStaticScraper(config)`, with its defaults: three retries, one page and
        a one-second delay. */
    constructor (config: Config, network: (string, nat) -> HttpAttempt, cardsOf: string -> seq<Card>)
      requires Constructs(config)
      ensures this.network == network && this.cardsOf == cardsOf
      ensures maxRetries == (if config.maxRetries.None? then 3 else config.maxRetries.value)
      ensures baseUrl == config.baseUrl.value && categories == config.categories.value
      ensures maxPages == (if config.maxPages.None? then 1 else config.maxPages.value)
      ensures delay == (if config.delay.None? then 1 else config.delay.value)
      ensures sessionOpen
    {
      this.network := network;
      this.cardsOf := cardsOf;
      maxRetries := if config.maxRetries.None? then 3 else config.maxRetries.value;
      baseUrl := config.baseUrl.value;
      categories := config.categories.value;
      maxPages := if config.maxPages.None? then 1 else config.maxPages.value;
      delay := if config.delay.None? then 1 else config.delay.value;
      sessionOpen := true;
    }

    /** `fetch(url)`: at most `max_retries` requests, the first 200 body returned, failures
        swallowed, and `RuntimeError` after the last one; `attempts` is how many were sent. */
    method Fetch(url: string) returns (r: Outcome<string>, ghost attempts: nat)
      ensures r == FetchResult(network, maxRetries, url)
      ensures attempts <= (if maxRetries < 0 then 0 else maxRetries)
      ensures r.Ok? ==> attempts >= 1 && Succeeds(network, url, attempts) && r.value == network(url, attempts).text
    {
      attempts := 0;
      var attempt := 1;
      while attempt <= maxRetries
        invariant 1 <= attempt && attempts == attempt - 1
        invariant attempt <= maxRetries + 1 || attempt == 1
        invariant FetchResult(network, maxRetries, url) == FetchFrom(network, maxRetries, url, attempt)
        decreases maxRetries - attempt
      {
        var answer := network(url, attempt);
        attempts := attempt;
        if answer.Response? && answer.status == 200 {
          return Ok(answer.text), attempts;
        }
        attempt := attempt + 1;
      }
      r := Err(FetchFailed(maxRetries, url));
    }

    /** `parse(html)`: the filtered products of the page's cards. */
    method Parse(html: string) returns (products: seq<Product>)
      ensures products == ParsedCards(cardsOf(html))
    {
      var cards := cardsOf(html);
      products := [];
      for i := 0 to |cards|
        invariant products == ParsedCards(cards[..i])
      {
        assert cards[..i + 1][..i] == cards[..i];
        var product := ParseProduct(cards[i]);
        if Truthy(product.title) && product.price.Some? {
          products := products + [product];
        }
      }
      assert cards[..|cards|] == cards;
    }

    /** `scrape_category(category_url, max_pages, delay)`; `pages` is how many pages were
        fetched. */
    method ScrapeCategory(categoryUrl: string, maxPagesArg: Option<int>, delayArg: Option<int>)
      returns (r: Outcome<seq<Product>>, ghost pages: nat)
      ensures r == PagesFrom(network, cardsOf, maxRetries, categoryUrl, 1, OrDefault(maxPagesArg, maxPages))
      ensures pages <= (if OrDefault(maxPagesArg, maxPages) < 0 then 0 else OrDefault(maxPagesArg, maxPages))
    {
      var limit := OrDefault(maxPagesArg, maxPages);
      var pause := OrDefault(delayArg, delay);
      var all: seq<Product> := [];
      PrependAssociates([], [], PagesFrom(network, cardsOf, maxRetries, categoryUrl, 1, limit));
      pages := 0;
      var page := 1;
      while page <= limit
        invariant 1 <= page && pages == page - 1
        invariant page <= limit + 1 || page == 1
        invariant PagesFrom(network, cardsOf, maxRetries, categoryUrl, 1, limit) ==
                  Prepend(all, PagesFrom(network, cardsOf, maxRetries, categoryUrl, page, limit))
        decreases limit - page
      {
        var url := PageUrl(categoryUrl, page);
        var html, attempts := Fetch(url);
        pages := page;
        if html.Err? {
          return Err(html.error), pages;
        }
        var found := Parse(html.value);
        PrependAssociates(all, found, PagesFrom(network, cardsOf, maxRetries, categoryUrl, page + 1, limit));
        all := all + found;
        if found == [] {
          assert all + [] == all;
          return Ok(all), pages;
        }
        page := page + 1;
      }
      assert all + [] == all;
      r := Ok(all);
    }

    /** `scrape(url)` is the category run with the instance's page limit. */
    method Scrape(url: string) returns (r: Outcome<seq<Product>>)
      ensures r == PagesFrom(network, cardsOf, maxRetries, url, 1, maxPages)
    {
      ghost var pages;
      r, pages := ScrapeCategory(url, None, None);
    }

    /** `close()` closes the session. */
    method Close()
      modifies this
      ensures !sessionOpen
    {
      sessionOpen := false;
    }
  }
}
