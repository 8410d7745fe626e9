/** The Amazon browser scraper: the rating and review-count text rules, the cleaning of
    a product's fields, the filter that keeps only fully populated products, and the
    scraper's fetch and page loop over the shared driver. The HTML selection is taken
    as given: a card holds what the selectors found in one search-result block. */
module Amazon {
  import opened Common
  import opened Browser
  import Scrapers

  // ---------------------------------------------------------------- text rules

  predicate IsRatingChar(c: char) { IsDigit(c) || c == '.' }

  /** `re.match(r"([\d.]+)", text)`: the leading run of digits and dots, if there is one. */
  function RatingRun(text: string): (r: Option<string>)
  {
    var run := LeadingRun(text, IsRatingChar);
    if run == [] then None else Some(run)
  }

  /** The text starts with a digit or a dot. */
  predicate StartsRating(text: Option<string>)
  {
    text.Some? && text.value != [] && IsRatingChar(text.value[0])
  }

  /** What the rating selectors found in one node: the stripped text of the first
      star-icon span found, and that of the small base-colour span, when present. */
  datatype RatingNode = RatingNode(starText: Option<string>, smallText: Option<string>)

  /** `extract_rating(node)`: the star text's leading number when the star text is
      non-empty and starts with one, else the small span's leading number. */
  function ExtractRating(node: RatingNode): Option<string>
  {
    if Truthy(node.starText) && RatingRun(node.starText.value).Some? then RatingRun(node.starText.value)
    else if node.smallText.Some? then RatingRun(node.smallText.value)
    else None
  }

  /** A rating is found exactly when one of the two texts starts with a digit or a dot;
      it is then the whole leading number of the star text if that one starts with one,
      and of the small text otherwise. */
  lemma ExtractRatingSpec(node: RatingNode)
    ensures ExtractRating(node).Some? <==> StartsRating(node.starText) || StartsRating(node.smallText)
    ensures StartsRating(node.starText) ==>
              ExtractRating(node) == Some(LeadingRun(node.starText.value, IsRatingChar))
    ensures !StartsRating(node.starText) && StartsRating(node.smallText) ==>
              ExtractRating(node) == Some(LeadingRun(node.smallText.value, IsRatingChar))
  {
  }

  /** Every extracted rating is a non-empty run of digits and dots. */
  lemma ExtractRatingShape(node: RatingNode)
    ensures var r := ExtractRating(node);
            r.Some? ==> r.value != [] && forall i :: 0 <= i < |r.value| ==> IsRatingChar(r.value[i])
  {
  }

  /** `s.strip("()")`: leading and trailing parentheses removed. */
  function StripParens(s: string): (r: string)
    ensures |r| <= |s|
    ensures r != [] ==> r[0] != '(' && r[0] != ')' && r[|r| - 1] != '(' && r[|r| - 1] != ')'
    decreases |s|
  {
    if s != [] && (s[0] == '(' || s[0] == ')') then StripParens(s[1..])
    else if s != [] && (s[|s| - 1] == '(' || s[|s| - 1] == ')') then StripParens(s[..|s| - 1])
    else s
  }

  /** The review-count part of `clean_product_fields`: `None` stays `None`; otherwise the
      commas are removed, the text stripped and read as an integer, and text that is no
      integer becomes 0. */
  function CleanReviewCount(count: Option<string>): Option<int>
  {
    if count.None? then None
    else
      match ParseInt(Strip(Remove(count.value, ',')))
      case Some(n) => Some(n)
      case None => Some(0)
  }

  /** A text without whitespace is its own `strip()`. */
  lemma StripWithoutSpaces(s: string)
    requires forall x :: x in s ==> !IsSpace(x)
    ensures Strip(s) == s
  {
    if s != [] {
      assert s[0] in s && s[|s| - 1] in s;
    }
  }

  /** Commas anywhere in the count are ignored, a written integer reads back as itself,
      and a count that is present is never `None`. */
  lemma CleanReviewCountSpec(s: string, i: int)
    ensures CleanReviewCount(Some(Remove(s, ','))) == CleanReviewCount(Some(s))
    ensures CleanReviewCount(Some(IntToString(i))) == Some(i)
    ensures CleanReviewCount(Some(s)).Some?
    ensures CleanReviewCount(None).None?
  {
    RemoveAbsent(Remove(s, ','), ',');
    IntToStringPlain(i);
    var t := IntToString(i);
    assert ',' !in t;
    RemoveAbsent(t, ',');
    StripWithoutSpaces(t);
    ParseIntRoundTrip(i);
  }

  /** A count that starts with anything but a digit, a sign, a comma or whitespace is
      no integer, and is counted as 0 (`"n/a"`, `"None"`). */
  lemma CleanReviewCountUnreadable(s: string)
    requires s != [] && !IsDigit(s[0]) && s[0] != '+' && s[0] != '-' && s[0] != ',' && !IsSpace(s[0])
    ensures CleanReviewCount(Some(s)) == Some(0)
  {
    var t := Remove(s, ',');
    assert t[0] == s[0];
    var l := StripLeft(t);
    assert l == t;
    var r := StripRight(l);
    assert r != [] && r[0] == s[0];
  }

  /** Thousands separators are dropped: digits with commas between them count as the
      digits alone (`"1,234"` is 1234). */
  lemma CleanReviewCountGrouped(a: string, b: string)
    requires a != [] && AllDigits(a) && AllDigits(b)
    ensures CleanReviewCount(Some(a + [','] + b)) == Some(DigitsValue(a + b))
  {
    CommaDropped(a, b);
    DigitsJoined(a, b);
    CleanReviewCountDigits(a + [','] + b, a + b);
  }

  lemma DigitsJoined(a: string, b: string)
    requires AllDigits(a) && AllDigits(b)
    ensures AllDigits(a + b)
  {
  }

  /** A count that is digits once its commas are removed counts those digits. */
  lemma CleanReviewCountDigits(s: string, t: string)
    requires Remove(s, ',') == t && t != [] && AllDigits(t)
    ensures CleanReviewCount(Some(s)) == Some(DigitsValue(t))
  {
    DigitsStripped(t);
  }

  lemma DigitsStripped(t: string)
    requires AllDigits(t)
    ensures Strip(t) == t
  {
    assert forall x :: x in t ==> IsDigit(x);
    StripWithoutSpaces(t);
  }

  lemma CommaDropped(a: string, b: string)
    requires AllDigits(a) && AllDigits(b)
    ensures Remove(a + [','] + b, ',') == a + b
  {
    var u := [','] + b;
    assert a + [','] + b == a + u;
    assert Remove(a, ',') == a by {
      assert forall x :: x in a ==> IsDigit(x);
      RemoveAbsent(a, ',');
    }
    assert Remove(u, ',') == b by {
      assert forall x :: x in b ==> IsDigit(x);
      RemoveAbsent(b, ',');
      assert u[1..] == b;
    }
    RemoveConcat(a, u, ',');
  }

  // ---------------------------------------------------------------- products

  /** A tag that may carry an `href` attribute. */
  datatype Link = Link(href: Option<string>)

  /** What the selectors found in a block's `div.sg-col-inner`: the stripped title
      text, the heading link, the image source, `extract_price` of the block, its
      rating node, and the stripped texts of the reviews-block and underlined spans. */
  datatype Inner = Inner(title: Option<string>, link: Option<Link>, imgSrc: Option<string>,
                         price: Option<string>, rating: RatingNode,
                         reviewsBlock: Option<string>, underline: Option<string>)

  /** One search-result block: its inner column if it has one, its `/dp/` link,
      `extract_price` of the whole block and the rating node of the whole block. */
  datatype Card = Card(inner: Option<Inner>, dpLink: Option<Link>, price: Option<string>, rating: RatingNode)

  /** The product dict `parse_product` builds before cleaning; every value is text. */
  datatype RawProduct = RawProduct(title: Option<string>, price: Option<string>, rating: Option<string>,
                                   url: Option<string>, reviewCount: Option<string>, imgUrl: Option<string>)

  /** The url is the store address followed by the chosen link's `href`. */
  function ProductUrl(link: Option<Link>): (r: Option<string>)
  {
    if link.Some? && link.value.href.Some? then Some("https://www.amazon.com" + link.value.href.value) else None
  }

  /** `parse_product` before cleaning: the inner column wins for every field it has, and
      the whole block is the fallback for the link, a falsy price and a missing rating. */
  function RawOf(card: Card): RawProduct
  {
    var inner := card.inner;
    var title := if inner.Some? then inner.value.title else None;
    var link := if inner.Some? && inner.value.link.Some? then inner.value.link else card.dpLink;
    var img := if inner.Some? then inner.value.imgSrc else None;
    var innerPrice := if inner.Some? then inner.value.price else None;
    var price := if Truthy(innerPrice) then innerPrice else card.price;
    var innerRating := if inner.Some? then ExtractRating(inner.value.rating) else None;
    var rating := if Truthy(innerRating) then innerRating else ExtractRating(card.rating);
    var reviewTag := if inner.Some? && inner.value.reviewsBlock.Some? then inner.value.reviewsBlock
                     else if inner.Some? then inner.value.underline
                     else None;
    var review := if reviewTag.Some? then Some(StripParens(reviewTag.value)) else None;
    RawProduct(title, price, rating, ProductUrl(link), review, img)
  }

  /** `clean_product_fields`, with `toFloat` standing for `float()` (`None` where it
      raises): the price and rating become numbers, the review count an integer, and
      the title, url and image are copied. */
  function Clean(raw: RawProduct, toFloat: string -> Option<real>): (p: Product)
    ensures p.title == raw.title && p.url == raw.url && p.imgUrl == raw.imgUrl
    ensures p.category.None? && p.source.None?
    ensures p.reviewCount == CleanReviewCount(raw.reviewCount)
  {
    Product(
      title := raw.title,
      price := if raw.price.Some? then toFloat(CleanPriceText(raw.price.value)) else None,
      rating := if raw.rating.Some? then toFloat(Strip(Remove(raw.rating.value, ','))) else None,
      reviewCount := CleanReviewCount(raw.reviewCount),
      url := raw.url,
      imgUrl := raw.imgUrl,
      category := None,
      source := None)
  }

  function ParseProduct(card: Card, toFloat: string -> Option<real>): Product
  {
    Clean(RawOf(card), toFloat)
  }

  /** Python truthiness of every value of the six-key dict: non-empty texts and non-zero
      numbers. */
  predicate AllTruthy(p: Product)
  {
    && Truthy(p.title)
    && p.price.Some? && p.price.value != 0.0
    && p.rating.Some? && p.rating.value != 0.0
    && p.reviewCount.Some? && p.reviewCount.value != 0
    && Truthy(p.url)
    && Truthy(p.imgUrl)
  }

  /** `parse(html)` on the page's cards: the products whose every field is truthy. */
  function ParsedCards(cards: seq<Card>, toFloat: string -> Option<real>): seq<Product>
  {
    if cards == [] then []
    else
      var before := ParsedCards(cards[..|cards| - 1], toFloat);
      var p := ParseProduct(cards[|cards| - 1], toFloat);
      if AllTruthy(p) then before + [p] else before
  }

  /** Every kept product is fully populated and comes from one of the cards. */
  lemma {:induction false} ParsedCardsSound(cards: seq<Card>, toFloat: string -> Option<real>)
    ensures forall p :: p in ParsedCards(cards, toFloat) ==>
              AllTruthy(p) && exists c :: c in cards && p == ParseProduct(c, toFloat)
  {
    if cards != [] {
      var n := |cards| - 1;
      ParsedCardsSound(cards[..n], toFloat);
      assert forall c :: c in cards[..n] ==> c in cards;
    }
  }

  /** Every card whose product is fully populated is kept. */
  lemma {:induction false} ParsedCardsComplete(cards: seq<Card>, toFloat: string -> Option<real>)
    ensures forall c :: c in cards && AllTruthy(ParseProduct(c, toFloat)) ==>
              ParseProduct(c, toFloat) in ParsedCards(cards, toFloat)
  {
    if cards != [] {
      var n := |cards| - 1;
      ParsedCardsComplete(cards[..n], toFloat);
      assert forall c :: c in cards ==> c in cards[..n] || c == cards[n];
    }
  }

  /** A product whose review count is missing or reads as 0, text that is no integer
      included, is dropped. */
  lemma UnreadableCountDropped(card: Card, toFloat: string -> Option<real>)
    requires var raw := RawOf(card);
             raw.reviewCount.None? || ParseInt(Strip(Remove(raw.reviewCount.value, ','))).None?
    ensures !AllTruthy(ParseProduct(card, toFloat))
  {
  }

  /** The parser of one page's HTML, given how its cards are selected. */
  function PageParser(cardsOf: string -> seq<Card>, toFloat: string -> Option<real>): string -> seq<Product>
  {
    html => ParsedCards(cardsOf(html), toFloat)
  }

  // ---------------------------------------------------------------- the scraper

  /** `is_captcha_page()` for Amazon: one of three markers in the page source. */
  predicate AmazonCaptcha(src: string, currentUrl: string)
  {
    || Contains(src, "Type the characters you see in this image")
    || Contains(src, "/captcha/")
    || Contains(src, "enter the characters as they are shown in the image")
  }

  /** The number of attempts `fetch` makes: the given count, or `max_retries` for `None`. */
  function RetryCount(retries: Option<int>, maxRetries: int): int
  {
    if retries.None? then maxRetries else retries.value
  }

  /** The constructor reads `base_url`, `categories`, `max_pages` and `delay` with `[]`. */
  predicate Constructs(config: Scrapers.Config)
  {
    config.baseUrl.Some? && config.categories.Some? && config.maxPages.Some? && config.delay.Some?
  }

  class AmazonScraper {
    const maxRetries: int
    const baseUrl: string
    const categories: seq<(string, string)>
    const maxPages: int
    const delay: int
    const cardsOf: string -> seq<Card>
    const toFloat: string -> Option<real>
    const driver: Session

    /** `AmazonSeleniumScraper(config)`: `max_retries` defaults to 3, the other four
        settings are required, and one driver is started. */
    constructor (config: Scrapers.Config, browser: (string, nat) -> Attempt, view: (string, nat) -> PageView,
                 cardsOf: string -> seq<Card>, toFloat: string -> Option<real>)
      requires Constructs(config)
      ensures maxRetries == (if config.maxRetries.None? then 3 else config.maxRetries.value)
      ensures baseUrl == config.baseUrl.value && categories == config.categories.value
      ensures maxPages == config.maxPages.value && delay == config.delay.value
      ensures this.cardsOf == cardsOf && this.toFloat == toFloat
      ensures fresh(driver) && driver.browser == browser && driver.view == view
      ensures driver.isCaptcha == AmazonCaptcha && driver.Live()
    {
      maxRetries := if config.maxRetries.None? then 3 else config.maxRetries.value;
      baseUrl := config.baseUrl.value;
      categories := config.categories.value;
      maxPages := config.maxPages.value;
      delay := config.delay.value;
      this.cardsOf := cardsOf;
      this.toFloat := toFloat;
      driver := new Session(browser, AmazonCaptcha, view);
    }

    /** `fetch(url, retries)`; `None` means `max_retries`. */
    method Fetch(url: string, retries: Option<int>) returns (r: Outcome<string>)
      modifies driver
      ensures r == FetchResult(driver.browser, driver.isCaptcha, url, RetryCount(retries, maxRetries),
                               old(driver.pageSource))
      ensures driver.started - driver.quits == old(driver.started) - old(driver.quits)
    {
      ghost var attempts;
      r, attempts := driver.Fetch(url, RetryCount(retries, maxRetries));
    }

    /** `fetch(url)` with the default argument, which is 3 and not `max_retries`. */
    method FetchDefault(url: string) returns (r: Outcome<string>)
      modifies driver
      ensures r == FetchResult(driver.browser, driver.isCaptcha, url, 3, old(driver.pageSource))
      ensures driver.started - driver.quits == old(driver.started) - old(driver.quits)
    {
      r := Fetch(url, Some(3));
    }

    /** `parse(html)`: every card's cleaned product, kept when all its fields are truthy. */
    method Parse(html: string) returns (products: seq<Product>)
      ensures products == ParsedCards(cardsOf(html), toFloat)
    {
      var cards := cardsOf(html);
      products := [];
      for i := 0 to |cards|
        invariant products == ParsedCards(cards[..i], toFloat)
      {
        assert cards[..i + 1][..i] == cards[..i];
        var data := ParseProduct(cards[i], toFloat);
        if AllTruthy(data) {
          products := products + [data];
        }
      }
      assert cards[..|cards|] == cards;
    }

    /** `scrape_category(category_url, max_pages, delay)`: pages in order until a product
        wait fails, a next-click fails, or `max_pages` pages are done. */
    method ScrapeCategory(categoryUrl: string, maxPagesArg: Option<int>, delayArg: Option<int>)
      returns (all: seq<Product>)
      ensures all == PagesFrom(driver.view, PageParser(cardsOf, toFloat), categoryUrl, 1,
                               OrDefault(maxPagesArg, maxPages), true)
    {
      var limit := OrDefault(maxPagesArg, maxPages);
      var pause := OrDefault(delayArg, delay);
      ghost var parser := PageParser(cardsOf, toFloat);
      all := [];
      var page := 1;
      while page <= limit
        invariant 1 <= page
        invariant PagesFrom(driver.view, parser, categoryUrl, 1, limit, true) ==
                  all + PagesFrom(driver.view, parser, categoryUrl, page, limit, true)
        decreases limit - page
      {
        var v := driver.view(categoryUrl, page);
        if !v.loaded {
          assert all + [] == all;
          return;
        }
        var found := Parse(v.page);
        ghost var rest := PagesFrom(driver.view, parser, categoryUrl, page + 1, limit, true);
        if page < limit && !v.nextClickable {
          assert PagesFrom(driver.view, parser, categoryUrl, page, limit, true) == found;
          all := all + found;
          return;
        }
        assert PagesFrom(driver.view, parser, categoryUrl, page, limit, true) == found + rest;
        all := all + found;
        page := page + 1;
      }
      assert all + [] == all;
    }

    /** `scrape(url)` is the category run with the instance's page limit. */
    method Scrape(url: string) returns (r: seq<Product>)
      ensures r == PagesFrom(driver.view, PageParser(cardsOf, toFloat), url, 1, maxPages, true)
    {
      r := ScrapeCategory(url, None, None);
    }

    /** `close()` quits the driver. */
    method Close()
      modifies driver
      ensures driver.quits == old(driver.quits) + 1 && driver.started == old(driver.started)
    {
      driver.Quit();
    }
  }
}
