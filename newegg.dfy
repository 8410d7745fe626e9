/** The Newegg batch crawler: the two text helpers that read a rating and a review
    count, the spider's request and response handling, and the scraper that builds the
    spider's start URLs and URL-to-category map from its configuration. */
module Newegg {
  import opened Common
  import opened Scrapers

  // ---------------------------------------------------------------- text helpers

  /** `rating-` followed by at least one digit starts at position `i`. */
  predicate RatingAt(s: string, i: nat)
  {
    i + 8 <= |s| && s[i..i + 7] == "rating-" && IsDigit(s[i + 7])
  }

  /** The digits of the match of `rating-(\d+)` at `i` (the group is greedy). */
  function RatingDigits(s: string, i: nat): (r: string)
    requires i + 7 <= |s|
    ensures forall k :: 0 <= k < |r| ==> IsDigit(r[k])
  {
    LeadingRun(s[i + 7..], IsDigit)
  }

  /** `re.search` for `rating-(\d+)` from position `i` on, and the group's value. */
  function FirstRating(s: string, i: nat): Option<nat>
    decreases |s| - i
  {
    if i + 8 > |s| then None
    else if RatingAt(s, i) then Some(DigitsValue(RatingDigits(s, i)))
    else FirstRating(s, i + 1)
  }

  /** `parse_rating(class_str)`. */
  function ParseRating(classStr: Option<string>): Option<int>
  {
    if classStr.None? then None
    else match FirstRating(classStr.value, 0)
      case None => None
      case Some(n) => Some(n)
  }

  /** The search finds the leftmost match and reads its whole digit run. */
  lemma {:induction false} FirstRatingLeftmost(s: string, i: nat)
    ensures FirstRating(s, i).None? <==> forall j :: i <= j ==> !RatingAt(s, j)
    ensures FirstRating(s, i).Some? ==>
              exists j :: i <= j && RatingAt(s, j) && (forall k :: i <= k < j ==> !RatingAt(s, k)) &&
                          FirstRating(s, i).value == DigitsValue(RatingDigits(s, j))
    decreases |s| - i
  {
    if i + 8 <= |s| && !RatingAt(s, i) {
      FirstRatingLeftmost(s, i + 1);
      if FirstRating(s, i).Some? {
        var j :| i + 1 <= j && RatingAt(s, j) && (forall k :: i + 1 <= k < j ==> !RatingAt(s, k)) &&
                 FirstRating(s, i + 1).value == DigitsValue(RatingDigits(s, j));
        assert forall k :: i <= k < j ==> !RatingAt(s, k);
      }
    }
  }

  /** `parse_rating` is the value of the digits after the leftmost `rating-<digits>`,
      and `None` exactly when there is no such match or no input. */
  lemma ParseRatingSpec(classStr: Option<string>)
    ensures ParseRating(classStr).None? <==>
              classStr.None? || forall j :: 0 <= j ==> !RatingAt(classStr.value, j)
    ensures ParseRating(classStr).Some? ==>
              exists j: nat :: RatingAt(classStr.value, j) && (forall k :: 0 <= k < j ==> !RatingAt(classStr.value, k)) &&
                          ParseRating(classStr).value == DigitsValue(RatingDigits(classStr.value, j))
  {
    if classStr.Some? {
      FirstRatingLeftmost(classStr.value, 0);
    }
  }

  lemma ParseRatingExamples()
    ensures ParseRating(Some("rating-5")) == Some(5)
    ensures ParseRating(Some("rating-10 xyz")) == Some(10)
    ensures ParseRating(Some("notarating")) == None
    ensures ParseRating(None) == None
  {
    assert RatingAt("rating-5", 0);
    assert RatingDigits("rating-5", 0) == "5";
    assert RatingAt("rating-10 xyz", 0);
    assert "rating-10 xyz"[7..] == "10 xyz";
    assert RatingDigits("rating-10 xyz", 0) == "10";
    assert DigitsValue("10") == 10 by {
      assert "10"[..1] == "1";
    }
    var s := "notarating";
    assert !RatingAt(s, 0) && !RatingAt(s, 1) && !RatingAt(s, 2);
    assert FirstRating(s, 3) == None;
  }

  predicate IsCountChar(c: char) { IsDigit(c) || c == ',' }

  /** The text the group of `\(([\d,]+)\)` would capture at `i` (greedy; the class does
      not contain `)`, so the greedy run is the only candidate). */
  function CountGroup(s: string, i: nat): (g: string)
    requires i < |s|
    ensures forall k :: 0 <= k < |g| ==> IsCountChar(g[k])
  {
    LeadingRun(s[i + 1..], IsCountChar)
  }

  /** `\(([\d,]+)\)` matches at `i`. */
  predicate CountAt(s: string, i: nat)
  {
    i < |s| && s[i] == '(' && CountGroup(s, i) != [] &&
    i + 1 + |CountGroup(s, i)| < |s| && s[i + 1 + |CountGroup(s, i)|] == ')'
  }

  /** `re.search` for the parenthesised count from `i` on: the captured group. */
  function FirstCount(s: string, i: nat): (r: Option<string>)
    ensures r.Some? ==> forall k :: 0 <= k < |r.value| ==> IsCountChar(r.value[k])
    decreases |s| - i
  {
    if i >= |s| then None
    else if CountAt(s, i) then Some(CountGroup(s, i))
    else FirstCount(s, i + 1)
  }

  /** The digits of a group once its commas are gone. */
  function CountDigits(g: string): (d: string)
    requires forall k :: 0 <= k < |g| ==> IsCountChar(g[k])
    ensures forall k :: 0 <= k < |d| ==> IsDigit(d[k])
  {
    var d := Remove(g, ',');
    forall k | 0 <= k < |d| ensures IsDigit(d[k]) {
      assert d[k] in d;
      assert d[k] in g && d[k] != ',';
      var m :| 0 <= m < |g| && g[m] == d[k];
      assert IsCountChar(g[m]);
    }
    d
  }

  /** `parse_review_count(txt)` as written: `int('')` raises on a group made of commas only. */
  function ParseReviewCountAsWritten(txt: Option<string>): (r: Outcome<Option<int>>)
    ensures r.Err? ==> r.error == ValueError("invalid literal for int() with base 10: ''")
  {
    var s := if txt.None? then "" else txt.value;
    match FirstCount(s, 0)
    case None => Ok(None)
    case Some(g) =>
      if CountDigits(g) == [] then Err(ValueError("invalid literal for int() with base 10: ''"))
      else Ok(Some(DigitsValue(CountDigits(g))))
  }

  /** The review-count text `(,)` makes the helper raise instead of returning `None`. */
  lemma ReviewCountCommasOnly()
    ensures ParseReviewCountAsWritten(Some("(,)")).Err?
  {
    var s := "(,)";
    assert s[1..] == ",)";
    assert LeadingRun(",)"[1..], IsCountChar) == [];
    assert CountGroup(s, 0) == ",";
    assert CountAt(s, 0);
    assert CountDigits(",") == [] by {
      assert Remove(",", ',') == [] + Remove([], ',');
    }
  }

  /** A parenthesised group with at least one digit in it. */
  predicate NumericCountAt(s: string, i: nat)
  {
    CountAt(s, i) && CountDigits(CountGroup(s, i)) != []
  }

  /** The first group that holds a number, read as that number. */
  function FirstNumericCount(s: string, i: nat): Option<nat>
    decreases |s| - i
  {
    if i >= |s| then None
    else if NumericCountAt(s, i) then Some(DigitsValue(CountDigits(CountGroup(s, i))))
    else FirstNumericCount(s, i + 1)
  }

  /** `parse_review_count(txt)` as intended: the number in the first parenthesised group
      of digits and commas that holds a number, `None` otherwise; it never raises. */
  function ParseReviewCount(txt: Option<string>): Option<int>
  {
    var s := if txt.None? then "" else txt.value;
    match FirstNumericCount(s, 0)
    case None => None
    case Some(n) => Some(n)
  }

  lemma {:induction false} FirstNumericCountAgrees(s: string, i: nat)
    ensures FirstCount(s, i).None? ==> FirstNumericCount(s, i).None?
    ensures FirstCount(s, i).Some? && CountDigits(FirstCount(s, i).value) != [] ==>
              FirstNumericCount(s, i) == Some(DigitsValue(CountDigits(FirstCount(s, i).value)))
    decreases |s| - i
  {
    if i < |s| && !CountAt(s, i) {
      FirstNumericCountAgrees(s, i + 1);
    }
  }

  /** Wherever the helper as written returns, the corrected one returns the same. */
  lemma ParseReviewCountAgrees(txt: Option<string>)
    requires ParseReviewCountAsWritten(txt).Ok?
    ensures ParseReviewCount(txt) == ParseReviewCountAsWritten(txt).value
  {
    FirstNumericCountAgrees(if txt.None? then "" else txt.value, 0);
  }

  lemma ParseReviewCountThousands()
    ensures ParseReviewCount(Some("(1,234)")) == Some(1234)
  {
    var a := "(1,234)";
    assert a[1..] == "1,234)";
    LeadingRunUpTo("1,234)", IsCountChar, 5);
    assert "1,234)"[..5] == "1,234";
    assert CountGroup(a, 0) == "1,234";
    ThousandsDigits();
    assert NumericCountAt(a, 0);
  }

  lemma ThousandsDigits()
    ensures CountDigits("1,234") == "1234" && DigitsValue("1234") == 1234
  {
    ThousandsRemoved();
    ThousandsValue();
  }

  lemma ThousandsRemoved()
    ensures Remove("1,234", ',') == "1234"
  {
    assert Remove("4", ',') == "4" + Remove("", ',');
    assert Remove("34", ',') == "3" + Remove("4", ',');
    assert Remove("234", ',') == "2" + Remove("34", ',');
    assert Remove(",234", ',') == Remove("234", ',');
    assert Remove("1,234", ',') == "1" + Remove(",234", ',');
  }

  lemma ThousandsValue()
    ensures DigitsValue("1234") == 1234
  {
    assert "1234"[..3] == "123" && "123"[..2] == "12" && "12"[..1] == "1";
  }

  lemma ParseReviewCountPlain()
    ensures ParseReviewCount(Some("(56)")) == Some(56)
  {
    var b := "(56)";
    assert b[1..] == "56)";
    assert CountGroup(b, 0) == "56" by {
      assert "56)"[1..] == "6)";
      assert "6)"[1..] == ")";
    }
    assert CountDigits("56") == "56" by {
      assert Remove("56", ',') == "5" + Remove("6", ',');
      assert Remove("6", ',') == "6" + Remove("", ',');
    }
    assert DigitsValue("56") == 56 by {
      assert "56"[..1] == "5";
    }
    assert NumericCountAt(b, 0);
  }

  lemma ParseReviewCountNone()
    ensures ParseReviewCount(Some("no reviews")) == None
    ensures ParseReviewCount(Some("")) == None
    ensures ParseReviewCount(Some("(,)")) == None
  {
    var c := "no reviews";
    assert forall i :: 0 <= i < |c| ==> c[i] != '(';
    FirstNumericCountAbsent(c, 0);
    var d := "(,)";
    assert d[1..] == ",)";
    assert LeadingRun(",)"[1..], IsCountChar) == [];
    assert CountGroup(d, 0) == ",";
    assert CountDigits(",") == [] by {
      assert Remove(",", ',') == [] + Remove([], ',');
    }
    assert !NumericCountAt(d, 0);
    assert !CountAt(d, 1) && !CountAt(d, 2);
  }

  /** Without an opening parenthesis there is no count. */
  lemma {:induction false} FirstNumericCountAbsent(s: string, i: nat)
    requires forall k :: i <= k < |s| ==> s[k] != '('
    ensures FirstNumericCount(s, i) == None
    decreases |s| - i
  {
    if i < |s| {
      FirstNumericCountAbsent(s, i + 1);
    }
  }

  // ---------------------------------------------------------------- the spider

  /** What the selectors extract from one product card (the HTML itself is not modelled):
      the first title and link found, the price, the rating's class attribute, the
      review-count text and the image source. */
  datatype Card = Card(
    title: Option<string>,
    url: Option<string>,
    price: Option<real>,
    ratingClass: Option<string>,
    reviewText: Option<string>,
    imgUrl: Option<string>)

  /** The request metadata the spider reads back: category and page number, each possibly absent. */
  datatype Meta = Meta(category: Option<string>, pageNum: Option<int>)

  /** A response as `parse` sees it: URL, status, the request's meta, the product cards
      the first matching selector found, and the first next-page link found. */
  datatype Response = Response(url: string, status: int, meta: Meta, cards: seq<Card>, nextLink: Option<string>)

  /** A request the spider yields: target URL and meta. */
  datatype Request = Request(url: string, category: string, pageNum: int)

  /** `category_map.get(url, 'unknown')`. */
  function CategoryFor(categoryMap: seq<(string, string)>, url: string): string
  {
    GetOr(categoryMap, url, "unknown")
  }

  /** `response.meta.get('category') or category_map.get(url, 'unknown')`. */
  function ResponseCategory(categoryMap: seq<(string, string)>, response: Response): string
  {
    if Truthy(response.meta.category) then response.meta.category.value
    else CategoryFor(categoryMap, response.url)
  }

  /** `response.meta.get('page_num', 1)`. */
  function PageNum(response: Response): int
  {
    if response.meta.pageNum.None? then 1 else response.meta.pageNum.value
  }

  /** A card becomes a record only with both a title and a URL. */
  predicate Keep(card: Card)
  {
    Truthy(card.title) && Truthy(card.url)
  }

  /** The record appended for a kept card: stripped title, the page's category, no source. */
  function CardProduct(card: Card, category: string): Product
    requires card.title.Some?
  {
    var rating := ParseRating(card.ratingClass);
    Product(Some(Strip(card.title.value)), card.price,
            if rating.None? then None else Some(rating.value as real),
            ParseReviewCount(card.reviewText), card.url, card.imgUrl, Some(category), None)
  }

  /** The records of a page's cards, in card order. */
  function KeptCards(cards: seq<Card>, category: string): seq<Product>
  {
    if cards == [] then []
    else
      var last := cards[|cards| - 1];
      KeptCards(cards[..|cards| - 1], category) + (if Keep(last) then [CardProduct(last, category)] else [])
  }

  /** Every record comes from a kept card and carries the page's category. */
  lemma {:induction false} KeptCardsSound(cards: seq<Card>, category: string)
    ensures |KeptCards(cards, category)| <= |cards|
    ensures forall p :: p in KeptCards(cards, category) ==>
              exists k :: 0 <= k < |cards| && Keep(cards[k]) && p == CardProduct(cards[k], category)
  {
    if cards != [] {
      var n := |cards| - 1;
      KeptCardsSound(cards[..n], category);
      forall p | p in KeptCards(cards, category)
        ensures exists k :: 0 <= k < |cards| && Keep(cards[k]) && p == CardProduct(cards[k], category)
      {
        if p in KeptCards(cards[..n], category) {
          var k :| 0 <= k < n && Keep(cards[..n][k]) && p == CardProduct(cards[..n][k], category);
          assert cards[k] == cards[..n][k];
        }
      }
    }
  }

  /** The record of a kept card names the page's category, keeps the card's URL and
      has no source yet. */
  lemma CardProductFields(card: Card, category: string)
    requires Keep(card)
    ensures CardProduct(card, category).category == Some(category)
    ensures CardProduct(card, category).url == card.url && Truthy(CardProduct(card, category).url)
    ensures CardProduct(card, category).source.None?
    ensures CardProduct(card, category).title == Some(Strip(card.title.value))
  {
  }

  /** Every kept card gives a record. */
  lemma {:induction false} KeptCardsComplete(cards: seq<Card>, category: string, k: nat)
    requires k < |cards| && Keep(cards[k])
    ensures CardProduct(cards[k], category) in KeptCards(cards, category)
  {
    var n := |cards| - 1;
    if k < n {
      assert cards[..n][k] == cards[k];
      KeptCardsComplete(cards[..n], category, k);
    }
  }

  /** A page yields records exactly when one of its cards is kept. */
  lemma KeptCardsNonEmpty(cards: seq<Card>, category: string)
    ensures KeptCards(cards, category) != [] <==> exists k :: 0 <= k < |cards| && Keep(cards[k])
  {
    if KeptCards(cards, category) != [] {
      KeptCardsSound(cards, category);
      assert KeptCards(cards, category)[0] in KeptCards(cards, category);
    }
    if k :| 0 <= k < |cards| && Keep(cards[k]) {
      KeptCardsComplete(cards, category, k);
    }
  }

  /** The records `parse` appends for a response. */
  function ParsedProducts(categoryMap: seq<(string, string)>, response: Response): seq<Product>
  {
    if response.status != 200 || response.cards == [] then []
    else KeptCards(response.cards, ResponseCategory(categoryMap, response))
  }

  /** The follow-up request `parse` yields for a response, if any. */
  function NextRequest(categoryMap: seq<(string, string)>, maxPages: int, response: Response): Option<Request>
  {
    if response.status != 200 || response.cards == [] then None
    else
      var found := |KeptCards(response.cards, ResponseCategory(categoryMap, response))|;
      if PageNum(response) < maxPages && found > 0 && Truthy(response.nextLink) then
        Some(Request(response.nextLink.value, ResponseCategory(categoryMap, response), PageNum(response) + 1))
      else None
  }

  /** A non-200 response adds nothing and asks for nothing. */
  lemma NonOkResponse(categoryMap: seq<(string, string)>, maxPages: int, response: Response)
    requires response.status != 200
    ensures ParsedProducts(categoryMap, response) == []
    ensures NextRequest(categoryMap, maxPages, response) == None
  {
  }

  /** A next page is requested exactly when the response is a 200, the page number is
      below the limit, some card was kept and a next link exists; it carries the same
      category and the following page number, which stays within the limit. */
  lemma NextRequestRule(categoryMap: seq<(string, string)>, maxPages: int, response: Response)
    ensures NextRequest(categoryMap, maxPages, response).Some? <==>
              response.status == 200 && PageNum(response) < maxPages && Truthy(response.nextLink) &&
              exists k :: 0 <= k < |response.cards| && Keep(response.cards[k])
    ensures NextRequest(categoryMap, maxPages, response).Some? ==>
              var next := NextRequest(categoryMap, maxPages, response).value;
              next.category == ResponseCategory(categoryMap, response) &&
              next.pageNum == PageNum(response) + 1 && next.pageNum <= maxPages
  {
    KeptCardsNonEmpty(response.cards, ResponseCategory(categoryMap, response));
  }

  // ---------------------------------------------------------------- the spider with the helper as written

  /** How many cards `parse` gets through before the first card whose review-count text
      makes the helper as written raise; all of them when none does. The count is read
      for every card, kept or not. */
  function CardsBeforeRaise(cards: seq<Card>): (n: nat)
    ensures n <= |cards|
    ensures forall k :: 0 <= k < n ==> ParseReviewCountAsWritten(cards[k].reviewText).Ok?
    ensures n < |cards| ==> ParseReviewCountAsWritten(cards[n].reviewText).Err?
  {
    if cards == [] then 0
    else if ParseReviewCountAsWritten(cards[0].reviewText).Err? then 0
    else 1 + CardsBeforeRaise(cards[1..])
  }

  /** The records `parse` as written appends: those of the kept cards before the first
      raising card, whose exception then ends the callback. */
  function ParsedProductsAsWritten(categoryMap: seq<(string, string)>, response: Response): seq<Product>
  {
    if response.status != 200 || response.cards == [] then []
    else KeptCards(response.cards[..CardsBeforeRaise(response.cards)], ResponseCategory(categoryMap, response))
  }

  /** How `parse` as written ends: the `ValueError` of the first raising card, or else the
      follow-up request, if any. */
  function ParseEndAsWritten(categoryMap: seq<(string, string)>, maxPages: int, response: Response): Outcome<Option<Request>>
  {
    if response.status != 200 || response.cards == [] then Ok(None)
    else if CardsBeforeRaise(response.cards) < |response.cards| then
      Err(ValueError("invalid literal for int() with base 10: ''"))
    else Ok(NextRequest(categoryMap, maxPages, response))
  }

  /** The records of the first `n` cards begin the records of all of them. */
  lemma {:induction false} KeptCardsPrefix(cards: seq<Card>, category: string, n: nat)
    requires n <= |cards|
    ensures KeptCards(cards[..n], category) <= KeptCards(cards, category)
  {
    if n < |cards| {
      var m := |cards| - 1;
      assert cards[..m][..n] == cards[..n];
      KeptCardsPrefix(cards[..m], category, n);
    } else {
      assert cards[..n] == cards;
    }
  }

  /** The spider as written appends a prefix of what the corrected one appends; it fails
      exactly when a 200 page with cards has a card whose count text raises, and then it
      yields no follow-up request. Without such a card both agree. */
  lemma ParseAsWrittenAgrees(categoryMap: seq<(string, string)>, maxPages: int, response: Response)
    ensures ParsedProductsAsWritten(categoryMap, response) <= ParsedProducts(categoryMap, response)
    ensures ParseEndAsWritten(categoryMap, maxPages, response).Err? <==>
              response.status == 200 &&
              exists k :: 0 <= k < |response.cards| && ParseReviewCountAsWritten(response.cards[k].reviewText).Err?
    ensures ParseEndAsWritten(categoryMap, maxPages, response).Ok? ==>
              ParsedProductsAsWritten(categoryMap, response) == ParsedProducts(categoryMap, response) &&
              ParseEndAsWritten(categoryMap, maxPages, response).value == NextRequest(categoryMap, maxPages, response)
  {
    var cards := response.cards;
    if response.status == 200 && cards != [] {
      var n := CardsBeforeRaise(cards);
      KeptCardsPrefix(cards, ResponseCategory(categoryMap, response), n);
      if n == |cards| {
        assert cards[..n] == cards;
      }
    }
  }

  /** A first card reading `(,)` costs the page both of its records and its next page. */
  lemma CommasCardDropsPage()
    ensures var response := Response("https://www.newegg.com/p/pl?N=1", 200, Meta(Some("gpu"), Some(1)),
                                     [Card(Some("A"), Some("/a"), None, None, Some("(,)"), None),
                                      Card(Some("B"), Some("/b"), None, None, Some("(5)"), None)],
                                     Some("/p/pl?N=1&page=2"));
            ParsedProductsAsWritten([], response) == [] && ParseEndAsWritten([], 5, response).Err? &&
            |ParsedProducts([], response)| == 2 && NextRequest([], 5, response).Some?
  {
    var a := Card(Some("A"), Some("/a"), None, None, Some("(,)"), None);
    var b := Card(Some("B"), Some("/b"), None, None, Some("(5)"), None);
    ReviewCountCommasOnly();
    assert CardsBeforeRaise([a, b]) == 0;
    assert [a, b][..0] == [];
    assert [a, b][..1] == [a];
    assert Keep(a) && Keep(b);
  }

  class NeweggSpider {
    const startUrls: seq<string>
    const maxPages: int
    const categoryMap: seq<(string, string)>
    var results: seq<Product>
    var requestCount: nat

    /** `NeweggSpider(start_urls, config, results, max_pages, categories)`; a missing or
        empty category map is `{}`. */
    constructor (startUrls: seq<string>, results: seq<Product>, maxPages: int,
                 categories: Option<seq<(string, string)>>)
      ensures this.startUrls == startUrls && this.results == results && this.maxPages == maxPages
      ensures categoryMap == (if categories.None? then [] else categories.value)
      ensures requestCount == 0
    {
      this.startUrls := startUrls;
      this.results := results;
      this.maxPages := maxPages;
      categoryMap := if categories.None? then [] else categories.value;
      requestCount := 0;
    }

    /** `start_requests()`: one first-page request per start URL, in order. */
    method StartRequests() returns (reqs: seq<Request>)
      ensures |reqs| == |startUrls|
      ensures forall i :: 0 <= i < |startUrls| ==>
                reqs[i] == Request(startUrls[i], CategoryFor(categoryMap, startUrls[i]), 1)
    {
      reqs := [];
      for i := 0 to |startUrls|
        invariant |reqs| == i
        invariant forall m :: 0 <= m < i ==> reqs[m] == Request(startUrls[m], CategoryFor(categoryMap, startUrls[m]), 1)
      {
        reqs := reqs + [Request(startUrls[i], CategoryFor(categoryMap, startUrls[i]), 1)];
      }
    }

    /** `parse(response)`: count the response, append the page's records, and yield the
        next-page request when there is one. */
    method Parse(response: Response) returns (next: Option<Request>)
      modifies this
      ensures requestCount == old(requestCount) + 1
      ensures results == old(results) + ParsedProducts(categoryMap, response)
      ensures next == NextRequest(categoryMap, maxPages, response)
    {
      requestCount := requestCount + 1;
      if response.status != 200 {
        return None;
      }
      var category := ResponseCategory(categoryMap, response);
      var pageNum := PageNum(response);
      var cards := response.cards;
      if cards == [] {
        return None;
      }
      var found := 0;
      ghost var before := results;
      for i := 0 to |cards|
        invariant requestCount == old(requestCount) + 1
        invariant results == before + KeptCards(cards[..i], category)
        invariant found == |KeptCards(cards[..i], category)|
      {
        assert cards[..i + 1][..i] == cards[..i];
        var card := cards[i];
        if Truthy(card.title) && Truthy(card.url) {
          results := results + [CardProduct(card, category)];
          found := found + 1;
        }
      }
      assert cards[..|cards|] == cards;
      if pageNum < maxPages && found > 0 && Truthy(response.nextLink) {
        next := Some(Request(response.nextLink.value, category, pageNum + 1));
      } else {
        next := None;
      }
    }

    /** The card loop of `parse` with the helper as written: append the records of the
        kept cards up to the first card whose review-count text raises, and report
        whether one did and how many records were appended. */
    method AppendCardsAsWritten(cards: seq<Card>, category: string) returns (found: nat, raised: bool)
      modifies this
      ensures results == old(results) + KeptCards(cards[..CardsBeforeRaise(cards)], category)
      ensures found == |KeptCards(cards[..CardsBeforeRaise(cards)], category)|
      ensures raised <==> CardsBeforeRaise(cards) < |cards|
      ensures requestCount == old(requestCount)
    {
      found := 0;
      for i := 0 to |cards|
        invariant i <= CardsBeforeRaise(cards)
        invariant results == old(results) + KeptCards(cards[..i], category)
        invariant found == |KeptCards(cards[..i], category)|
        invariant requestCount == old(requestCount)
      {
        assert cards[..i + 1][..i] == cards[..i];
        var card := cards[i];
        var count := ParseReviewCountAsWritten(card.reviewText);
        if count.Err? {
          return found, true;
        }
        if Truthy(card.title) && Truthy(card.url) {
          results := results + [CardProduct(card, category)];
          found := found + 1;
        }
      }
      assert cards[..|cards|] == cards;
      raised := false;
    }

    /** `parse(response)` with the helper as written: as `Parse`, except that the first
        card whose review-count text raises ends the callback with that exception, after
        the records of the cards before it were appended and before any follow-up request. */
    method ParseAsWritten(response: Response) returns (r: Outcome<Option<Request>>)
      modifies this
      ensures requestCount == old(requestCount) + 1
      ensures results == old(results) + ParsedProductsAsWritten(categoryMap, response)
      ensures r == ParseEndAsWritten(categoryMap, maxPages, response)
    {
      requestCount := requestCount + 1;
      if response.status != 200 {
        return Ok(None);
      }
      var category := ResponseCategory(categoryMap, response);
      var pageNum := PageNum(response);
      var cards := response.cards;
      if cards == [] {
        return Ok(None);
      }
      var found, raised := AppendCardsAsWritten(cards, category);
      if raised {
        return Err(ValueError("invalid literal for int() with base 10: ''"));
      }
      assert cards[..CardsBeforeRaise(cards)] == cards;
      if pageNum < maxPages && found > 0 && Truthy(response.nextLink) {
        r := Ok(Some(Request(response.nextLink.value, category, pageNum + 1)));
      } else {
        r := Ok(None);
      }
    }
  }

  // ---------------------------------------------------------------- the registered scraper

  /** `{base_url + v: k for k, v in categories.items()}`: a later category with the same
      URL overwrites the earlier one's name. */
  function UrlToCategory(categories: seq<(string, string)>, baseUrl: string): seq<(string, string)>
  {
    if categories == [] then []
    else
      var n := |categories| - 1;
      Assign(UrlToCategory(categories[..n], baseUrl), baseUrl + categories[n].1, categories[n].0)
  }

  /** The map's keys are distinct and are exactly the start URLs. */
  lemma {:induction false} UrlToCategoryKeys(categories: seq<(string, string)>, baseUrl: string)
    ensures DistinctKeys(UrlToCategory(categories, baseUrl))
    ensures forall u :: u in Keys(UrlToCategory(categories, baseUrl)) <==> u in CategoryUrls(categories, baseUrl)
  {
    if categories != [] {
      var n := |categories| - 1;
      var m := UrlToCategory(categories[..n], baseUrl);
      var u := baseUrl + categories[n].1;
      UrlToCategoryKeys(categories[..n], baseUrl);
      AssignKeys(m, u, categories[n].0);
      AssignDistinct(m, u, categories[n].0);
      assert CategoryUrls(categories, baseUrl) == CategoryUrls(categories[..n], baseUrl) + [u];
    }
  }

  /** A start URL maps to the last category whose URL it is. */
  lemma {:induction false} UrlToCategoryLookup(categories: seq<(string, string)>, baseUrl: string, i: nat)
    requires i < |categories|
    requires forall j :: i < j < |categories| ==> categories[j].1 != categories[i].1
    ensures Lookup(UrlToCategory(categories, baseUrl), baseUrl + categories[i].1) == Some(categories[i].0)
  {
    var n := |categories| - 1;
    var m := UrlToCategory(categories[..n], baseUrl);
    AssignLookup(m, baseUrl + categories[n].1, categories[n].0, baseUrl + categories[i].1);
    if i < n {
      assert baseUrl + categories[n].1 != baseUrl + categories[i].1 by {
        assert (baseUrl + categories[n].1)[|baseUrl|..] == categories[n].1;
        assert (baseUrl + categories[i].1)[|baseUrl|..] == categories[i].1;
      }
      assert forall j :: i < j < n ==> categories[..n][j] == categories[j];
      UrlToCategoryLookup(categories[..n], baseUrl, i);
    }
  }

  /** With distinct category paths every start request carries its own category. */
  lemma StartRequestCategories(categories: seq<(string, string)>, baseUrl: string, i: nat)
    requires i < |categories|
    requires forall j, k :: 0 <= j < k < |categories| ==> categories[j].1 != categories[k].1
    ensures CategoryFor(UrlToCategory(categories, baseUrl), CategoryUrls(categories, baseUrl)[i]) == categories[i].0
  {
    UrlToCategoryLookup(categories, baseUrl, i);
  }

  /** `config.get("max_pages", 5)`. */
  function CrawlMaxPages(config: Config): int
  {
    if config.maxPages.None? then 5 else config.maxPages.value
  }

  /** All records of a sequence of delivered responses, in delivery order. */
  function CrawlProducts(categoryMap: seq<(string, string)>, responses: seq<Response>): seq<Product>
  {
    if responses == [] then []
    else
      var n := |responses| - 1;
      CrawlProducts(categoryMap, responses[..n]) + ParsedProducts(categoryMap, responses[n])
  }

  /** `NeweggScrapyScraper.scrape(urls)` when the crawler delivers `responses` to the
      spider: `KeyError` for a missing `base_url` (only read when there are categories),
      otherwise the records the spider appended. */
  function ScrapeResult(config: Config, responses: seq<Response>): Outcome<seq<Product>>
  {
    var categories := if config.categories.None? then [] else config.categories.value;
    if categories != [] && config.baseUrl.None? then Err(KeyError("base_url"))
    else
      var baseUrl := if config.baseUrl.None? then "" else config.baseUrl.value;
      Ok(CrawlProducts(UrlToCategory(categories, baseUrl), responses))
  }

  /** The crawl's records are the delivered responses' records, each tagged with a
      category its response resolved to, and non-200 responses add none. */
  lemma {:induction false} CrawlProductsFacts(categoryMap: seq<(string, string)>, responses: seq<Response>)
    ensures forall p :: p in CrawlProducts(categoryMap, responses) ==>
              exists k :: 0 <= k < |responses| && responses[k].status == 200 &&
                          p.category == Some(ResponseCategory(categoryMap, responses[k]))
  {
    if responses != [] {
      var n := |responses| - 1;
      CrawlProductsFacts(categoryMap, responses[..n]);
      KeptCardsSound(responses[n].cards, ResponseCategory(categoryMap, responses[n]));
      forall p | p in CrawlProducts(categoryMap, responses)
        ensures exists k :: 0 <= k < |responses| && responses[k].status == 200 &&
                            p.category == Some(ResponseCategory(categoryMap, responses[k]))
      {
        if p in CrawlProducts(categoryMap, responses[..n]) {
          var k :| 0 <= k < n && responses[..n][k].status == 200 &&
                   p.category == Some(ResponseCategory(categoryMap, responses[..n][k]));
          assert responses[k] == responses[..n][k];
        }
      }
    }
  }

  /** The crawl's records with the helper as written: Scrapy logs a callback's exception
      and goes on with the next response, so a page that raised keeps what it appended. */
  function CrawlProductsAsWritten(categoryMap: seq<(string, string)>, responses: seq<Response>): seq<Product>
  {
    if responses == [] then []
    else
      var n := |responses| - 1;
      CrawlProductsAsWritten(categoryMap, responses[..n]) + ParsedProductsAsWritten(categoryMap, responses[n])
  }

  /** `NeweggScrapyScraper.scrape(urls)` with the helper as written. */
  function ScrapeResultAsWritten(config: Config, responses: seq<Response>): Outcome<seq<Product>>
  {
    var categories := if config.categories.None? then [] else config.categories.value;
    if categories != [] && config.baseUrl.None? then Err(KeyError("base_url"))
    else
      var baseUrl := if config.baseUrl.None? then "" else config.baseUrl.value;
      Ok(CrawlProductsAsWritten(UrlToCategory(categories, baseUrl), responses))
  }

  /** As written the crawl never has more records than the corrected one, and it has the
      same records when no delivered card's count text raises. */
  lemma {:induction false} CrawlAsWrittenAgrees(categoryMap: seq<(string, string)>, responses: seq<Response>)
    ensures |CrawlProductsAsWritten(categoryMap, responses)| <= |CrawlProducts(categoryMap, responses)|
    ensures (forall k, j :: 0 <= k < |responses| && 0 <= j < |responses[k].cards| ==>
               ParseReviewCountAsWritten(responses[k].cards[j].reviewText).Ok?) ==>
            CrawlProductsAsWritten(categoryMap, responses) == CrawlProducts(categoryMap, responses)
  {
    if responses != [] {
      var n := |responses| - 1;
      CrawlAsWrittenAgrees(categoryMap, responses[..n]);
      ParseAsWrittenAgrees(categoryMap, 0, responses[n]);
      if forall k, j :: 0 <= k < |responses| && 0 <= j < |responses[k].cards| ==>
           ParseReviewCountAsWritten(responses[k].cards[j].reviewText).Ok? {
        assert forall k :: 0 <= k < n ==> responses[..n][k] == responses[k];
        assert !ParseEndAsWritten(categoryMap, 0, responses[n]).Err?;
      }
    }
  }

  /** The scrape as written fails exactly when the corrected one does, and otherwise
      returns no more records than it. */
  lemma ScrapeAsWrittenAgrees(config: Config, responses: seq<Response>)
    ensures ScrapeResultAsWritten(config, responses).Err? <==> ScrapeResult(config, responses).Err?
    ensures ScrapeResultAsWritten(config, responses).Ok? ==>
              |ScrapeResultAsWritten(config, responses).value| <= |ScrapeResult(config, responses).value|
  {
    var categories := if config.categories.None? then [] else config.categories.value;
    var baseUrl := if config.baseUrl.None? then "" else config.baseUrl.value;
    CrawlAsWrittenAgrees(UrlToCategory(categories, baseUrl), responses);
  }

  class NeweggScraper {
    const config: Config
    /** The spider of the last crawl. */
    var spider: NeweggSpider?

    constructor (config: Config)
      ensures this.config == config && spider == null
    {
      this.config := config;
      spider := null;
    }

    /** `scrape(urls)`: the argument is ignored; the start URLs and the URL-to-category map
        are rebuilt from `base_url` and the category paths, and the records the spider
        appended while the crawler delivered `responses` are returned. */
    method Scrape(urls: Target, responses: seq<Response>) returns (r: Outcome<seq<Product>>)
      modifies this
      ensures r == ScrapeResult(config, responses)
      ensures r.Ok? ==> spider != null && fresh(spider) &&
                        spider.startUrls == CategoryUrls(if config.categories.None? then [] else config.categories.value,
                                                         if config.baseUrl.None? then "" else config.baseUrl.value) &&
                        spider.maxPages == CrawlMaxPages(config) && spider.requestCount == |responses|
    {
      var categories := if config.categories.None? then [] else config.categories.value;
      if categories != [] && config.baseUrl.None? {
        return Err(KeyError("base_url"));
      }
      var baseUrl := if config.baseUrl.None? then "" else config.baseUrl.value;
      var urlToCategory := UrlToCategory(categories, baseUrl);
      var startUrls := CategoryUrls(categories, baseUrl);
      var s := new NeweggSpider(startUrls, [], CrawlMaxPages(config), Some(urlToCategory));
      for k := 0 to |responses|
        invariant s.results == CrawlProducts(urlToCategory, responses[..k])
        invariant s.requestCount == k
        invariant s.startUrls == startUrls && s.maxPages == CrawlMaxPages(config) && s.categoryMap == urlToCategory
      {
        assert responses[..k + 1][..k] == responses[..k];
        var next := s.Parse(responses[k]);
      }
      assert responses[..|responses|] == responses;
      spider := s;
      r := Ok(s.results);
    }

    /** `scrape(urls)` with the helper as written: a page whose callback raised keeps the
        records appended before the exception, and the crawl goes on with the next response. */
    method ScrapeAsWritten(urls: Target, responses: seq<Response>) returns (r: Outcome<seq<Product>>)
      modifies this
      ensures r == ScrapeResultAsWritten(config, responses)
      ensures r.Ok? ==> spider != null && fresh(spider) && spider.requestCount == |responses|
    {
      var categories := if config.categories.None? then [] else config.categories.value;
      if categories != [] && config.baseUrl.None? {
        return Err(KeyError("base_url"));
      }
      var baseUrl := if config.baseUrl.None? then "" else config.baseUrl.value;
      var urlToCategory := UrlToCategory(categories, baseUrl);
      var s := new NeweggSpider(CategoryUrls(categories, baseUrl), [], CrawlMaxPages(config), Some(urlToCategory));
      for k := 0 to |responses|
        invariant s.results == CrawlProductsAsWritten(urlToCategory, responses[..k])
        invariant s.requestCount == k && s.categoryMap == urlToCategory
      {
        assert responses[..k + 1][..k] == responses[..k];
        var end := s.ParseAsWritten(responses[k]);
      }
      assert responses[..|responses|] == responses;
      spider := s;
      r := Ok(s.results);
    }

    /** `fetch(urls)` delegates to `scrape`. */
    method Fetch(urls: Target, responses: seq<Response>) returns (r: Outcome<seq<Product>>)
      modifies this
      ensures r == ScrapeResult(config, responses)
    {
      r := Scrape(urls, responses);
    }
  }
}
