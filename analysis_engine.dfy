/** `AnalysisEngine`: copies the frame, adds the engineered price columns in place,
    then stores the statistics and the trends computed on the engineered frame, and
    answers the report and comparison queries from them. */
module Analysis {
  import opened Common
  import opened Frames
  import opened Reductions
  import Statistics
  import Trends
  import Comparative

  /** How one engineered column is computed from a row's price. */
  datatype Rule =
    | Above(level: Option<real>)                     // `price > level`; false for a missing price or level
    | Constant(fixed: string)                        // one label assigned to every row
    | Binned(edges: seq<real>, labels: seq<string>)  // `pd.cut` of the price into labelled bins
    | Band                                           // the `price_flag` bands
    | Outside(fences: Option<(real, real)>)          // below the lower or above the upper fence

  /** The `price_flag` band: below 50 is very low, above 5000 very high, anything else
      (a missing price included, as it compares false both times) normal. */
  function BandOf(x: Option<real>): (b: string)
    ensures b == "very_low" <==> x.Some? && x.value < 50.0
    ensures b == "very_high" <==> x.Some? && x.value > 5000.0
    ensures b == "normal" <==> x.None? || 50.0 <= x.value <= 5000.0
  {
    if x.Some? && x.value < 50.0 then "very_low"
    else if x.Some? && x.value > 5000.0 then "very_high"
    else "normal"
  }

  /** The bin of `x` among the edges: the first `j >= 1` with `x <= edges[j]` gives
      bin `j - 1`, the first bin also holding its lower edge; outside the edges there
      is no bin. */
  function BinOf(edges: seq<real>, x: real): Option<nat>
  {
    if |edges| < 2 || x < edges[0] then None else FirstBin(edges, x, 1)
  }

  function FirstBin(edges: seq<real>, x: real, j: nat): Option<nat>
    requires 1 <= j <= |edges|
    decreases |edges| - j
  {
    if j == |edges| then None
    else if x <= edges[j] then Some(j - 1)
    else FirstBin(edges, x, j + 1)
  }

  /** The cell a rule gives a row with this price. */
  function RuleCell(rule: Rule, price: Cell): Cell
  {
    var x := NumberOf(price);
    match rule
    case Above(level) => Flag(x.Some? && level.Some? && x.value > level.value)
    case Constant(fixed) => Text(fixed)
    case Binned(edges, labels) =>
      if x.None? then Null
      else
        var b := BinOf(edges, x.value);
        if b.Some? && b.value < |labels| then Text(labels[b.value]) else Null
    case Band => Text(BandOf(x))
    case Outside(fences) => Flag(x.Some? && fences.Some? && (x.value < fences.value.0 || x.value > fences.value.1))
  }

  /** `df[name] = …`: every row gets the rule's cell; a new column goes last, an
      existing one keeps its place. */
  function AddColumn(f: Frame, name: string, rule: Rule): (g: Frame)
    ensures |g.rows| == |f.rows|
  {
    Frame(if name in f.columns then f.columns else f.columns + [name],
          seq(|f.rows|, i requires 0 <= i < |f.rows| => f.rows[i][name := RuleCell(rule, Get(f.rows[i], "price"))]))
  }

  /** The columns added in order, each one in turn. */
  function AddAll(f: Frame, cols: seq<(string, Rule)>): (g: Frame)
    ensures |g.rows| == |f.rows|
  {
    if cols == [] then f
    else
      var last := cols[|cols| - 1];
      AddColumn(AddAll(f, cols[..|cols| - 1]), last.0, last.1)
  }

  /** The percent levels of the price quantiles and the columns named after them
      (`price_q_{int(q * 100)}`). */
  type Percent = p: nat | p <= 100

  const Levels: seq<(Percent, string)> :=
    [(5, "price_q_5"), (25, "price_q_25"), (50, "price_q_50"), (75, "price_q_75"), (95, "price_q_95")]

  const GroupLabels: seq<string> := ["Low", "Mid-Low", "Mid-High", "High"]

  /** No price is a string (the numeric median would raise otherwise). */
  predicate Numeric(prices: seq<Cell>)
  {
    forall i :: 0 <= i < |prices| ==> !prices[i].Text?
  }

  /** The columns computed before the bins: `expensive` and the five quantile flags. */
  function Thresholds(prices: seq<Cell>): (t: seq<(string, Rule)>)
    ensures |t| == |Levels| + 1 && t[0] == ("expensive", Above(ColumnMedian(prices)))
    ensures forall k :: 0 <= k < |Levels| ==> t[k + 1] == (Levels[k].1, Above(ColumnQuantile(prices, Levels[k].0, 100)))
  {
    [("expensive", Above(ColumnMedian(prices)))] +
    seq(|Levels|, k requires 0 <= k < |Levels| => (Levels[k].1, Above(ColumnQuantile(prices, Levels[k].0, 100))))
  }

  /** `min(4, len(price.unique()))`: a missing price counts as one more value. */
  function BinCount(prices: seq<Cell>): nat
  {
    var u := |set c | c in prices|;
    if u < 4 then u else 4
  }

  /** `qcut(price, q=n)`'s edges: the quantiles at `0, 1/n, …, 1`. */
  function Edges(xs: seq<real>, n: nat): (e: seq<real>)
    requires xs != [] && 0 < n
    ensures |e| == n + 1
  {
    seq(n + 1, k requires 0 <= k <= n => QuantileOf(xs, k, n))
  }

  /** The `price_group` rule: one label when there is at most one distinct price, the
      quartile bins otherwise; `ValueError` when the bin edges repeat. */
  function GroupRule(prices: seq<Cell>): Outcome<Rule>
  {
    var n := BinCount(prices);
    if n <= 1 then Ok(Constant("Low"))
    else
      var xs := Numbers(prices);
      if xs == [] || !Distinct(Edges(xs, n)) then Err(ValueError("Bin edges must be unique"))
      else Ok(Binned(Edges(xs, n), GroupLabels[..n]))
  }

  /** The outlier fences `q1 - 1.5 * iqr` and `q3 + 1.5 * iqr`, missing when the column
      holds no number. */
  function Fences(prices: seq<Cell>): Option<(real, real)>
  {
    var q1 := ColumnQuantile(prices, 1, 4);
    var q3 := ColumnQuantile(prices, 3, 4);
    if q1.Some? && q3.Some? then
      var iqr := q3.value - q1.value;
      Some((q1.value - 1.5 * iqr, q3.value + 1.5 * iqr))
    else None
  }

  /** The columns added after the bins. */
  function Closing(prices: seq<Cell>): seq<(string, Rule)>
  {
    [("price_flag", Band), ("outlier", Outside(Fences(prices)))]
  }

  /** Every engineered column in the order it is added, given the `price_group` rule. */
  function Engineering(prices: seq<Cell>, group: Rule): seq<(string, Rule)>
  {
    Thresholds(prices) + [("price_group", group)] + Closing(prices)
  }

  /** `feature_engineering()` on a frame: nothing for an empty frame; `KeyError` without
      a price column and `TypeError` for a string price, both before any change;
      otherwise every engineered column, or the `ValueError` of the bins. */
  function Engineered(f: Frame): (r: Outcome<Frame>)
    ensures r.Ok? ==> |r.value.rows| == |f.rows|
  {
    if f.rows == [] || f.columns == [] then Ok(f)
    else if "price" !in f.columns then Err(KeyError("price"))
    else
      var prices := ColumnCells(f.rows, "price");
      if !Numeric(prices) then Err(TypeError("price"))
      else
        var g := GroupRule(prices);
        if g.Err? then Err(g.error)
        else Ok(AddAll(f, Engineering(prices, g.value)))
  }

  /** The frame `feature_engineering()` leaves behind when it raises: the bins fail after
      the threshold columns are in place; the other errors come before any change. */
  function Raised(f: Frame): Frame
  {
    if f.rows == [] || f.columns == [] || "price" !in f.columns then f
    else
      var prices := ColumnCells(f.rows, "price");
      if !Numeric(prices) then f else AddAll(f, Thresholds(prices))
  }

  /** Adding one more column after a list of them. */
  lemma ThresholdsStep(prices: seq<Cell>, k: nat)
    requires k < |Levels|
    ensures Thresholds(prices)[..k + 2] ==
              Thresholds(prices)[..k + 1] + [(Levels[k].1, Above(ColumnQuantile(prices, Levels[k].0, 100)))]
  {
    var t := Thresholds(prices);
    assert t[..k + 2] == t[..k + 1] + [t[k + 1]];
  }

  lemma AddAllSnoc(f: Frame, cols: seq<(string, Rule)>, c: (string, Rule))
    ensures AddAll(f, cols + [c]) == AddColumn(AddAll(f, cols), c.0, c.1)
  {
    assert (cols + [c])[..|cols|] == cols;
  }

  /** The last three columns complete the engineered frame. */
  lemma FinalSteps(f: Frame, t: seq<(string, Rule)>, group: Rule, fences: Option<(real, real)>)
    ensures AddAll(f, t + [("price_group", group)] + [("price_flag", Band), ("outlier", Outside(fences))]) ==
              AddColumn(AddColumn(AddColumn(AddAll(f, t), "price_group", group),
                                  "price_flag", Band), "outlier", Outside(fences))
  {
    var g, b, o := ("price_group", group), ("price_flag", Band), ("outlier", Outside(fences));
    assert t + [g] + [b, o] == t + [g] + [b] + [o];
    AddAllSnoc(f, t + [g] + [b], o);
    AddAllSnoc(f, t + [g], b);
    AddAllSnoc(f, t, g);
  }

  /** The values `overall_report()` gathers. */
  datatype Section =
    | SummarySection(summary: map<string, map<Stat, Option<real>>>)
    | CountSection(counts: map<string, nat>)
    | GroupedSection(grouped: map<string, map<(Stat, Cell), Option<real>>>)
    | TrendSection(trends: map<string, Frame>)

  const DefaultFeatures: seq<string> := ["price", "rating", "review_count"]
  const DefaultMinSources: int := 2

  /** The error the grouped statistics raise on a frame, if any: by source first, then
      by category, each only when some numeric field is present. */
  function StatsError(g: Frame): Option<Error>
  {
    var numeric := Statistics.AnyNumeric(g.columns);
    if numeric && "source" !in g.columns then Some(KeyError("source"))
    else if numeric && "category" !in g.columns then Some(KeyError("category"))
    else None
  }

  /** The error `AnalysisEngine(df)` raises, if any: feature engineering first, then the
      grouped statistics. */
  function InitError(df: Frame): Option<Error>
  {
    var e := Engineered(df);
    if e.Err? then Some(e.error) else StatsError(e.value)
  }

  class AnalysisEngine {
    var df: Frame
    var summary: map<string, map<Stat, Option<real>>>
    var bySource: map<string, map<(Stat, Cell), Option<real>>>
    var byCategory: map<string, map<(Stat, Cell), Option<real>>>
    var nulls: map<string, nat>
    var uniques: map<string, nat>
    var priceTrend: Frame
    var reviewTrend: Frame

    /** The engine before any analysis: its own copy of the frame. */
    constructor Copy(df: Frame)
      ensures this.df == df
      ensures summary == map[] && bySource == map[] && byCategory == map[]
      ensures nulls == map[] && uniques == map[]
      ensures priceTrend == EmptyFrame() && reviewTrend == EmptyFrame()
    {
      this.df := df;
      summary, bySource, byCategory := map[], map[], map[];
      nulls, uniques := map[], map[];
      priceTrend, reviewTrend := EmptyFrame(), EmptyFrame();
    }

    /** `feature_engineering()`: adds the engineered columns to `df` in place, or
        returns the exception it raises, leaving `df` as it stood at that point. */
    method FeatureEngineering() returns (err: Option<Error>)
      modifies this`df
      ensures Engineered(old(df)).Ok? ==> err.None? && df == Engineered(old(df)).value
      ensures Engineered(old(df)).Err? ==> err == Some(Engineered(old(df)).error) && df == Raised(old(df))
    {
      if df.rows == [] || df.columns == [] {
        return None;
      }
      if "price" !in df.columns {
        return Some(KeyError("price"));
      }
      var prices := ColumnCells(df.rows, "price");
      if !Numeric(prices) {
        return Some(TypeError("price"));
      }
      ghost var start := df;
      AddThresholds(prices);
      var group := GroupRule(prices);
      if group.Err? {
        return Some(group.error);
      }
      df := AddColumn(df, "price_group", group.value);
      df := AddColumn(df, "price_flag", Band);
      df := AddColumn(df, "outlier", Outside(Fences(prices)));
      FinalSteps(start, Thresholds(prices), group.value, Fences(prices));
      assert Engineering(prices, group.value) ==
               Thresholds(prices) + [("price_group", group.value)] + [("price_flag", Band), ("outlier", Outside(Fences(prices)))];
      return None;
    }

    /** The `expensive` column, then one quantile flag per level, each quantile taken
        once before the loop. */
    method AddThresholds(prices: seq<Cell>)
      modifies this`df
      ensures df == AddAll(old(df), Thresholds(prices))
    {
      ghost var start := df;
      ghost var t := Thresholds(prices);
      var median := ColumnMedian(prices);
      df := AddColumn(df, "expensive", Above(median));
      assert t[..1] == [] + [t[0]];
      AddAllSnoc(start, [], t[0]);
      var quantiles := seq(|Levels|, k requires 0 <= k < |Levels| => ColumnQuantile(prices, Levels[k].0, 100));
      for k := 0 to |Levels|
        invariant df == AddAll(start, t[..k + 1])
      {
        ThresholdsStep(prices, k);
        AddAllSnoc(start, t[..k + 1], (Levels[k].1, Above(quantiles[k])));
        df := AddColumn(df, Levels[k].1, Above(quantiles[k]));
      }
      assert t[..|Levels| + 1] == t;
    }

    /** `summary()`, `by_source()` and `by_category()` of `df`. */
    ghost predicate StatsStored(std: seq<real> -> Option<real>)
      reads this`df, this`summary, this`bySource, this`byCategory
    {
      && summary == Statistics.SummaryOf(df, std)
      && Ok(bySource) == Statistics.GroupStatsOf(df, "source", std)
      && Ok(byCategory) == Statistics.GroupStatsOf(df, "category", std)
    }

    /** `null_summary()` and `unique_counts()` of `df`. */
    ghost predicate CountsStored()
      reads this`df, this`nulls, this`uniques
    {
      nulls == Statistics.NullsOf(df) && uniques == Statistics.UniquesOf(df)
    }

    /** The two trends of `df`. */
    ghost predicate TrendsStored()
      reads this`df, this`priceTrend, this`reviewTrend
    {
      priceTrend == Trends.Trend(df, "price") && reviewTrend == Trends.Trend(df, "review_count")
    }

    /** `summary()`, `by_source()` and `by_category()` of `df`, stored once all three
        are computed; the grouped statistics may raise, by source first. */
    method StoreStats(std: seq<real> -> Option<real>) returns (err: Option<Error>)
      modifies this`summary, this`bySource, this`byCategory
      ensures err == StatsError(df)
      ensures err.None? ==> StatsStored(std)
    {
      var stats := new Statistics.StatisticsEngine(df);
      var s := stats.Summary(std);
      var src := stats.GroupStats("source", std);
      if src.Err? {
        return Some(src.error);
      }
      var cat := stats.GroupStats("category", std);
      if cat.Err? {
        return Some(cat.error);
      }
      summary, bySource, byCategory := s, src.value, cat.value;
      return None;
    }

    /** The statistics, then the counts and the two trends of `df`. */
    method Analyse(std: seq<real> -> Option<real>) returns (err: Option<Error>)
      modifies this`summary, this`bySource, this`byCategory, this`nulls, this`uniques, this`priceTrend, this`reviewTrend
      ensures err == StatsError(df)
      ensures err.None? ==> StatsStored(std) && CountsStored() && TrendsStored()
    {
      err := StoreStats(std);
      if err.Some? {
        return;
      }
      var stats := new Statistics.StatisticsEngine(df);
      var trends := new Trends.TrendAnalyzer(df);
      nulls, uniques := stats.NullSummary(), stats.UniqueCounts();
      priceTrend, reviewTrend := trends.PriceTrend(), trends.ReviewTrend();
    }

    /** `AnalysisEngine(df)`: feature engineering on a copy, then the statistics and the
        trends of the engineered frame. */
    static method Create(df: Frame, std: seq<real> -> Option<real>) returns (r: Outcome<AnalysisEngine>)
      ensures r.Err? <==> InitError(df).Some?
      ensures r.Err? ==> r.error == InitError(df).value
      ensures r.Ok? ==> fresh(r.value) && Engineered(df).Ok? && r.value.df == Engineered(df).value
      ensures r.Ok? ==> r.value.StatsStored(std) && r.value.CountsStored() && r.value.TrendsStored()
    {
      var e := new AnalysisEngine.Copy(df);
      var err := e.FeatureEngineering();
      if err.Some? {
        return Err(err.value);
      }
      err := e.Analyse(std);
      if err.Some? {
        return Err(err.value);
      }
      return Ok(e);
    }

    /** `trend_analysis()`. */
    function TrendAnalysis(): (m: map<string, Frame>)
      reads this
      ensures m.Keys == {"price_trend", "review_trend"}
      ensures m["price_trend"] == priceTrend && m["review_trend"] == reviewTrend
    {
      map["price_trend" := priceTrend, "review_trend" := reviewTrend]
    }

    /** `overall_report()`: the stored results under their six keys. */
    function OverallReport(): (m: map<string, Section>)
      reads this
      ensures m.Keys == {"summary", "nulls", "uniques", "by_source", "by_category", "trends"}
      ensures m["trends"] == TrendSection(TrendAnalysis()) && m["trends"].trends.Keys == {"price_trend", "review_trend"}
    {
      map["summary" := SummarySection(summary), "nulls" := CountSection(nulls), "uniques" := CountSection(uniques),
          "by_source" := GroupedSection(bySource), "by_category" := GroupedSection(byCategory),
          "trends" := TrendSection(TrendAnalysis())]
    }

    /** `comparative_analysis(features, min_sources)` on the engineered frame: it raises
        exactly when source, category, a feature or title is missing, and keeps only
        mutual categories. */
    function ComparativeAnalysis(features: seq<string>, minSources: int): (r: Outcome<Frame>)
      reads this
      ensures r.Err? <==> "source" !in df.columns || "category" !in df.columns ||
                          exists c :: c in features + ["title"] && c !in df.columns
      ensures r.Ok? ==> forall row :: row in r.value.rows ==>
                          |Comparative.SourcesOf(df.rows, Get(row, "category"))| >= minSources
    {
      Comparative.ComparisonFails(df, features, minSources);
      var r := Comparative.Comparison(df, features, minSources);
      if r.Ok? then Comparative.ComparisonOnlyMutual(df, features, minSources); r else r
    }
  }

  /** The rule the last column of a given name was added with. */
  function LastRule(cols: seq<(string, Rule)>, c: string): Option<Rule>
  {
    if cols == [] then None
    else if cols[|cols| - 1].0 == c then Some(cols[|cols| - 1].1)
    else LastRule(cols[..|cols| - 1], c)
  }

  /** After adding columns, a row keeps its cells but for the added columns, each of
      which holds its last rule's cell for the row's price; the frame keeps its
      columns in place and gains the added ones. */
  lemma {:induction false} AddAllCells(f: Frame, cols: seq<(string, Rule)>)
    requires forall k :: 0 <= k < |cols| ==> cols[k].0 != "price"
    ensures |AddAll(f, cols).rows| == |f.rows|
    ensures forall i, c :: 0 <= i < |f.rows| ==>
              Get(AddAll(f, cols).rows[i], c) ==
                if LastRule(cols, c).Some? then RuleCell(LastRule(cols, c).value, Get(f.rows[i], "price"))
                else Get(f.rows[i], c)
    ensures |f.columns| <= |AddAll(f, cols).columns| && AddAll(f, cols).columns[..|f.columns|] == f.columns
    ensures forall c :: c in AddAll(f, cols).columns <==> c in f.columns || LastRule(cols, c).Some?
  {
    if cols != [] {
      var pre := cols[..|cols| - 1];
      var last := cols[|cols| - 1];
      AddAllCells(f, pre);
      assert LastRule(pre, "price").None? by { LastRuleNames(pre, "price"); }
      forall c
        ensures LastRule(cols, c) == if c == last.0 then Some(last.1) else LastRule(pre, c)
      {
      }
    }
  }

  /** A name that no added column has has no last rule. */
  lemma {:induction false} LastRuleNames(cols: seq<(string, Rule)>, c: string)
    requires forall k :: 0 <= k < |cols| ==> cols[k].0 != c
    ensures LastRule(cols, c).None?
  {
    if cols != [] {
      LastRuleNames(cols[..|cols| - 1], c);
    }
  }

  /** With distinct names, the last rule of a column's name is its own rule. */
  lemma {:induction false} LastRuleOf(cols: seq<(string, Rule)>, k: int)
    requires 0 <= k < |cols|
    requires forall i, j :: 0 <= i < j < |cols| ==> cols[i].0 != cols[j].0
    ensures LastRule(cols, cols[k].0) == Some(cols[k].1)
  {
    if k < |cols| - 1 {
      LastRuleOf(cols[..|cols| - 1], k);
    }
  }

  /** The names of the engineered columns, in the order they are added. */
  const EngineeredNames: seq<string> :=
    ["expensive", "price_q_5", "price_q_25", "price_q_50", "price_q_75", "price_q_95",
     "price_group", "price_flag", "outlier"]

  lemma EngineeringNames(prices: seq<Cell>, group: Rule)
    ensures |Engineering(prices, group)| == |EngineeredNames|
    ensures forall k :: 0 <= k < |EngineeredNames| ==> Engineering(prices, group)[k].0 == EngineeredNames[k]
  {
    var e, t, c := Engineering(prices, group), Thresholds(prices), Closing(prices);
    assert e == t + [("price_group", group)] + c;
    forall k | 0 <= k < |EngineeredNames| ensures e[k].0 == EngineeredNames[k] {
      if k < 6 {
        assert e[k] == t[k];
        if k > 0 {
          assert t[k].0 == Levels[k - 1].1;
        }
      } else if k > 6 {
        assert e[k] == c[k - 7];
      }
    }
  }

  /** Adding columns with distinct names other than `price`: the same rows, the
      original columns in place and the added ones, each added column holding its rule's
      cell for the row's price, and every other cell unchanged. */
  lemma AddAllNamed(f: Frame, cols: seq<(string, Rule)>, names: seq<string>)
    requires |cols| == |names| && Distinct(names) && "price" !in names
    requires forall k :: 0 <= k < |cols| ==> cols[k].0 == names[k]
    ensures var out := AddAll(f, cols);
            && |out.rows| == |f.rows|
            && |f.columns| <= |out.columns| && out.columns[..|f.columns|] == f.columns
            && (forall c :: c in out.columns <==> c in f.columns || c in names)
            && (forall i, k :: 0 <= i < |f.rows| && 0 <= k < |cols| ==>
                  Get(out.rows[i], names[k]) == RuleCell(cols[k].1, Get(f.rows[i], "price")))
            && (forall i, c :: 0 <= i < |f.rows| && c !in names ==> Get(out.rows[i], c) == Get(f.rows[i], c))
  {
    AddAllCells(f, cols);
    forall k | 0 <= k < |cols|
      ensures LastRule(cols, names[k]) == Some(cols[k].1)
    {
      LastRuleOf(cols, k);
    }
    forall c
      ensures LastRule(cols, c).Some? <==> c in names
    {
      if c !in names {
        LastRuleNames(cols, c);
      }
    }
  }

  /** The engineered frame of a non-empty frame: the same rows, the original columns in
      place followed by the new ones, each engineered column holding its rule's cell
      for the row's price, and every other cell unchanged. */
  lemma EngineeredFrame(f: Frame)
    requires f.rows != [] && f.columns != [] && Engineered(f).Ok?
    ensures "price" in f.columns && Numeric(ColumnCells(f.rows, "price")) && GroupRule(ColumnCells(f.rows, "price")).Ok?
    ensures var out := Engineered(f).value;
            var prices := ColumnCells(f.rows, "price");
            var cols := Engineering(prices, GroupRule(prices).value);
            && |out.rows| == |f.rows| && |cols| == |EngineeredNames|
            && |f.columns| <= |out.columns| && out.columns[..|f.columns|] == f.columns
            && (forall c :: c in out.columns <==> c in f.columns || c in EngineeredNames)
            && (forall k :: 0 <= k < |cols| ==> cols[k].0 == EngineeredNames[k])
            && (forall i, k :: 0 <= i < |f.rows| && 0 <= k < |cols| ==>
                  Get(out.rows[i], EngineeredNames[k]) == RuleCell(cols[k].1, Get(f.rows[i], "price")))
            && (forall i, c :: 0 <= i < |f.rows| && c !in EngineeredNames ==> Get(out.rows[i], c) == Get(f.rows[i], c))
  {
    var prices := ColumnCells(f.rows, "price");
    var cols := Engineering(prices, GroupRule(prices).value);
    EngineeringNames(prices, GroupRule(prices).value);
    assert Engineered(f).value == AddAll(f, cols);
    NamesDistinct();
    AddAllNamed(f, cols, EngineeredNames);
  }

  lemma NamesDistinct()
    ensures Distinct(EngineeredNames) && "price" !in EngineeredNames
  {
  }

  /** A price between the outer edges falls in a bin; its bin `b` is the interval from
      `edges[b]` (excluded but for the first bin) to `edges[b + 1]` (included). */
  lemma BinSpec(edges: seq<real>, x: real)
    ensures |edges| >= 2 && edges[0] <= x <= edges[|edges| - 1] ==> BinOf(edges, x).Some?
    ensures BinOf(edges, x).Some? ==>
              var b := BinOf(edges, x).value;
              && b + 1 < |edges| && x <= edges[b + 1]
              && (b == 0 ==> edges[0] <= x) && (b > 0 ==> edges[b] < x)
  {
    if |edges| >= 2 && edges[0] <= x {
      FirstBinSpec(edges, x, 1);
    }
  }

  lemma {:induction false} FirstBinSpec(edges: seq<real>, x: real, j: nat)
    requires 2 <= |edges| && 1 <= j <= |edges|
    requires j > 1 ==> edges[j - 1] < x
    ensures x <= edges[|edges| - 1] ==> FirstBin(edges, x, j).Some?
    ensures FirstBin(edges, x, j).Some? ==>
              var b := FirstBin(edges, x, j).value;
              && j - 1 <= b && b + 1 < |edges| && x <= edges[b + 1] && (b > 0 ==> edges[b] < x)
    decreases |edges| - j
  {
    if j < |edges| && !(x <= edges[j]) {
      FirstBinSpec(edges, x, j + 1);
    }
  }

  /** Feature engineering raises exactly when a non-empty frame has no price column, a
      string price, or price bins whose edges repeat, and names that cause; an empty
      frame is returned as it is. */
  lemma EngineeredFails(f: Frame)
    ensures f.rows == [] || f.columns == [] ==> Engineered(f) == Ok(f)
    ensures var prices := ColumnCells(f.rows, "price");
            Engineered(f).Err? <==>
              f.rows != [] && f.columns != [] &&
              ("price" !in f.columns || !Numeric(prices) || GroupRule(prices).Err?)
    ensures Engineered(f).Err? ==>
              if "price" !in f.columns then Engineered(f).error == KeyError("price")
              else if !Numeric(ColumnCells(f.rows, "price")) then Engineered(f).error == TypeError("price")
              else Engineered(f).error == ValueError("Bin edges must be unique")
  {
  }

  /** The bins fail exactly when there are at least two distinct prices but the
      quantile edges repeat. */
  lemma GroupRuleFails(prices: seq<Cell>)
    ensures GroupRule(prices).Err? <==>
              BinCount(prices) >= 2 && (Numbers(prices) == [] || !Distinct(Edges(Numbers(prices), BinCount(prices))))
    ensures BinCount(prices) <= 1 ==> GroupRule(prices) == Ok(Constant("Low"))
  {
  }

  /** One engineered cell: column `EngineeredNames[k]` of row `i` holds the cell of the
      `k`-th rule for the row's price. */
  lemma EngineeredCell(f: Frame, i: int, k: int)
    requires f.rows != [] && f.columns != [] && Engineered(f).Ok?
    requires 0 <= i < |f.rows| && 0 <= k < |EngineeredNames|
    ensures "price" in f.columns && GroupRule(ColumnCells(f.rows, "price")).Ok?
    ensures var prices := ColumnCells(f.rows, "price");
            var cols := Engineering(prices, GroupRule(prices).value);
            |cols| == |EngineeredNames| &&
            Get(Engineered(f).value.rows[i], EngineeredNames[k]) == RuleCell(cols[k].1, Get(f.rows[i], "price"))
  {
    EngineeredFrame(f);
  }

  /** `expensive` is the price above the median, a missing price or median never being
      above. */
  lemma ExpensiveColumn(f: Frame, i: int)
    requires f.rows != [] && f.columns != [] && Engineered(f).Ok? && 0 <= i < |f.rows|
    ensures var x := NumberOf(Get(f.rows[i], "price"));
            var m := ColumnMedian(ColumnCells(f.rows, "price"));
            Get(Engineered(f).value.rows[i], "expensive") == Flag(x.Some? && m.Some? && x.value > m.value)
  {
    EngineeredCell(f, i, 0);
  }

  /** Each `price_q_p` is the price above the `p`% quantile, a missing price or quantile
      never being above. */
  lemma QuantileColumn(f: Frame, i: int, k: int)
    requires f.rows != [] && f.columns != [] && Engineered(f).Ok? && 0 <= i < |f.rows| && 0 <= k < |Levels|
    ensures var x := NumberOf(Get(f.rows[i], "price"));
            var q := ColumnQuantile(ColumnCells(f.rows, "price"), Levels[k].0, 100);
            Get(Engineered(f).value.rows[i], Levels[k].1) == Flag(x.Some? && q.Some? && x.value > q.value)
  {
    var prices := ColumnCells(f.rows, "price");
    EngineeredCell(f, i, k + 1);
    var t := Thresholds(prices);
    assert Engineering(prices, GroupRule(prices).value)[k + 1] == t[k + 1];
    assert EngineeredNames[k + 1] == Levels[k].1;
  }

  /** `price_flag` is the band of the row's price. */
  lemma FlagColumn(f: Frame, i: int)
    requires f.rows != [] && f.columns != [] && Engineered(f).Ok? && 0 <= i < |f.rows|
    ensures Get(Engineered(f).value.rows[i], "price_flag") == Text(BandOf(NumberOf(Get(f.rows[i], "price"))))
  {
    EngineeredCell(f, i, 7);
  }

  /** `outlier` flags a price outside the fences; a price between the lower and the
      upper quartile is never an outlier. */
  lemma OutlierColumn(f: Frame, i: int)
    requires f.rows != [] && f.columns != [] && Engineered(f).Ok? && 0 <= i < |f.rows|
    ensures var prices := ColumnCells(f.rows, "price");
            var fences := Fences(prices);
            var x := NumberOf(Get(f.rows[i], "price"));
            && Get(Engineered(f).value.rows[i], "outlier") ==
                 Flag(x.Some? && fences.Some? && (x.value < fences.value.0 || x.value > fences.value.1))
            && (x.Some? && ColumnQuantile(prices, 1, 4).Some? && ColumnQuantile(prices, 3, 4).Some? &&
                ColumnQuantile(prices, 1, 4).value <= x.value <= ColumnQuantile(prices, 3, 4).value ==>
                  Get(Engineered(f).value.rows[i], "outlier") == Flag(false))
  {
    EngineeredCell(f, i, 8);
  }

  /** With at most one distinct price, any two rows have the same price cell. */
  lemma OneValue(prices: seq<Cell>, i: int, j: int)
    requires |set c | c in prices| <= 1 && 0 <= i < |prices| && 0 <= j < |prices|
    ensures prices[i] == prices[j]
  {
    var values := set c | c in prices;
    assert prices[i] in values && prices[j] in values;
    var rest := values - {prices[i]};
    assert values == rest + {prices[i]};
    assert |rest| == 0;
    assert prices[j] !in rest;
  }

  /** With a single distinct price (the fixture with one product, say), no row is
      expensive and every row is in the `Low` group. */
  lemma SinglePrice(f: Frame)
    requires f.rows != [] && f.columns != [] && "price" in f.columns
    requires Numeric(ColumnCells(f.rows, "price"))
    requires |set c | c in ColumnCells(f.rows, "price")| <= 1
    ensures Engineered(f).Ok?
    ensures forall i :: 0 <= i < |f.rows| ==>
              Get(Engineered(f).value.rows[i], "expensive") == Flag(false) &&
              Get(Engineered(f).value.rows[i], "price_group") == Text("Low")
  {
    GroupRuleFails(ColumnCells(f.rows, "price"));
    forall i | 0 <= i < |f.rows|
      ensures Get(Engineered(f).value.rows[i], "expensive") == Flag(false)
      ensures Get(Engineered(f).value.rows[i], "price_group") == Text("Low")
    {
      SinglePriceRow(f, i);
    }
  }

  lemma SinglePriceRow(f: Frame, i: nat)
    requires f.rows != [] && f.columns != [] && "price" in f.columns && i < |f.rows|
    requires Numeric(ColumnCells(f.rows, "price"))
    requires |set c | c in ColumnCells(f.rows, "price")| <= 1
    requires Engineered(f).Ok?
    ensures Get(Engineered(f).value.rows[i], "expensive") == Flag(false)
    ensures Get(Engineered(f).value.rows[i], "price_group") == Text("Low")
  {
    var prices := ColumnCells(f.rows, "price");
    GroupRuleFails(prices);
    EngineeredCell(f, i, 6);
    ExpensiveColumn(f, i);
    var x := NumberOf(prices[i]);
    if x.Some? {
      SameNumber(prices, i);
      QuantileConstant(Numbers(prices), 1, 2, x.value);
    }
  }

  /** With one distinct cell, every number is the number of any row. */
  lemma SameNumber(prices: seq<Cell>, i: nat)
    requires i < |prices| && NumberOf(prices[i]).Some?
    requires |set c | c in prices| <= 1
    ensures NumberOf(prices[i]).value in Numbers(prices)
    ensures forall y :: y in Numbers(prices) ==> y == NumberOf(prices[i]).value
  {
    var x := NumberOf(prices[i]);
    var xs := Numbers(prices);
    forall y | y in xs
      ensures y == x.value
    {
      var c :| c in prices && NumberOf(c) == Some(y);
      var j :| 0 <= j < |prices| && prices[j] == c;
      OneValue(prices, i, j);
    }
    assert prices[i] in prices;
  }

  /** `price_group`: `Low` for every row when there is at most one distinct price;
      otherwise a missing price has no group and every other price gets the label of
      the quantile bin it lies in, bins being numbered from `Low` up. */
  lemma GroupColumn(f: Frame, i: int)
    requires f.rows != [] && f.columns != [] && Engineered(f).Ok? && 0 <= i < |f.rows|
    ensures var prices := ColumnCells(f.rows, "price");
            var n := BinCount(prices);
            var x := NumberOf(Get(f.rows[i], "price"));
            var cell := Get(Engineered(f).value.rows[i], "price_group");
            && (n <= 1 ==> cell == Text("Low"))
            && (n > 1 ==>
                  && Numbers(prices) != [] && Distinct(Edges(Numbers(prices), n))
                  && (x.None? ==> cell == Null)
                  && (x.Some? ==> exists b :: 0 <= b < n && cell == Text(GroupLabels[b]) &&
                                    Edges(Numbers(prices), n)[b] <= x.value <= Edges(Numbers(prices), n)[b + 1]))
  {
    var prices := ColumnCells(f.rows, "price");
    var n := BinCount(prices);
    var x := NumberOf(Get(f.rows[i], "price"));
    EngineeredCell(f, i, 6);
    GroupRuleFails(prices);
    if n > 1 && x.Some? {
      assert prices[i] in prices;
      BinnedLabel(Numbers(prices), n, prices[i]);
    }
  }

  /** A number among the prices falls in one of the `n` quantile bins. */
  lemma BinnedLabel(xs: seq<real>, n: nat, c: Cell)
    requires xs != [] && 1 < n <= |GroupLabels| && NumberOf(c).Some? && NumberOf(c).value in xs
    ensures var edges := Edges(xs, n);
            var x := NumberOf(c).value;
            exists b :: 0 <= b < n && RuleCell(Binned(edges, GroupLabels[..n]), c) == Text(GroupLabels[b]) &&
                        edges[b] <= x <= edges[b + 1]
  {
    var x := NumberOf(c).value;
    var edges := Edges(xs, n);
    QuantileEnds(xs, n);
    assert edges[0] == MinOf(xs) && edges[n] == MaxOf(xs);
    BinSpec(edges, x);
    var b := BinOf(edges, x).value;
    assert b < n && GroupLabels[..n][b] == GroupLabels[b];
    if b > 0 {
      assert edges[b] <= x;
    }
  }
}
