/** `ProductDataProcessor`: the cleaning pass over a frame of scraped products, the
    data-quality report and the export. `toNumber` stands for the string case of
    `pd.to_numeric(errors='coerce')`: the number a text parses to, or `None`. */
module Processing {
  import opened Common
  import opened Frames

  /** The columns `dropna(subset=...)` looks at, in the order it reports them. */
  const Required: seq<string> := ["title", "price", "url"]

  /** The row has a title, a price and a URL. */
  predicate Complete(r: Row)
  {
    !Get(r, "title").Null? && !Get(r, "price").Null? && !Get(r, "url").Null?
  }

  /** `pd.to_numeric(errors='coerce')` on one cell: numbers stay, booleans count as 1
      and 0, texts are parsed, and what does not parse becomes null. */
  function Numeric(toNumber: string -> Option<real>, c: Cell): (d: Cell)
    ensures d.Null? || d.Num?
  {
    match c
    case Null => Null
    case Num(x) => Num(x)
    case Flag(b) => Num(if b then 1.0 else 0.0)
    case Text(t) => if toNumber(t).Some? then Num(toNumber(t).value) else Null
  }

  /** `astype(int)` on a real: the fraction is cut off towards zero. */
  function Truncate(x: real): (i: int)
    ensures 0.0 <= x ==> i as real <= x < i as real + 1.0
    ensures x < 0.0 ==> i as real - 1.0 < x <= i as real
  {
    if x >= 0.0 then x.Floor else -((-x).Floor)
  }

  /** The review count: coerced, nulls filled with 0, truncated to a whole number. */
  function ReviewCount(toNumber: string -> Option<real>, c: Cell): Cell
  {
    var d := Numeric(toNumber, c);
    if d.Num? then Num(Truncate(d.num) as real) else Num(0.0)
  }

  /** `.str.lower()` on one cell: texts are lower-cased, anything else becomes null. */
  function LowerCell(c: Cell): (d: Cell)
  {
    if c.Text? then Text(Lower(c.text)) else Null
  }

  function NumericOf(toNumber: string -> Option<real>): Cell -> Cell
  {
    c => Numeric(toNumber, c)
  }

  function CountOf(toNumber: string -> Option<real>): Cell -> Cell
  {
    c => ReviewCount(toNumber, c)
  }

  /** `df[c] = g(df[c])`. */
  function SetColumn(rows: seq<Row>, c: string, g: Cell -> Cell): (r: seq<Row>)
    ensures |r| == |rows|
    ensures forall i :: 0 <= i < |rows| ==> r[i] == rows[i][c := g(Get(rows[i], c))]
  {
    seq(|rows|, i requires 0 <= i < |rows| => rows[i][c := g(Get(rows[i], c))])
  }

  /** The conversions of the cleaning pass on one row; `columns` says which of the
      optional columns exist. */
  function Prepare(r: Row, columns: seq<string>, toNumber: string -> Option<real>): Row
  {
    var r1 := r["price" := Numeric(toNumber, Get(r, "price"))];
    var r2 := if "rating" in columns then r1["rating" := Numeric(toNumber, Get(r1, "rating"))] else r1;
    var r3 := if "review_count" in columns then r2["review_count" := ReviewCount(toNumber, Get(r2, "review_count"))] else r2;
    var r4 := if "source" in columns then r3["source" := LowerCell(Get(r3, "source"))] else r3;
    if "category" in columns then r4["category" := LowerCell(Get(r4, "category"))] else r4
  }

  /** The numeric conversions of the cleaning pass (price, then rating and review count
      when present), one column after the other. */
  function Numbered(rows: seq<Row>, columns: seq<string>, toNumber: string -> Option<real>): seq<Row>
  {
    var r1 := SetColumn(rows, "price", NumericOf(toNumber));
    var r2 := if "rating" in columns then SetColumn(r1, "rating", NumericOf(toNumber)) else r1;
    if "review_count" in columns then SetColumn(r2, "review_count", CountOf(toNumber)) else r2
  }

  /** `df[c] = df[c].str.lower()` when `c` is a column. */
  function Lowered(rows: seq<Row>, columns: seq<string>, c: string): seq<Row>
  {
    if c in columns then SetColumn(rows, c, LowerCell) else rows
  }

  /** The conversions of the cleaning pass, one column after the other, on the complete
      rows. */
  function Converted(rows: seq<Row>, columns: seq<string>, toNumber: string -> Option<real>): seq<Row>
  {
    Lowered(Lowered(Numbered(rows, columns, toNumber), columns, "source"), columns, "category")
  }

  /** Converting column by column is converting row by row. */
  lemma ConvertedRows(rows: seq<Row>, columns: seq<string>, toNumber: string -> Option<real>)
    ensures |Converted(rows, columns, toNumber)| == |rows|
    ensures forall i :: 0 <= i < |rows| ==> Converted(rows, columns, toNumber)[i] == Prepare(rows[i], columns, toNumber)
  {
  }

  /** The exception `Series.str` raises on a column pandas does not infer as text. */
  const StrAccessorError: Error := AttributeError("Can only use .str accessor with string values!")

  /** `Series.str` refuses the column: it has a non-null cell, and its non-null cells
      are all numbers or all booleans (pandas infers such a column as floating,
      integer or boolean, never as text or mixed). */
  predicate StrRefuses(cells: seq<Cell>)
  {
    && (exists i :: 0 <= i < |cells| && !cells[i].Null?)
    && ((forall i :: 0 <= i < |cells| ==> cells[i].Null? || cells[i].Num?) ||
        (forall i :: 0 <= i < |cells| ==> cells[i].Null? || cells[i].Flag?))
  }

  /** `c` is a column and `.str.lower()` on it raises. */
  predicate Refused(rows: seq<Row>, columns: seq<string>, c: string)
  {
    c in columns && StrRefuses(ColumnCells(rows, c))
  }

  /** `clean_and_validate()` on a frame: `KeyError` when a required column is missing;
      `AttributeError` when `.str` refuses its source or its category column; otherwise
      the complete rows, converted, with the first row of each URL. */
  function Cleaned(f: Frame, toNumber: string -> Option<real>): Outcome<Frame>
  {
    var missing := MissingColumn(f.columns, Required);
    if missing.Some? then Err(KeyError(missing.value))
    else
      var numbered := Numbered(Where(f.rows, Complete), f.columns, toNumber);
      if Refused(numbered, f.columns, "source") then Err(StrAccessorError)
      else
        var lowered := Lowered(numbered, f.columns, "source");
        if Refused(lowered, f.columns, "category") then Err(StrAccessorError)
        else Ok(Frame(f.columns, KeepFirst(Lowered(lowered, f.columns, "category"), "url")))
  }

  /** What `self.df` holds once `clean_and_validate()` has returned or raised: the frame
      it was given after the `KeyError` of `dropna`; after a refused `.str`, the
      complete rows with every conversion made before the refused column; otherwise the
      cleaned frame. */
  function AfterCleaning(f: Frame, toNumber: string -> Option<real>): Frame
  {
    var missing := MissingColumn(f.columns, Required);
    if missing.Some? then f
    else
      var numbered := Numbered(Where(f.rows, Complete), f.columns, toNumber);
      if Refused(numbered, f.columns, "source") then Frame(f.columns, numbered)
      else
        var lowered := Lowered(numbered, f.columns, "source");
        if Refused(lowered, f.columns, "category") then Frame(f.columns, lowered)
        else Frame(f.columns, KeepFirst(Lowered(lowered, f.columns, "category"), "url"))
  }

  /** Assigning one column leaves every other column's cells alone. */
  lemma SetColumnOther(rows: seq<Row>, c: string, g: Cell -> Cell, d: string)
    requires c != d
    ensures ColumnCells(SetColumn(rows, c, g), d) == ColumnCells(rows, d)
  {
    assert forall i :: 0 <= i < |rows| ==> Get(SetColumn(rows, c, g)[i], d) == Get(rows[i], d);
  }

  /** The conversions before a lowering leave the source and category columns alone, so
      `.str` sees the complete input rows' own cells. */
  lemma RefusedOnInput(rows: seq<Row>, columns: seq<string>, toNumber: string -> Option<real>)
    ensures ColumnCells(Numbered(rows, columns, toNumber), "source") == ColumnCells(rows, "source")
    ensures ColumnCells(Lowered(Numbered(rows, columns, toNumber), columns, "source"), "category") ==
            ColumnCells(rows, "category")
  {
    var r1 := SetColumn(rows, "price", NumericOf(toNumber));
    var r2 := if "rating" in columns then SetColumn(r1, "rating", NumericOf(toNumber)) else r1;
    var r3 := Numbered(rows, columns, toNumber);
    forall d | d == "source" || d == "category"
      ensures ColumnCells(r3, d) == ColumnCells(rows, d)
    {
      SetColumnOther(rows, "price", NumericOf(toNumber), d);
      if "rating" in columns { SetColumnOther(r1, "rating", NumericOf(toNumber), d); }
      if "review_count" in columns { SetColumnOther(r2, "review_count", CountOf(toNumber), d); }
    }
    if "source" in columns { SetColumnOther(r3, "source", LowerCell, "category"); }
  }

  /** Cleaning raises exactly when one of title, price and url is not a column, which is
      a `KeyError` naming it, or when the complete rows' source or category column has
      non-null cells and none of them is text, which is the `.str` accessor's
      `AttributeError`. A cleaned frame keeps the columns it was given. */
  lemma CleanedFails(f: Frame, toNumber: string -> Option<real>)
    ensures var present := "title" in f.columns && "price" in f.columns && "url" in f.columns;
            var kept := Where(f.rows, Complete);
            && (Cleaned(f, toNumber).Err? <==>
                  !present || Refused(kept, f.columns, "source") || Refused(kept, f.columns, "category"))
            && (!present ==> Cleaned(f, toNumber).Err? && Cleaned(f, toNumber).error.KeyError? &&
                             Cleaned(f, toNumber).error.key in Required &&
                             Cleaned(f, toNumber).error.key !in f.columns)
            && (present && Cleaned(f, toNumber).Err? ==> Cleaned(f, toNumber).error == StrAccessorError)
            && (Cleaned(f, toNumber).Ok? ==> Cleaned(f, toNumber).value.columns == f.columns)
  {
    RefusedOnInput(Where(f.rows, Complete), f.columns, toNumber);
  }

  /** A frame whose one complete row has a number as its source: cleaning raises. */
  lemma NumericSourceRefused(toNumber: string -> Option<real>)
    ensures var row := map["title" := Text("A"), "price" := Num(1.0), "url" := Text("u"), "source" := Num(1.0)];
            Cleaned(Frame(["title", "price", "url", "source"], [row]), toNumber) == Err(StrAccessorError)
  {
    var row := map["title" := Text("A"), "price" := Num(1.0), "url" := Text("u"), "source" := Num(1.0)];
    var f := Frame(["title", "price", "url", "source"], [row]);
    assert Complete(row);
    assert Where(f.rows, Complete) == [row];
    RefusedOnInput([row], f.columns, toNumber);
    assert ColumnCells([row], "source") == [Num(1.0)];
  }

  /** The numeric conversions keep every row's title and URL and leave its price a
      number or null. */
  lemma NumberedKeeps(rows: seq<Row>, columns: seq<string>, toNumber: string -> Option<real>)
    ensures |Numbered(rows, columns, toNumber)| == |rows|
    ensures forall i :: 0 <= i < |rows| ==>
              && Get(Numbered(rows, columns, toNumber)[i], "title") == Get(rows[i], "title")
              && Get(Numbered(rows, columns, toNumber)[i], "url") == Get(rows[i], "url")
              && (Get(Numbered(rows, columns, toNumber)[i], "price").Null? ||
                  Get(Numbered(rows, columns, toNumber)[i], "price").Num?)
  {
  }

  /** Lowering the source column keeps every row's title, URL and price. */
  lemma LoweredKeeps(rows: seq<Row>, columns: seq<string>)
    ensures |Lowered(rows, columns, "source")| == |rows|
    ensures forall i :: 0 <= i < |rows| ==>
              && Get(Lowered(rows, columns, "source")[i], "title") == Get(rows[i], "title")
              && Get(Lowered(rows, columns, "source")[i], "url") == Get(rows[i], "url")
              && Get(Lowered(rows, columns, "source")[i], "price") == Get(rows[i], "price")
  {
  }

  /** Where the frame is left: unchanged after the `KeyError`; the cleaned frame on
      success; after the `AttributeError`, one row per complete input row, in order,
      with its title and URL and a numeric or null price. */
  lemma AfterCleaningFacts(f: Frame, toNumber: string -> Option<real>)
    ensures Cleaned(f, toNumber).Err? && Cleaned(f, toNumber).error.KeyError? ==> AfterCleaning(f, toNumber) == f
    ensures Cleaned(f, toNumber).Ok? ==> AfterCleaning(f, toNumber) == Cleaned(f, toNumber).value
    ensures Cleaned(f, toNumber).Err? && !Cleaned(f, toNumber).error.KeyError? ==>
              var kept := Where(f.rows, Complete);
              var g := AfterCleaning(f, toNumber);
              && g.columns == f.columns
              && |g.rows| == |kept|
              && forall i :: 0 <= i < |kept| ==>
                   Get(g.rows[i], "title") == Get(kept[i], "title") &&
                   Get(g.rows[i], "url") == Get(kept[i], "url") &&
                   (Get(g.rows[i], "price").Null? || Get(g.rows[i], "price").Num?)
  {
    if MissingColumn(f.columns, Required).None? {
      var numbered := Numbered(Where(f.rows, Complete), f.columns, toNumber);
      NumberedKeeps(Where(f.rows, Complete), f.columns, toNumber);
      LoweredKeeps(numbered, f.columns);
    }
  }

  /** Conversion leaves the title and URL of a row alone. */
  lemma PrepareKeeps(r: Row, columns: seq<string>, toNumber: string -> Option<real>)
    ensures Get(Prepare(r, columns, toNumber), "title") == Get(r, "title")
    ensures Get(Prepare(r, columns, toNumber), "url") == Get(r, "url")
  {
  }

  /** Every cleaned row comes from a complete input row, whose title and URL it keeps,
      so no cleaned row lacks a title or a URL. */
  lemma {:induction false} CleanedFromComplete(f: Frame, toNumber: string -> Option<real>)
    requires Cleaned(f, toNumber).Ok?
    ensures forall r :: r in Cleaned(f, toNumber).value.rows ==>
              exists s :: s in f.rows && Complete(s) && r == Prepare(s, f.columns, toNumber)
    ensures forall r :: r in Cleaned(f, toNumber).value.rows ==> !Get(r, "title").Null? && !Get(r, "url").Null?
  {
    var kept := Where(f.rows, Complete);
    var p := Converted(kept, f.columns, toNumber);
    ConvertedRows(kept, f.columns, toNumber);
    KeepFirstRows(p, "url");
    WhereMembers(f.rows, Complete);
    forall r | r in Cleaned(f, toNumber).value.rows
      ensures exists s :: s in f.rows && Complete(s) && r == Prepare(s, f.columns, toNumber)
      ensures !Get(r, "title").Null? && !Get(r, "url").Null?
    {
      var i :| 0 <= i < |p| && p[i] == r;
      assert kept[i] in kept;
      PrepareKeeps(kept[i], f.columns, toNumber);
    }
  }

  /** After cleaning no two rows share a URL. */
  lemma CleanedUrlsUnique(f: Frame, toNumber: string -> Option<real>)
    requires Cleaned(f, toNumber).Ok?
    ensures Distinct(ColumnCells(Cleaned(f, toNumber).value.rows, "url"))
  {
    KeepFirstDistinct(Converted(Where(f.rows, Complete), f.columns, toNumber), "url");
  }

  /** No URL of a complete row is lost, and of the rows sharing a URL the first complete
      one is the row kept; the kept rows are in input order. */
  lemma CleanedKeepsFirst(f: Frame, toNumber: string -> Option<real>)
    requires Cleaned(f, toNumber).Ok?
    ensures var kept := Where(f.rows, Complete);
            var rows := Cleaned(f, toNumber).value.rows;
            && (forall s :: s in kept ==> Get(s, "url") in ColumnCells(rows, "url"))
            && (forall i :: 0 <= i < |kept| && FirstOfValue(kept, "url", i) ==> Prepare(kept[i], f.columns, toNumber) in rows)
            && Subsequence(rows, Converted(kept, f.columns, toNumber))
  {
    var kept := Where(f.rows, Complete);
    var p := Converted(kept, f.columns, toNumber);
    ConvertedRows(kept, f.columns, toNumber);
    KeepFirstValues(p, "url");
    KeepFirstKeepsFirst(p, "url");
    KeepFirstInOrder(p, "url");
    forall s | s in kept
      ensures Get(s, "url") in ColumnCells(KeepFirst(p, "url"), "url")
    {
      var i :| 0 <= i < |kept| && kept[i] == s;
      PrepareKeeps(s, f.columns, toNumber);
      assert ColumnCells(p, "url")[i] == Get(s, "url");
    }
    forall i | 0 <= i < |kept| && FirstOfValue(kept, "url", i)
      ensures FirstOfValue(p, "url", i)
    {
      forall j | 0 <= j < i
        ensures Get(p[j], "url") != Get(p[i], "url")
      {
        PrepareKeeps(kept[j], f.columns, toNumber);
        PrepareKeeps(kept[i], f.columns, toNumber);
      }
    }
  }

  /** Prices and ratings come out of conversion as numbers or nulls. */
  lemma PrepareNumbers(r: Row, columns: seq<string>, toNumber: string -> Option<real>)
    ensures Get(Prepare(r, columns, toNumber), "price").Null? || Get(Prepare(r, columns, toNumber), "price").Num?
    ensures "rating" in columns ==>
              Get(Prepare(r, columns, toNumber), "rating").Null? || Get(Prepare(r, columns, toNumber), "rating").Num?
  {
  }

  /** Review counts come out as whole numbers, nulls having become 0. */
  lemma PrepareCounts(r: Row, columns: seq<string>, toNumber: string -> Option<real>)
    requires "review_count" in columns
    ensures var c := Get(Prepare(r, columns, toNumber), "review_count");
            c.Num? && c.num == c.num.Floor as real
    ensures Get(r, "review_count").Null? ==> Get(Prepare(r, columns, toNumber), "review_count") == Num(0.0)
  {
  }

  /** A lower-cased cell is lower-case text or null. */
  lemma LowerCellLower(c: Cell)
    ensures LowerCell(c).Null? || (LowerCell(c).Text? && Lower(LowerCell(c).text) == LowerCell(c).text)
  {
    if c.Text? {
      LowerIdempotent(c.text);
    }
  }

  lemma PrepareSource(r: Row, columns: seq<string>, toNumber: string -> Option<real>)
    requires "source" in columns
    ensures Get(Prepare(r, columns, toNumber), "source") == LowerCell(Get(r, "source"))
  {
  }

  lemma PrepareCategory(r: Row, columns: seq<string>, toNumber: string -> Option<real>)
    requires "category" in columns
    ensures Get(Prepare(r, columns, toNumber), "category") == LowerCell(Get(r, "category"))
  {
  }

  /** Sources and categories come out as lower-case text or null. */
  lemma PrepareLabels(r: Row, columns: seq<string>, toNumber: string -> Option<real>)
    ensures var c := Get(Prepare(r, columns, toNumber), "source");
            "source" in columns ==> c.Null? || (c.Text? && Lower(c.text) == c.text)
    ensures var c := Get(Prepare(r, columns, toNumber), "category");
            "category" in columns ==> c.Null? || (c.Text? && Lower(c.text) == c.text)
  {
    if "source" in columns {
      PrepareSource(r, columns, toNumber);
      LowerCellLower(Get(r, "source"));
    }
    if "category" in columns {
      PrepareCategory(r, columns, toNumber);
      LowerCellLower(Get(r, "category"));
    }
  }

  /** The data-quality report, one field per key of the dict `get_data_quality_report`
      returns: `total_rows`, `missing_titles`, `missing_prices`, `missing_urls`,
      `missing_ratings`, `duplicate_urls`, `negative_prices` and `outlier_prices`. */
  datatype Report = Report(totalRows: int, missingTitles: int, missingPrices: int, missingUrls: int,
                           missingRatings: int, duplicateUrls: int, negativePrices: int, outlierPrices: int)

  /** How many cells are numbers below zero (null compares false). */
  function NegativeCount(cells: seq<Cell>): nat
  {
    if cells == [] then 0 else (if cells[0].Num? && cells[0].num < 0.0 then 1 else 0) + NegativeCount(cells[1..])
  }

  /** `get_data_quality_report()`; `outliers` stands for the count of prices above the
      0.99 quantile. It raises `KeyError` without a title, price or url column, and
      `TypeError` when a price is still text (`< 0` on a string). */
  function QualityReport(f: Frame, outliers: seq<Cell> -> nat): (r: Outcome<Report>)
  {
    var missing := MissingColumn(f.columns, Required);
    if missing.Some? then Err(KeyError(missing.value))
    else
      var prices := ColumnCells(f.rows, "price");
      var urls := ColumnCells(f.rows, "url");
      if exists i :: 0 <= i < |prices| && prices[i].Text? then
        Err(TypeError("'<' not supported between instances of 'str' and 'int'"))
      else
        Ok(Report(
          totalRows := |f.rows|,
          missingTitles := NullCount(ColumnCells(f.rows, "title")),
          missingPrices := NullCount(prices),
          missingUrls := NullCount(urls),
          missingRatings := if "rating" in f.columns then NullCount(ColumnCells(f.rows, "rating")) else 0,
          duplicateUrls := |f.rows| - NUnique(urls),
          negativePrices := NegativeCount(prices),
          outlierPrices := outliers(prices)))
  }

  /** The report is produced exactly when the three columns exist and no price is text;
      a frame without ratings reports none missing. */
  lemma QualityReportOk(f: Frame, outliers: seq<Cell> -> nat)
    ensures QualityReport(f, outliers).Ok? <==>
              "title" in f.columns && "price" in f.columns && "url" in f.columns &&
              forall i :: 0 <= i < |f.rows| ==> !Get(f.rows[i], "price").Text?
    ensures QualityReport(f, outliers).Ok? && "rating" !in f.columns ==> QualityReport(f, outliers).value.missingRatings == 0
    ensures QualityReport(f, outliers).Ok? ==> QualityReport(f, outliers).value.totalRows == |f.rows|
  {
    RequiredPresent(f.columns);
    if MissingColumn(f.columns, Required).None? {
      var prices := ColumnCells(f.rows, "price");
      assert forall i :: 0 <= i < |f.rows| ==> prices[i] == Get(f.rows[i], "price");
    }
  }

  lemma RequiredPresent(columns: seq<string>)
    ensures MissingColumn(columns, Required).None? <==> "title" in columns && "price" in columns && "url" in columns
  {
    assert forall n :: n in Required <==> n == "title" || n == "price" || n == "url";
  }

  /** No null cell means no null count. */
  lemma {:induction false} NullCountNone(cells: seq<Cell>)
    requires forall i :: 0 <= i < |cells| ==> !cells[i].Null?
    ensures NullCount(cells) == 0
  {
    if cells != [] {
      NullCountNone(cells[1..]);
    }
  }

  /** Distinct non-null values count once each. */
  lemma DistinctNUnique(cells: seq<Cell>)
    requires Distinct(cells) && forall i :: 0 <= i < |cells| ==> !cells[i].Null?
    ensures NUnique(cells) == |cells|
  {
    DistinctCard(cells);
    assert NonNullValues(cells) == set x | x in cells;
  }

  /** No cleaned price is text. */
  lemma CleanedPrices(f: Frame, toNumber: string -> Option<real>)
    requires Cleaned(f, toNumber).Ok?
    ensures forall i :: 0 <= i < |Cleaned(f, toNumber).value.rows| ==> !Get(Cleaned(f, toNumber).value.rows[i], "price").Text?
  {
    var g := Cleaned(f, toNumber).value;
    CleanedFromComplete(f, toNumber);
    forall i | 0 <= i < |g.rows|
      ensures !Get(g.rows[i], "price").Text?
    {
      assert g.rows[i] in g.rows;
      var s :| s in f.rows && Complete(s) && g.rows[i] == Prepare(s, f.columns, toNumber);
      PrepareNumbers(s, f.columns, toNumber);
    }
  }

  /** On a cleaned frame no title or URL is null. */
  lemma CleanedNoNulls(f: Frame, toNumber: string -> Option<real>)
    requires Cleaned(f, toNumber).Ok?
    ensures NullCount(ColumnCells(Cleaned(f, toNumber).value.rows, "title")) == 0
    ensures NullCount(ColumnCells(Cleaned(f, toNumber).value.rows, "url")) == 0
  {
    var g := Cleaned(f, toNumber).value;
    CleanedFromComplete(f, toNumber);
    var titles := ColumnCells(g.rows, "title");
    var urls := ColumnCells(g.rows, "url");
    assert forall i :: 0 <= i < |titles| ==> titles[i] == Get(g.rows[i], "title") && g.rows[i] in g.rows;
    NullCountNone(titles);
    NullCountNone(urls);
  }

  /** The report on a cleaned frame always comes out, and finds no missing title, no
      missing URL and no duplicate URL. */
  lemma QualityAfterCleaning(f: Frame, toNumber: string -> Option<real>, outliers: seq<Cell> -> nat)
    requires Cleaned(f, toNumber).Ok?
    ensures var report := QualityReport(Cleaned(f, toNumber).value, outliers);
            && report.Ok?
            && report.value.missingTitles == 0
            && report.value.missingUrls == 0
            && report.value.duplicateUrls == 0
  {
    var g := Cleaned(f, toNumber).value;
    CleanedPrices(f, toNumber);
    CleanedNoNulls(f, toNumber);
    CleanedUrlsUnique(f, toNumber);
    CleanedFromComplete(f, toNumber);
    QualityOfClean(g, outliers);
  }

  /** A frame with the three columns, no text price, no missing title or URL and no
      repeated URL reports exactly that. */
  lemma QualityOfClean(g: Frame, outliers: seq<Cell> -> nat)
    requires "title" in g.columns && "price" in g.columns && "url" in g.columns
    requires forall i :: 0 <= i < |g.rows| ==> !Get(g.rows[i], "price").Text?
    requires NullCount(ColumnCells(g.rows, "title")) == 0 && NullCount(ColumnCells(g.rows, "url")) == 0
    requires Distinct(ColumnCells(g.rows, "url"))
    requires forall r :: r in g.rows ==> !Get(r, "url").Null?
    ensures var report := QualityReport(g, outliers);
            && report.Ok?
            && report.value.missingTitles == 0
            && report.value.missingUrls == 0
            && report.value.duplicateUrls == 0
  {
    QualityReportOk(g, outliers);
    var urls := ColumnCells(g.rows, "url");
    assert forall i :: 0 <= i < |urls| ==> g.rows[i] in g.rows;
    DistinctNUnique(urls);
  }

  /** The processor: a private copy of the frame (a datatype value here, so it is a
      copy by construction), and the exports written so far as file name, format and
      the frame written. */
  class ProductDataProcessor {
    var df: Frame
    var exports: seq<(string, string, Frame)>
    const toNumber: string -> Option<real>

    constructor (df: Frame, toNumber: string -> Option<real>)
      ensures this.df == df && exports == [] && this.toNumber == toNumber
    {
      this.df := df;
      exports := [];
      this.toNumber := toNumber;
    }

    /** `clean_and_validate()`: `dropna` raises before the frame is touched; the other
        steps reassign the frame one column at a time, so a refused `.str` leaves the
        conversions made before it in place. It returns the processor itself. */
    method CleanAndValidate() returns (r: Outcome<ProductDataProcessor>)
      modifies this
      ensures Cleaned(old(df), toNumber).Err? ==> r == Err(Cleaned(old(df), toNumber).error)
      ensures Cleaned(old(df), toNumber).Ok? ==> r == Ok(this)
      ensures df == AfterCleaning(old(df), toNumber)
      ensures exports == old(exports)
    {
      var missing := MissingColumn(df.columns, Required);
      if missing.Some? {
        return Err(KeyError(missing.value));
      }
      df := Frame(df.columns, Where(df.rows, Complete));
      ConvertNumbers();
      var refused := LowerColumn("source");
      if refused {
        return Err(StrAccessorError);
      }
      refused := LowerColumn("category");
      if refused {
        return Err(StrAccessorError);
      }
      df := Frame(df.columns, KeepFirst(df.rows, "url"));
      r := Ok(this);
    }

    /** The `pd.to_numeric` steps of the cleaning pass: price, then rating and review
        count when they are columns. */
    method ConvertNumbers()
      modifies this
      ensures df == Frame(old(df).columns, Numbered(old(df).rows, old(df).columns, toNumber))
      ensures exports == old(exports)
    {
      var columns := df.columns;
      df := Frame(columns, SetColumn(df.rows, "price", NumericOf(toNumber)));
      if "rating" in columns {
        df := Frame(columns, SetColumn(df.rows, "rating", NumericOf(toNumber)));
      }
      if "review_count" in columns {
        df := Frame(columns, SetColumn(df.rows, "review_count", CountOf(toNumber)));
      }
    }

    /** `df[c] = df[c].str.lower()` when `c` is a column: when `.str` refuses the column
        the assignment never happens and the frame is unchanged. */
    method LowerColumn(c: string) returns (refused: bool)
      modifies this
      ensures refused == Refused(old(df).rows, old(df).columns, c)
      ensures df == if refused then old(df) else Frame(old(df).columns, Lowered(old(df).rows, old(df).columns, c))
      ensures exports == old(exports)
    {
      refused := c in df.columns && StrRefuses(ColumnCells(df.rows, c));
      if !refused && c in df.columns {
        df := Frame(df.columns, SetColumn(df.rows, c, LowerCell));
      }
    }

    /** `export(filename, filetype)`: csv, excel and json are written; any other format
        raises `ValueError`. */
    method Export(filename: string, filetype: string) returns (r: Outcome<ProductDataProcessor>)
      modifies this
      ensures filetype in ["csv", "excel", "json"] ==>
                r == Ok(this) && exports == old(exports) + [(filename, filetype, df)]
      ensures filetype !in ["csv", "excel", "json"] ==>
                r == Err(ValueError("Unsupported filetype: " + filetype)) && exports == old(exports)
      ensures df == old(df)
    {
      if filetype == "csv" || filetype == "excel" || filetype == "json" {
        exports := exports + [(filename, filetype, df)];
        r := Ok(this);
      } else {
        r := Err(ValueError("Unsupported filetype: " + filetype));
      }
    }
  }
}
