/** `StatisticsEngine`: the per-field `describe()` summary, the same statistics per
    source or per category, the null counts of the business fields and the distinct
    counts of the categorical fields. The engine keeps its own copy of the frame, so
    it is a constant field here. */
module Statistics {
  import opened Common
  import opened Frames
  import opened Reductions
  import Processing

  const NumericFields: seq<string> := ["price", "rating", "review_count"]
  const CategoricalFields: seq<string> := ["category", "source"]
  const BusinessFields: seq<string> := ["id", "source", "category", "title", "price",
                                        "rating", "review_count", "url", "img_url", "scraped_at"]

  /** Some numeric field is a column. */
  predicate AnyNumeric(columns: seq<string>)
  {
    "price" in columns || "rating" in columns || "review_count" in columns
  }

  /** The fields that are columns of the frame, in field order. */
  function Present(fields: seq<string>, columns: seq<string>): (r: seq<string>)
    ensures forall f :: f in r <==> f in fields && f in columns
  {
    if fields == [] then []
    else (if fields[0] in columns then [fields[0]] else []) + Present(fields[1..], columns)
  }

  /** One `describe()` entry of the summary, with `median` added. */
  function SummaryEntry(cells: seq<Cell>, std: seq<real> -> Option<real>): map<Stat, Option<real>>
  {
    Describe(cells, std)[Median := ColumnMedian(cells)]
  }

  /** The cells of `field` in the rows whose `grouping` cell is `g`. */
  function GroupCells(rows: seq<Row>, grouping: string, g: Cell, field: string): seq<Cell>
  {
    ColumnCells(Where(rows, Having(grouping, g)), field)
  }

  /** `groupby(grouping)[field].describe().unstack().to_dict()`: one entry per statistic and
      non-null `grouping` value, keyed by the pair. */
  function GroupDescribe(rows: seq<Row>, grouping: string, field: string, std: seq<real> -> Option<real>): map<(Stat, Cell), Option<real>>
  {
    map k | k in (set st, g | st in DescribeStats && g in NonNullValues(ColumnCells(rows, grouping)) :: (st, g))
      :: Describe(GroupCells(rows, grouping, k.1, field), std)[k.0]
  }

  /** The summary of a frame: each numeric field present, with its summary entry. */
  function SummaryOf(f: Frame, std: seq<real> -> Option<real>): map<string, map<Stat, Option<real>>>
  {
    map c | c in NumericFields && c in f.columns :: SummaryEntry(ColumnCells(f.rows, c), std)
  }

  /** The grouped statistics of a frame, or the `KeyError` of its grouping column. */
  function GroupStatsOf(f: Frame, grouping: string, std: seq<real> -> Option<real>)
    : Outcome<map<string, map<(Stat, Cell), Option<real>>>>
  {
    if grouping !in f.columns && AnyNumeric(f.columns) then Err(KeyError(grouping))
    else Ok(map c | c in NumericFields && c in f.columns :: GroupDescribe(f.rows, grouping, c, std))
  }

  /** The null count of each business field present. */
  function NullsOf(f: Frame): map<string, nat>
  {
    map c | c in BusinessFields && c in f.columns :: NullCount(ColumnCells(f.rows, c))
  }

  /** The distinct non-null count of each categorical field present. */
  function UniquesOf(f: Frame): map<string, nat>
  {
    map c | c in CategoricalFields && c in f.columns :: NUnique(ColumnCells(f.rows, c))
  }

  class StatisticsEngine {
    const df: Frame

    constructor (df: Frame)
      ensures this.df == df
    {
      this.df := df;
    }

    /** `summary()`: `describe()` of each numeric field present, each with its
        `median` added; `{}` when no numeric field is present. */
    method Summary(std: seq<real> -> Option<real>) returns (s: map<string, map<Stat, Option<real>>>)
      ensures s == SummaryOf(df, std)
    {
      var fields := Present(NumericFields, df.columns);
      s := map[];
      if fields == [] {
        SummaryIs(df, std, s);
        return;
      }
      for i := 0 to |fields|
        invariant s.Keys == set f | f in fields[..i]
        invariant forall f :: f in s ==> s[f] == SummaryEntry(ColumnCells(df.rows, f), std)
      {
        var col := fields[i];
        assert forall f :: f in fields[..i + 1] <==> f in fields[..i] || f == col;
        s := s[col := SummaryEntry(ColumnCells(df.rows, col), std)];
      }
      assert fields[..|fields|] == fields;
      SummaryIs(df, std, s);
    }

    /** `by_source()` and `by_category()`: the grouped `describe()` of each numeric
        field present, or the `KeyError` of a missing grouping column. */
    method GroupStats(grouping: string, std: seq<real> -> Option<real>)
      returns (r: Outcome<map<string, map<(Stat, Cell), Option<real>>>>)
      ensures r == GroupStatsOf(df, grouping, std)
    {
      var stats: map<string, map<(Stat, Cell), Option<real>>> := map[];
      for i := 0 to |NumericFields|
        invariant stats.Keys == set f | f in NumericFields[..i] && f in df.columns
        invariant forall f :: f in stats ==> stats[f] == GroupDescribe(df.rows, grouping, f, std)
        invariant (exists f :: f in NumericFields[..i] && f in df.columns) ==> grouping in df.columns
      {
        var field := NumericFields[i];
        assert forall f :: f in NumericFields[..i + 1] <==> f in NumericFields[..i] || f == field;
        if field in df.columns {
          if grouping !in df.columns {
            assert field in NumericFields && field in df.columns;
            return Err(KeyError(grouping));
          }
          stats := stats[field := GroupDescribe(df.rows, grouping, field, std)];
        }
      }
      assert NumericFields[..|NumericFields|] == NumericFields;
      GroupStatsIs(df, grouping, std, stats);
      return Ok(stats);
    }

    /** `null_summary()`: the null count of each business field present. */
    function NullSummary(): (m: map<string, nat>)
      ensures m.Keys == set c | c in BusinessFields && c in df.columns
      ensures forall c :: c in m ==> m[c] == NullCount(ColumnCells(df.rows, c))
    {
      NullsOf(df)
    }

    /** `unique_counts()`: the distinct non-null count of each categorical field present. */
    function UniqueCounts(): (m: map<string, nat>)
      ensures m.Keys == set c | c in CategoricalFields && c in df.columns
      ensures forall c :: c in m ==> m[c] == NUnique(ColumnCells(df.rows, c))
    {
      UniquesOf(df)
    }
  }

  lemma SummaryIs(f: Frame, std: seq<real> -> Option<real>, s: map<string, map<Stat, Option<real>>>)
    requires s.Keys == set c | c in NumericFields && c in f.columns
    requires forall c :: c in s ==> s[c] == SummaryEntry(ColumnCells(f.rows, c), std)
    ensures s == SummaryOf(f, std)
  {
  }

  lemma GroupStatsIs(f: Frame, grouping: string, std: seq<real> -> Option<real>,
                     stats: map<string, map<(Stat, Cell), Option<real>>>)
    requires !(grouping !in f.columns && AnyNumeric(f.columns))
    requires stats.Keys == set c | c in NumericFields && c in f.columns
    requires forall c :: c in stats ==> stats[c] == GroupDescribe(f.rows, grouping, c, std)
    ensures Ok(stats) == GroupStatsOf(f, grouping, std)
  {
    var m := map c | c in NumericFields && c in f.columns :: GroupDescribe(f.rows, grouping, c, std);
    assert stats.Keys == m.Keys;
    assert stats == m;
  }

  /** The summary is `{}` exactly when no numeric field is present, and otherwise holds
      one entry per numeric field present. */
  lemma SummaryKeys(f: Frame, std: seq<real> -> Option<real>)
    ensures (SummaryOf(f, std) == map[]) <==> forall c :: c in NumericFields ==> c !in f.columns
    ensures SummaryOf(f, std).Keys == set c | c in NumericFields && c in f.columns
  {
    if !forall c :: c in NumericFields ==> c !in f.columns {
      var c :| c in NumericFields && c in f.columns;
      assert c in SummaryOf(f, std);
    }
  }

  /** Each entry of the summary is the `describe()` of its column with the median
      added, and its median and its `50%` agree. */
  lemma SummaryEntries(f: Frame, std: seq<real> -> Option<real>)
    ensures forall c :: c in SummaryOf(f, std) ==>
              SummaryOf(f, std)[c] == SummaryEntry(ColumnCells(f.rows, c), std) &&
              SummaryOf(f, std)[c].Keys == DescribeStats + {Median} &&
              SummaryOf(f, std)[c][Median] == SummaryOf(f, std)[c][P50] == ColumnMedian(ColumnCells(f.rows, c))
  {
    forall c | c in SummaryOf(f, std)
      ensures SummaryOf(f, std)[c].Keys == DescribeStats + {Median}
      ensures SummaryOf(f, std)[c][Median] == SummaryOf(f, std)[c][P50] == ColumnMedian(ColumnCells(f.rows, c))
    {
      SummaryEntrySpec(ColumnCells(f.rows, c), std);
    }
  }

  /** The grouped statistics raise exactly when the grouping column is missing and a
      numeric field is present; otherwise they have one entry per numeric field
      present. */
  lemma GroupStatsSpec(f: Frame, grouping: string, std: seq<real> -> Option<real>)
    ensures GroupStatsOf(f, grouping, std).Err? <==>
              grouping !in f.columns && exists c :: c in NumericFields && c in f.columns
    ensures GroupStatsOf(f, grouping, std).Err? ==> GroupStatsOf(f, grouping, std).error == KeyError(grouping)
    ensures var r := GroupStatsOf(f, grouping, std);
            r.Ok? ==> r.value.Keys == (set c | c in NumericFields && c in f.columns) &&
                      forall c :: c in r.value ==> r.value[c] == GroupDescribe(f.rows, grouping, c, std)
  {
  }

  /** Each summary entry reports the eight `describe()` statistics and the median, and
      its median and its `50%` agree. */
  lemma SummaryEntrySpec(cells: seq<Cell>, std: seq<real> -> Option<real>)
    ensures SummaryEntry(cells, std).Keys == DescribeStats + {Median}
    ensures SummaryEntry(cells, std)[Median] == SummaryEntry(cells, std)[P50] == ColumnMedian(cells)
  {
    DescribeKeys(cells, std);
    DescribeMedian(cells, std);
  }

  /** A non-null value is a group exactly when some row holds it. */
  lemma GroupValue(rows: seq<Row>, grouping: string, g: Cell)
    ensures g in NonNullValues(ColumnCells(rows, grouping)) <==> !g.Null? && exists r :: r in rows && Get(r, grouping) == g
  {
    if g in ColumnCells(rows, grouping) {
      var i :| 0 <= i < |rows| && ColumnCells(rows, grouping)[i] == g;
      assert rows[i] in rows;
    }
    if exists r :: r in rows && Get(r, grouping) == g {
      var r :| r in rows && Get(r, grouping) == g;
      var i :| 0 <= i < |rows| && rows[i] == r;
      assert ColumnCells(rows, grouping)[i] == g;
    }
  }

  /** The grouped statistics hold one entry per `describe()` statistic and per non-null
      value some row has in the grouping column. */
  lemma GroupDescribeKeys(rows: seq<Row>, grouping: string, field: string, std: seq<real> -> Option<real>)
    ensures forall st, g :: (st, g) in GroupDescribe(rows, grouping, field, std) <==>
              st in DescribeStats && !g.Null? && exists r :: r in rows && Get(r, grouping) == g
  {
    forall st: Stat, g: Cell
      ensures (st, g) in GroupDescribe(rows, grouping, field, std) <==>
                st in DescribeStats && g in NonNullValues(ColumnCells(rows, grouping))
    {
    }
    forall g: Cell
      ensures g in NonNullValues(ColumnCells(rows, grouping)) <==> !g.Null? && exists r :: r in rows && Get(r, grouping) == g
    {
      GroupValue(rows, grouping, g);
    }
  }

  /** The count of a group is the number of numbers its rows hold in the field. */
  lemma GroupDescribeCount(rows: seq<Row>, grouping: string, field: string, std: seq<real> -> Option<real>, g: Cell)
    requires (Count, g) in GroupDescribe(rows, grouping, field, std)
    ensures GroupDescribe(rows, grouping, field, std)[(Count, g)] == Some(|Numbers(GroupCells(rows, grouping, g, field))| as real)
  {
  }

  /** A null count is at most the number of rows, and the null and non-null cells
      make up the column. */
  lemma NullSummaryBound(e: StatisticsEngine)
    ensures forall c :: c in e.NullSummary() ==>
              e.NullSummary()[c] <= |e.df.rows| &&
              e.NullSummary()[c] + |NonNullCells(ColumnCells(e.df.rows, c))| == |e.df.rows|
  {
    forall c | c in e.NullSummary()
      ensures e.NullSummary()[c] + |NonNullCells(ColumnCells(e.df.rows, c))| == |e.df.rows|
    {
      NullsAndValues(ColumnCells(e.df.rows, c));
    }
  }

  lemma {:induction false} NullsAndValues(cells: seq<Cell>)
    ensures NullCount(cells) + |NonNullCells(cells)| == |cells|
  {
    if cells != [] {
      NullsAndValues(cells[1..]);
    }
  }

  /** A distinct count is at most the number of non-null cells. */
  lemma UniqueCountsBound(e: StatisticsEngine)
    ensures forall c :: c in e.UniqueCounts() ==>
              e.UniqueCounts()[c] <= |NonNullCells(ColumnCells(e.df.rows, c))| &&
              e.UniqueCounts()[c] <= |e.df.rows| - NullCount(ColumnCells(e.df.rows, c))
  {
    forall c | c in e.UniqueCounts()
      ensures e.UniqueCounts()[c] <= |NonNullCells(ColumnCells(e.df.rows, c))|
    {
      UniqueAtMostValues(ColumnCells(e.df.rows, c));
    }
    forall c | c in e.UniqueCounts()
      ensures e.UniqueCounts()[c] <= |e.df.rows| - NullCount(ColumnCells(e.df.rows, c))
    {
      NullsAndValues(ColumnCells(e.df.rows, c));
      UniqueAtMostValues(ColumnCells(e.df.rows, c));
    }
  }

  lemma {:induction false} UniqueAtMostValues(cells: seq<Cell>)
    ensures NUnique(cells) <= |NonNullCells(cells)|
  {
    if cells != [] {
      UniqueAtMostValues(cells[1..]);
      var rest := NonNullValues(cells[1..]);
      if cells[0].Null? {
        assert NonNullValues(cells) == rest;
      } else {
        assert NonNullValues(cells) == rest + {cells[0]};
      }
    }
  }

  /** After cleaning, the null summary reports no missing title and no missing url. */
  lemma NullSummaryAfterCleaning(e: StatisticsEngine, f: Frame, toNumber: string -> Option<real>)
    requires Processing.Cleaned(f, toNumber).Ok? && e.df == Processing.Cleaned(f, toNumber).value
    ensures "title" in e.NullSummary() && e.NullSummary()["title"] == 0
    ensures "url" in e.NullSummary() && e.NullSummary()["url"] == 0
  {
    Processing.CleanedFails(f, toNumber);
    Processing.CleanedNoNulls(f, toNumber);
  }
}
