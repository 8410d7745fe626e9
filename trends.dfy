/** `TrendAnalyzer`: the mean price and the mean review count of each
    (category, source) group. */
module Trends {
  import opened Common
  import opened Frames
  import opened Reductions

  /** The mean of one column over one group, null when the group holds no number
      there. */
  function GroupMean(rows: seq<Row>, key: (Cell, Cell), col: string): Cell
  {
    var m := ColumnMean(ColumnCells(GroupRows(rows, "category", "source", key), col));
    if m.Some? then Num(m.value) else Null
  }

  /** `df.groupby(['category', 'source'])[col].mean().reset_index()`, or the empty
      frame when category, source or `col` is not a column. */
  function Trend(f: Frame, col: string): Frame
  {
    if !("category" in f.columns && "source" in f.columns && col in f.columns) then EmptyFrame()
    else
      var groups := Groups(f.rows, "category", "source");
      Frame(["category", "source", col],
            seq(|groups|, i requires 0 <= i < |groups| =>
                  map["category" := groups[i].0, "source" := groups[i].1, col := GroupMean(f.rows, groups[i], col)]))
  }

  class TrendAnalyzer {
    const df: Frame

    constructor (df: Frame)
      ensures this.df == df
    {
      this.df := df;
    }

    /** `price_trend_over_categories()`. */
    function PriceTrend(): (t: Frame)
      ensures t == EmptyFrame() <==> !("category" in df.columns && "source" in df.columns && "price" in df.columns)
      ensures t != EmptyFrame() ==> t.columns == ["category", "source", "price"]
    {
      Trend(df, "price")
    }

    /** `review_trend()`. */
    function ReviewTrend(): (t: Frame)
      ensures t == EmptyFrame() <==> !("category" in df.columns && "source" in df.columns && "review_count" in df.columns)
      ensures t != EmptyFrame() ==> t.columns == ["category", "source", "review_count"]
    {
      Trend(df, "review_count")
    }
  }

  /** A trend is one row per (category, source) pair some row carries, without
      repetition; each row holds its pair and the group's mean of the column. */
  lemma TrendGroups(f: Frame, col: string)
    requires col != "category" && col != "source"
    requires "category" in f.columns && "source" in f.columns && col in f.columns
    ensures var t := Trend(f, col);
            var groups := Groups(f.rows, "category", "source");
            && t.columns == ["category", "source", col]
            && |t.rows| == |groups| && Distinct(groups)
            && (forall k :: k in groups <==> exists r :: r in f.rows && HasKey(r, "category", "source") && k == KeyOf(r, "category", "source"))
            && (forall i :: 0 <= i < |groups| ==>
                  Get(t.rows[i], "category") == groups[i].0 && Get(t.rows[i], "source") == groups[i].1 &&
                  Get(t.rows[i], col) == GroupMean(f.rows, groups[i], col))
  {
    GroupsSpec(f.rows, "category", "source");
  }

  /** A group's mean is null exactly when the group holds no number in the column,
      and otherwise lies between the group's minimum and maximum. */
  lemma GroupMeanBounds(rows: seq<Row>, key: (Cell, Cell), col: string)
    ensures var cells := ColumnCells(GroupRows(rows, "category", "source", key), col);
            && (GroupMean(rows, key, col).Null? <==> Numbers(cells) == [])
            && (Numbers(cells) != [] ==>
                  GroupMean(rows, key, col).Num? &&
                  ColumnMin(cells).value <= GroupMean(rows, key, col).num <= ColumnMax(cells).value)
  {
    var xs := Numbers(ColumnCells(GroupRows(rows, "category", "source", key), col));
    if xs != [] {
      MeanBounds(xs);
    }
  }

  /** Every group holds at least one row. */
  lemma GroupNotEmpty(f: Frame, k: (Cell, Cell))
    requires k in Groups(f.rows, "category", "source")
    ensures GroupRows(f.rows, "category", "source", k) != []
  {
    GroupKey(f.rows, "category", "source", k);
    var r :| r in f.rows && HasKey(r, "category", "source") && k == KeyOf(r, "category", "source");
    WhereMembers(f.rows, r => HasKey(r, "category", "source") && KeyOf(r, "category", "source") == k);
  }
}
