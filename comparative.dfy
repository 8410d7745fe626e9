/** `ComparativeAnalyzer.mutual_category_comparison`: the categories carried by at least
    `min_sources` sources, and one row of statistics per (category, source) group of the
    rows in those categories: the mean, median, minimum and maximum of each feature and
    the count of titles. */
module Comparative {
  import opened Common
  import opened Frames
  import opened Reductions

  /** The groups of `groupby('source')`: each non-null source once. */
  function SourceList(rows: seq<Row>): seq<Cell>
  {
    Dedup(NonNullCells(ColumnCells(rows, "source")))
  }

  /** `['category'].unique()` of one source's group, without the null category (which
      no group of the comparison can carry). */
  function CategoriesOf(rows: seq<Row>, s: Cell): seq<Cell>
  {
    Dedup(NonNullCells(ColumnCells(Where(rows, Having("source", s)), "category")))
  }

  /** `sum([list(cats) for cats in ...], [])` over the given sources. */
  function AllCats(rows: seq<Row>, sources: seq<Cell>): seq<Cell>
  {
    if sources == [] then [] else CategoriesOf(rows, sources[0]) + AllCats(rows, sources[1..])
  }

  /** `Counter(all_cats)[c] >= min_sources`, for a category the counter has seen. */
  predicate IsMutual(rows: seq<Row>, minSources: int, c: Cell)
  {
    var all := AllCats(rows, SourceList(rows));
    c in all && multiset(all)[c] >= minSources
  }

  /** The distinct non-null sources that carry category `c` on some row. */
  function SourcesOf(rows: seq<Row>, c: Cell): set<Cell>
  {
    set r | r in rows && Get(r, "category") == c && !Get(r, "source").Null? :: Get(r, "source")
  }

  /** A row's cell of a column is among the column's cells. */
  lemma CellOfRow(rows: seq<Row>, r: Row, c: string)
    requires r in rows
    ensures Get(r, c) in ColumnCells(rows, c)
  {
    var i :| 0 <= i < |rows| && rows[i] == r;
    assert ColumnCells(rows, c)[i] == Get(r, c);
  }

  /** A column's cell is some row's cell. */
  lemma RowOfCell(rows: seq<Row>, x: Cell, c: string)
    requires x in ColumnCells(rows, c)
    ensures exists r :: r in rows && Get(r, c) == x
  {
    var i :| 0 <= i < |rows| && ColumnCells(rows, c)[i] == x;
    assert rows[i] in rows;
  }

  /** A category is listed for a source exactly when a row carries both. */
  lemma CategoriesOfMembers(rows: seq<Row>, s: Cell, c: Cell)
    ensures c in CategoriesOf(rows, s) <==> !c.Null? && exists r :: r in rows && Get(r, "source") == s && Get(r, "category") == c
  {
    var w := Where(rows, Having("source", s));
    DedupSpec(NonNullCells(ColumnCells(w, "category")));
    WhereMembers(rows, Having("source", s));
    if c in CategoriesOf(rows, s) {
      RowOfCell(w, c, "category");
    }
    if !c.Null? && exists r :: r in rows && Get(r, "source") == s && Get(r, "category") == c {
      var r :| r in rows && Get(r, "source") == s && Get(r, "category") == c;
      CellOfRow(w, r, "category");
    }
  }

  /** A source is listed exactly when it is non-null and on some row. */
  lemma SourceListMembers(rows: seq<Row>, s: Cell)
    ensures s in SourceList(rows) <==> !s.Null? && exists r :: r in rows && Get(r, "source") == s
  {
    DedupSpec(NonNullCells(ColumnCells(rows, "source")));
    if s in SourceList(rows) {
      RowOfCell(rows, s, "source");
    }
    if !s.Null? && exists r :: r in rows && Get(r, "source") == s {
      var r :| r in rows && Get(r, "source") == s;
      CellOfRow(rows, r, "source");
    }
  }

  /** A list without repeats holds an element at most once. */
  lemma {:induction false} DistinctCount(s: seq<Cell>, x: Cell)
    requires Distinct(s)
    ensures multiset(s)[x] == if x in s then 1 else 0
  {
    if s != [] {
      var n := |s| - 1;
      assert Distinct(s[..n]);
      DistinctCount(s[..n], x);
      assert s == s[..n] + [s[n]];
      assert multiset(s) == multiset(s[..n]) + multiset{s[n]};
    }
  }

  /** The sources of `sources` that list category `c`. */
  function Listing(rows: seq<Row>, sources: seq<Cell>, c: Cell): set<Cell>
  {
    set s | s in sources && c in CategoriesOf(rows, s)
  }

  /** The counter counts a category once for each source that lists it. */
  lemma {:induction false} CountIsSources(rows: seq<Row>, sources: seq<Cell>, c: Cell)
    requires Distinct(sources)
    ensures multiset(AllCats(rows, sources))[c] == |Listing(rows, sources, c)|
  {
    if sources != [] {
      var rest := sources[1..];
      var cats := CategoriesOf(rows, sources[0]);
      assert Distinct(rest);
      CountIsSources(rows, rest, c);
      DedupSpec(NonNullCells(ColumnCells(Where(rows, Having("source", sources[0])), "category")));
      DistinctCount(cats, c);
      assert multiset(AllCats(rows, sources)) == multiset(cats) + multiset(AllCats(rows, rest));
      ListingCons(rows, sources, c);
    }
  }

  /** The first source joins the listing when it lists the category. */
  lemma {:induction false} ListingCons(rows: seq<Row>, sources: seq<Cell>, c: Cell)
    requires sources != [] && Distinct(sources)
    ensures |Listing(rows, sources, c)| ==
              |Listing(rows, sources[1..], c)| + (if c in CategoriesOf(rows, sources[0]) then 1 else 0)
  {
    assert sources[0] !in sources[1..];
    ListingSplit(rows, sources, c);
  }

  lemma {:induction false} ListingSplit(rows: seq<Row>, sources: seq<Cell>, c: Cell)
    requires sources != []
    ensures Listing(rows, sources, c) ==
              Listing(rows, sources[1..], c) + (if c in CategoriesOf(rows, sources[0]) then {sources[0]} else {})
  {
    var first, rest := sources[0], sources[1..];
    var extra: set<Cell> := if c in CategoriesOf(rows, first) then {first} else {};
    forall s | s in Listing(rows, sources, c) ensures s in Listing(rows, rest, c) + extra {
      if s != first {
        assert s in rest;
      }
    }
  }

  /** The sources listing `c` are the sources on a row with category `c`. */
  lemma ListingIsSourcesOf(rows: seq<Row>, c: Cell)
    requires !c.Null?
    ensures Listing(rows, SourceList(rows), c) == SourcesOf(rows, c)
  {
    forall s | s in Listing(rows, SourceList(rows), c)
      ensures s in SourcesOf(rows, c)
    {
      CategoriesOfMembers(rows, s, c);
      SourceListMembers(rows, s);
      var r :| r in rows && Get(r, "source") == s && Get(r, "category") == c;
    }
    forall s | s in SourcesOf(rows, c)
      ensures s in Listing(rows, SourceList(rows), c)
    {
      var r :| r in rows && Get(r, "category") == c && !Get(r, "source").Null? && s == Get(r, "source");
      CategoriesOfMembers(rows, s, c);
      SourceListMembers(rows, s);
    }
  }

  /** The mutual rule: a category is mutual exactly when at least `minSources` distinct
      sources carry it (and at least one does), each source counted once however many
      rows it has in the category. */
  lemma MutualIff(rows: seq<Row>, minSources: int, c: Cell)
    ensures IsMutual(rows, minSources, c) <==>
              !c.Null? && |SourcesOf(rows, c)| >= minSources && |SourcesOf(rows, c)| >= 1
  {
    var sources := SourceList(rows);
    DedupSpec(NonNullCells(ColumnCells(rows, "source")));
    CountIsSources(rows, sources, c);
    var all := AllCats(rows, sources);
    if !c.Null? {
      ListingIsSourcesOf(rows, c);
    } else {
      assert c !in all by {
        AllCatsNonNull(rows, sources);
      }
    }
  }

  /** Every listed category is non-null. */
  lemma {:induction false} AllCatsNonNull(rows: seq<Row>, sources: seq<Cell>)
    ensures forall x :: x in AllCats(rows, sources) ==> !x.Null?
  {
    if sources != [] {
      AllCatsNonNull(rows, sources[1..]);
      DedupSpec(NonNullCells(ColumnCells(Where(rows, Having("source", sources[0])), "category")));
    }
  }

  /** `df[df['category'].isin(mutual_cats)]`. */
  function MutualMask(rows: seq<Row>, minSources: int): Row -> bool
  {
    r => IsMutual(rows, minSources, Get(r, "category"))
  }

  function MutualRows(rows: seq<Row>, minSources: int): seq<Row>
  {
    Where(rows, MutualMask(rows, minSources))
  }

  /** The aggregations `agg_dict` names. */
  datatype Agg = AggMean | AggMedian | AggMin | AggMax

  /** A group's aggregate of one feature, null when the group holds no number. */
  function Aggregate(kind: Agg, cells: seq<Cell>): Cell
  {
    var v := match kind
      case AggMean => ColumnMean(cells)
      case AggMedian => ColumnMedian(cells)
      case AggMin => ColumnMin(cells)
      case AggMax => ColumnMax(cells);
    if v.Some? then Num(v.value) else Null
  }

  /** All four aggregates of a group are null exactly when the group holds no number
      in the feature, and its mean and its median lie between its minimum and its
      maximum. */
  lemma AggregateOrder(cells: seq<Cell>)
    ensures forall kind :: Aggregate(kind, cells).Null? <==> Numbers(cells) == []
    ensures forall kind :: Aggregate(kind, cells).Num? <==> Numbers(cells) != []
    ensures Numbers(cells) != [] ==>
              Aggregate(AggMin, cells).num <= Aggregate(AggMedian, cells).num <= Aggregate(AggMax, cells).num
    ensures Numbers(cells) != [] ==>
              Aggregate(AggMin, cells).num <= Aggregate(AggMean, cells).num <= Aggregate(AggMax, cells).num
  {
    var xs := Numbers(cells);
    forall kind
      ensures Aggregate(kind, cells).Null? <==> xs == []
      ensures Aggregate(kind, cells).Num? <==> xs != []
    {
      AggregateSome(kind, cells);
    }
    if xs != [] {
      MedianIsHalfQuantile(xs);
      QuantileBounds(xs, 1, 2);
      MeanBounds(xs);
      assert Aggregate(AggMean, cells) == Num(Sum(xs) / |xs| as real);
      assert Aggregate(AggMin, cells) == Num(MinOf(xs));
      assert Aggregate(AggMax, cells) == Num(MaxOf(xs));
      assert Aggregate(AggMedian, cells) == Num(MedianOf(xs));
    }
  }

  lemma AggregateSome(kind: Agg, cells: seq<Cell>)
    ensures Aggregate(kind, cells).Null? <==> Numbers(cells) == []
    ensures Aggregate(kind, cells).Num? <==> Numbers(cells) != []
  {
  }

  /** The prefix `agg_dict` gives each aggregation's column name. */
  function Prefix(kind: Agg): string
  {
    match kind
    case AggMean => "avg_" case AggMedian => "median_" case AggMin => "min_" case AggMax => "max_"
  }

  /** The aggregate columns of one feature, in `agg_dict` order, with the aggregation
      each one applies. */
  function FeatureAggs(feat: string): seq<(string, string, Agg)>
  {
    [(Prefix(AggMean) + feat, feat, AggMean), (Prefix(AggMedian) + feat, feat, AggMedian),
     (Prefix(AggMin) + feat, feat, AggMin), (Prefix(AggMax) + feat, feat, AggMax)]
  }

  /** The named aggregations of the features, in order. */
  function Aggs(features: seq<string>): seq<(string, string, Agg)>
  {
    if features == [] then [] else FeatureAggs(features[0]) + Aggs(features[1..])
  }

  /** One group's named aggregations, later names overwriting earlier ones as `agg_dict`
      assignments do. */
  function AggValues(g: seq<Row>, aggs: seq<(string, string, Agg)>): map<string, Cell>
  {
    if aggs == [] then map[]
    else
      var a := aggs[|aggs| - 1];
      AggValues(g, aggs[..|aggs| - 1])[a.0 := Aggregate(a.2, ColumnCells(g, a.1))]
  }

  /** One row of the comparison: the group key, the feature statistics and the count of
      non-null titles. */
  function ComparisonRow(kept: seq<Row>, key: (Cell, Cell), features: seq<string>): Row
  {
    var g := GroupRows(kept, "category", "source", key);
    (map["category" := key.0, "source" := key.1] + AggValues(g, Aggs(features)))
      ["count" := Num(NonNullCount(ColumnCells(g, "title")) as real)]
  }

  /** The columns of the result: the group key, then the aggregation names. */
  function ComparisonColumns(features: seq<string>): seq<string>
  {
    ["category", "source"] + Dedup(Apply((a: (string, string, Agg)) => a.0, Aggs(features)) + ["count"])
  }

  /** `mutual_category_comparison(df, features, min_sources)`: `KeyError` for a missing
      source or category column, or for a feature or title column the aggregation
      cannot find; otherwise one row per group of the mutual rows. */
  function Comparison(f: Frame, features: seq<string>, minSources: int): Outcome<Frame>
  {
    if "source" !in f.columns then Err(KeyError("source"))
    else if "category" !in f.columns then Err(KeyError("category"))
    else if MissingColumn(f.columns, features + ["title"]).Some? then
      Err(KeyError(MissingColumn(f.columns, features + ["title"]).value))
    else
      var kept := MutualRows(f.rows, minSources);
      var groups := Groups(kept, "category", "source");
      Ok(Frame(ComparisonColumns(features),
               seq(|groups|, i requires 0 <= i < |groups| => ComparisonRow(kept, groups[i], features))))
  }

  /** The comparison raises exactly when source, category, a feature or title is not a
      column, and then names a column that is missing. */
  lemma ComparisonFails(f: Frame, features: seq<string>, minSources: int)
    ensures Comparison(f, features, minSources).Err? <==>
              !("source" in f.columns && "category" in f.columns && "title" in f.columns &&
                forall feat :: feat in features ==> feat in f.columns)
    ensures Comparison(f, features, minSources).Err? ==>
              Comparison(f, features, minSources).error.KeyError? &&
              Comparison(f, features, minSources).error.key !in f.columns
  {
    var m := MissingColumn(f.columns, features + ["title"]);
    assert forall n :: n in features + ["title"] <==> n in features || n == "title";
  }

  /** Aggregation names start with `a` or `m`, so they never hide the key columns. */
  lemma {:induction false} AggNames(features: seq<string>)
    ensures forall a :: a in Aggs(features) ==> |a.0| > 0 && (a.0[0] == 'a' || a.0[0] == 'm')
  {
    if features != [] {
      AggNames(features[1..]);
    }
  }

  lemma {:induction false} AggValuesKeys(g: seq<Row>, aggs: seq<(string, string, Agg)>)
    ensures forall k :: k in AggValues(g, aggs) ==> exists a :: a in aggs && a.0 == k
  {
    if aggs != [] {
      var n := |aggs| - 1;
      AggValuesKeys(g, aggs[..n]);
      assert forall a :: a in aggs[..n] ==> a in aggs;
    }
  }

  /** A name all of whose aggregations agree holds that aggregation. */
  lemma {:induction false} AggValuesName(g: seq<Row>, aggs: seq<(string, string, Agg)>, name: string, col: string, kind: Agg)
    requires exists a :: a in aggs && a.0 == name
    requires forall a :: a in aggs && a.0 == name ==> a.1 == col && a.2 == kind
    ensures name in AggValues(g, aggs) && AggValues(g, aggs)[name] == Aggregate(kind, ColumnCells(g, col))
  {
    var n := |aggs| - 1;
    var a := aggs[n];
    assert aggs == aggs[..n] + [a];
    if a.0 == name {
      assert a in aggs;
    } else {
      var w :| w in aggs && w.0 == name;
      assert w in aggs[..n];
      assert forall b :: b in aggs[..n] ==> b in aggs;
      AggValuesName(g, aggs[..n], name, col, kind);
    }
  }

  /** An aggregate column's name tells its aggregation and its feature. */
  lemma NameDetermines(k1: Agg, f1: string, k2: Agg, f2: string)
    requires Prefix(k1) + f1 == Prefix(k2) + f2
    ensures k1 == k2 && f1 == f2
  {
    var n := Prefix(k1) + f1;
    assert n[0] == Prefix(k1)[0] == Prefix(k2)[0];
    assert n[1] == Prefix(k1)[1] == Prefix(k2)[1];
    PrefixHead(k1, k2);
    assert f1 == n[|Prefix(k1)|..] == f2;
  }

  lemma PrefixHead(k1: Agg, k2: Agg)
    requires Prefix(k1)[0] == Prefix(k2)[0] && Prefix(k1)[1] == Prefix(k2)[1]
    ensures k1 == k2
  {
  }

  /** The aggregation a name stands for: the `avg_` column of a feature is that
      feature's mean, and likewise for `median_`, `min_` and `max_`. */
  lemma AggsNamed(features: seq<string>, feat: string, kind: Agg)
    requires feat in features
    ensures exists a :: a in Aggs(features) && a.0 == Prefix(kind) + feat
    ensures forall a :: a in Aggs(features) && a.0 == Prefix(kind) + feat ==> a.1 == feat && a.2 == kind
  {
    AggsMembers(features);
    FeatureAggsShape(feat, kind);
    forall a | a in Aggs(features) && a.0 == Prefix(kind) + feat
      ensures a.1 == feat && a.2 == kind
    {
      var f :| f in features && a in FeatureAggs(f);
      FeatureAggsShape(f, a.2);
      NameDetermines(a.2, f, kind, feat);
    }
  }

  /** A feature has one aggregation of each kind, named by its prefix. */
  lemma FeatureAggsShape(feat: string, kind: Agg)
    ensures (Prefix(kind) + feat, feat, kind) in FeatureAggs(feat)
    ensures forall a :: a in FeatureAggs(feat) ==> a.1 == feat && a.0 == Prefix(a.2) + feat
  {
  }

  /** The aggregations of the features are those of each feature. */
  lemma {:induction false} AggsMembers(features: seq<string>)
    ensures forall a :: a in Aggs(features) <==> exists f :: f in features && a in FeatureAggs(f)
  {
    if features != [] {
      AggsMembers(features[1..]);
      assert forall f :: f in features <==> f == features[0] || f in features[1..];
    }
  }

  /** A comparison row carries its group's key and its count of titles. */
  lemma ComparisonRowCells(kept: seq<Row>, key: (Cell, Cell), features: seq<string>)
    ensures var row := ComparisonRow(kept, key, features);
            var g := GroupRows(kept, "category", "source", key);
            && Get(row, "category") == key.0 && Get(row, "source") == key.1
            && Get(row, "count") == Num(NonNullCount(ColumnCells(g, "title")) as real)
  {
    var g := GroupRows(kept, "category", "source", key);
    var m := AggValues(g, Aggs(features));
    AggNames(features);
    AggValuesKeys(g, Aggs(features));
    assert "category" !in m && "source" !in m;
  }

  /** A comparison row's `avg_`, `median_`, `min_` and `max_` cell of a feature is that
      aggregate of the feature over the row's group. */
  lemma ComparisonRowFeature(kept: seq<Row>, key: (Cell, Cell), features: seq<string>, feat: string, kind: Agg)
    requires feat in features
    ensures var g := GroupRows(kept, "category", "source", key);
            Get(ComparisonRow(kept, key, features), Prefix(kind) + feat) == Aggregate(kind, ColumnCells(g, feat))
  {
    var g := GroupRows(kept, "category", "source", key);
    var name := Prefix(kind) + feat;
    AggsNamed(features, feat, kind);
    AggValuesName(g, Aggs(features), name, feat, kind);
    assert name[0] != 'c';
  }

  /** The result has one row per (category, source) pair of a row in a mutual category,
      and no other row: each row carries its pair and the count of non-null titles in
      its group, and no pair repeats. */
  lemma ComparisonGroups(f: Frame, features: seq<string>, minSources: int)
    requires Comparison(f, features, minSources).Ok?
    ensures var out := Comparison(f, features, minSources).value;
            var kept := MutualRows(f.rows, minSources);
            var groups := Groups(kept, "category", "source");
            && |out.rows| == |groups| && Distinct(groups)
            && (forall i :: 0 <= i < |groups| ==>
                  Get(out.rows[i], "category") == groups[i].0 && Get(out.rows[i], "source") == groups[i].1 &&
                  Get(out.rows[i], "count") ==
                    Num(NonNullCount(ColumnCells(GroupRows(kept, "category", "source", groups[i]), "title")) as real))
            && (forall k :: k in groups <==>
                  exists r :: r in f.rows && HasKey(r, "category", "source") && k == KeyOf(r, "category", "source") &&
                              IsMutual(f.rows, minSources, k.0))
  {
    var kept := MutualRows(f.rows, minSources);
    var groups := Groups(kept, "category", "source");
    GroupsSpec(kept, "category", "source");
    WhereMembers(f.rows, MutualMask(f.rows, minSources));
    forall i | 0 <= i < |groups|
      ensures var row := ComparisonRow(kept, groups[i], features);
              Get(row, "category") == groups[i].0 && Get(row, "source") == groups[i].1 &&
              Get(row, "count") == Num(NonNullCount(ColumnCells(GroupRows(kept, "category", "source", groups[i]), "title")) as real)
    {
      ComparisonRowCells(kept, groups[i], features);
    }
  }

  /** Every row of the result is in a mutual category, so a category with fewer than
      `minSources` sources is left out. */
  lemma ComparisonOnlyMutual(f: Frame, features: seq<string>, minSources: int)
    requires Comparison(f, features, minSources).Ok?
    ensures forall row :: row in Comparison(f, features, minSources).value.rows ==>
              |SourcesOf(f.rows, Get(row, "category"))| >= minSources
  {
    var out := Comparison(f, features, minSources).value;
    var kept := MutualRows(f.rows, minSources);
    var groups := Groups(kept, "category", "source");
    ComparisonGroups(f, features, minSources);
    forall row | row in out.rows
      ensures |SourcesOf(f.rows, Get(row, "category"))| >= minSources
    {
      var i :| 0 <= i < |out.rows| && out.rows[i] == row;
      assert groups[i] in groups;
      MutualIff(f.rows, minSources, groups[i].0);
    }
  }

  /** When no category is mutual the result has no row. */
  lemma ComparisonEmpty(f: Frame, features: seq<string>, minSources: int)
    requires Comparison(f, features, minSources).Ok?
    requires forall r :: r in f.rows ==> |SourcesOf(f.rows, Get(r, "category"))| < minSources
    ensures Comparison(f, features, minSources).value.rows == []
  {
    var kept := MutualRows(f.rows, minSources);
    var groups := Groups(kept, "category", "source");
    ComparisonGroups(f, features, minSources);
    if groups != [] {
      assert groups[0] in groups;
      var r :| r in f.rows && HasKey(r, "category", "source") && groups[0] == KeyOf(r, "category", "source") &&
                IsMutual(f.rows, minSources, groups[0].0);
      MutualIff(f.rows, minSources, groups[0].0);
    }
  }
}
