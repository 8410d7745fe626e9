/** The tables the data layer and the analysis code work on: a frame is its column
    names and its rows, each row mapping column names to cells. Null cells stand for
    both `None` and `NaN`. This module holds the table operations they share: column
    selection, null and distinct counts, row filters, first-occurrence de-duplication
    and the distinct group keys of a two-column `groupby`. */
module Frames {
  import opened Common

  datatype Cell = Null | Text(text: string) | Num(num: real) | Flag(flag: bool)

  type Row = map<string, Cell>

  datatype Frame = Frame(columns: seq<string>, rows: seq<Row>)

  /** `pd.DataFrame()`: no columns and no rows. */
  function EmptyFrame(): Frame
  {
    Frame([], [])
  }

  /** The first of the names that is not a column. */
  function MissingColumn(columns: seq<string>, names: seq<string>): (m: Option<string>)
    ensures m.None? <==> forall n :: n in names ==> n in columns
    ensures m.Some? ==> m.value in names && m.value !in columns
  {
    if names == [] then None
    else if names[0] !in columns then Some(names[0])
    else MissingColumn(columns, names[1..])
  }

  /** A row's cell in a column, null where the row has no such column. */
  function Get(r: Row, c: string): Cell
  {
    if c in r then r[c] else Null
  }

  /** `df[c]`, as the list of the rows' cells. */
  function ColumnCells(rows: seq<Row>, c: string): (cells: seq<Cell>)
    ensures |cells| == |rows|
    ensures forall i :: 0 <= i < |rows| ==> cells[i] == Get(rows[i], c)
  {
    if rows == [] then [] else [Get(rows[0], c)] + ColumnCells(rows[1..], c)
  }

  /** `isnull().sum()`: how many cells are null. */
  function NullCount(cells: seq<Cell>): nat
  {
    if cells == [] then 0 else (if cells[0].Null? then 1 else 0) + NullCount(cells[1..])
  }

  /** The non-null cells, in order. */
  function NonNullCells(cells: seq<Cell>): (r: seq<Cell>)
    ensures forall x :: x in r <==> x in cells && !x.Null?
  {
    if cells == [] then []
    else (if cells[0].Null? then [] else [cells[0]]) + NonNullCells(cells[1..])
  }

  /** The number of non-null cells (`count`). */
  function NonNullCount(cells: seq<Cell>): nat
  {
    |NonNullCells(cells)|
  }

  /** The rows whose cell in column `c` is `v`, as a row filter. */
  function Having(c: string, v: Cell): Row -> bool
  {
    r => Get(r, c) == v
  }

  /** The distinct non-null values of a column. */
  function NonNullValues(cells: seq<Cell>): set<Cell>
  {
    set x | x in cells && !x.Null?
  }

  /** `nunique()`: how many distinct non-null values there are. */
  function NUnique(cells: seq<Cell>): nat
  {
    |NonNullValues(cells)|
  }

  /** No value occurs twice. */
  predicate Distinct<T(==)>(s: seq<T>)
  {
    forall i, j :: 0 <= i < j < |s| ==> s[i] != s[j]
  }

  /** A sequence without repeats has as many distinct elements as it is long. */
  lemma {:induction false} DistinctCard<T>(s: seq<T>)
    requires Distinct(s)
    ensures |set x | x in s| == |s|
  {
    if s != [] {
      var n := |s| - 1;
      var before := s[..n];
      assert Distinct(before);
      DistinctCard(before);
      assert s[n] !in before;
      assert (set x | x in s) == (set x | x in before) + {s[n]} by {
        assert forall x :: x in s <==> x in before || x == s[n];
      }
    }
  }

  /** The rows that satisfy `keep`, in order (a boolean mask). */
  function Where(rows: seq<Row>, keep: Row -> bool): seq<Row>
  {
    if rows == [] then []
    else
      var before := Where(rows[..|rows| - 1], keep);
      if keep(rows[|rows| - 1]) then before + [rows[|rows| - 1]] else before
  }

  /** A row is kept exactly when it is one of the rows and satisfies the mask. */
  lemma {:induction false} WhereMembers(rows: seq<Row>, keep: Row -> bool)
    ensures forall r :: r in Where(rows, keep) <==> r in rows && keep(r)
    ensures |Where(rows, keep)| <= |rows|
  {
    if rows != [] {
      var n := |rows| - 1;
      WhereMembers(rows[..n], keep);
      assert forall r :: r in rows <==> r in rows[..n] || r == rows[n];
    }
  }

  /** `a` is `b` with some elements left out, the rest in their order. */
  predicate Subsequence<T(==)>(a: seq<T>, b: seq<T>)
  {
    if a == [] then true
    else if b == [] then false
    else if a[0] == b[0] then Subsequence(a[1..], b[1..])
    else Subsequence(a, b[1..])
  }

  /** An element added to the longer sequence only. */
  lemma {:induction false} SubsequenceExtend<T>(a: seq<T>, b: seq<T>, x: T)
    requires Subsequence(a, b)
    ensures Subsequence(a, b + [x])
  {
    if a != [] {
      assert (b + [x])[1..] == b[1..] + [x];
      if a[0] == b[0] {
        SubsequenceExtend(a[1..], b[1..], x);
      } else {
        SubsequenceExtend(a, b[1..], x);
      }
    }
  }

  /** An element added to both sequences. */
  lemma {:induction false} SubsequenceBoth<T>(a: seq<T>, b: seq<T>, x: T)
    requires Subsequence(a, b)
    ensures Subsequence(a + [x], b + [x])
  {
    if b != [] {
      assert (b + [x])[1..] == b[1..] + [x];
      if a == [] {
        if b[0] != x {
          SubsequenceBoth(a, b[1..], x);
          assert a + [x] == [x];
        }
      } else {
        assert (a + [x])[1..] == a[1..] + [x];
        if a[0] == b[0] {
          SubsequenceBoth(a[1..], b[1..], x);
        } else {
          SubsequenceBoth(a, b[1..], x);
        }
      }
    }
  }

  /** The mask keeps the rows' order. */
  lemma {:induction false} WhereInOrder(rows: seq<Row>, keep: Row -> bool)
    ensures Subsequence(Where(rows, keep), rows)
  {
    if rows != [] {
      var n := |rows| - 1;
      WhereInOrder(rows[..n], keep);
      assert rows[..n] + [rows[n]] == rows;
      if keep(rows[n]) {
        SubsequenceBoth(Where(rows[..n], keep), rows[..n], rows[n]);
      } else {
        SubsequenceExtend(Where(rows[..n], keep), rows[..n], rows[n]);
      }
    }
  }

  /** `drop_duplicates(subset=[c])`: the first row of each value of `c`, in order. */
  function KeepFirst(rows: seq<Row>, c: string): seq<Row>
  {
    if rows == [] then []
    else
      var before := KeepFirst(rows[..|rows| - 1], c);
      var last := rows[|rows| - 1];
      if Get(last, c) in ColumnCells(before, c) then before else before + [last]
  }

  lemma ColumnCellsAppend(a: seq<Row>, b: seq<Row>, c: string)
    ensures ColumnCells(a + b, c) == ColumnCells(a, c) + ColumnCells(b, c)
  {
  }

  /** After de-duplication no two rows share a value of `c`. */
  lemma {:induction false} KeepFirstDistinct(rows: seq<Row>, c: string)
    ensures Distinct(ColumnCells(KeepFirst(rows, c), c))
  {
    if rows != [] {
      var n := |rows| - 1;
      KeepFirstDistinct(rows[..n], c);
      var before := KeepFirst(rows[..n], c);
      ColumnCellsAppend(before, [rows[n]], c);
    }
  }

  /** Every kept row is one of the rows. */
  lemma {:induction false} KeepFirstRows(rows: seq<Row>, c: string)
    ensures forall r :: r in KeepFirst(rows, c) ==> r in rows
  {
    if rows != [] {
      var n := |rows| - 1;
      KeepFirstRows(rows[..n], c);
      assert forall r :: r in rows[..n] ==> r in rows;
    }
  }

  /** The kept rows carry exactly the values of `c` the rows carry. */
  lemma {:induction false} KeepFirstValues(rows: seq<Row>, c: string)
    ensures forall v :: v in ColumnCells(KeepFirst(rows, c), c) <==> v in ColumnCells(rows, c)
  {
    if rows != [] {
      var n := |rows| - 1;
      KeepFirstValues(rows[..n], c);
      var before := KeepFirst(rows[..n], c);
      ColumnCellsAppend(before, [rows[n]], c);
      ColumnCellsAppend(rows[..n], [rows[n]], c);
      assert rows[..n] + [rows[n]] == rows;
    }
  }

  /** No row before `i` has the value of `c` that row `i` has. */
  predicate FirstOfValue(rows: seq<Row>, c: string, i: int)
    requires 0 <= i < |rows|
  {
    forall j :: 0 <= j < i ==> Get(rows[j], c) != Get(rows[i], c)
  }

  lemma FirstIsNew(rows: seq<Row>, c: string, i: int)
    requires 0 <= i < |rows| && FirstOfValue(rows, c, i)
    ensures Get(rows[i], c) !in ColumnCells(rows[..i], c)
  {
  }

  /** The first row with a given value of `c` is kept. */
  lemma {:induction false} KeepFirstKeeps(rows: seq<Row>, c: string, i: int)
    requires 0 <= i < |rows| && FirstOfValue(rows, c, i)
    ensures rows[i] in KeepFirst(rows, c)
  {
    var n := |rows| - 1;
    if i < n {
      assert FirstOfValue(rows[..n], c, i) by {
        forall j | 0 <= j < i
          ensures Get(rows[..n][j], c) != Get(rows[..n][i], c)
        {
        }
      }
      KeepFirstKeeps(rows[..n], c, i);
    } else {
      KeepFirstValues(rows[..n], c);
      FirstIsNew(rows, c, n);
    }
  }

  /** The first row with each value of `c` is kept. */
  lemma KeepFirstKeepsFirst(rows: seq<Row>, c: string)
    ensures forall i :: 0 <= i < |rows| && FirstOfValue(rows, c, i) ==> rows[i] in KeepFirst(rows, c)
  {
    forall i | 0 <= i < |rows| && FirstOfValue(rows, c, i)
      ensures rows[i] in KeepFirst(rows, c)
    {
      KeepFirstKeeps(rows, c, i);
    }
  }

  /** De-duplication keeps the rows' order. */
  lemma {:induction false} KeepFirstInOrder(rows: seq<Row>, c: string)
    ensures Subsequence(KeepFirst(rows, c), rows)
  {
    if rows != [] {
      var n := |rows| - 1;
      KeepFirstInOrder(rows[..n], c);
      var before := KeepFirst(rows[..n], c);
      assert rows[..n] + [rows[n]] == rows;
      if Get(rows[n], c) in ColumnCells(before, c) {
        SubsequenceExtend(before, rows[..n], rows[n]);
      } else {
        SubsequenceBoth(before, rows[..n], rows[n]);
      }
    }
  }

  /** The distinct values of a sequence, in order of first appearance. */
  function Dedup<T(==)>(s: seq<T>): seq<T>
  {
    if s == [] then []
    else
      var before := Dedup(s[..|s| - 1]);
      if s[|s| - 1] in before then before else before + [s[|s| - 1]]
  }

  /** De-duplication keeps every value once and adds none. */
  lemma {:induction false} DedupSpec<T>(s: seq<T>)
    ensures Distinct(Dedup(s))
    ensures forall x :: x in Dedup(s) <==> x in s
  {
    if s != [] {
      var n := |s| - 1;
      DedupSpec(s[..n]);
      assert forall x :: x in s <==> x in s[..n] || x == s[n];
    }
  }

  /** The `groupby([a, b])` key of a row, when neither cell is null (null keys are
      dropped). */
  predicate HasKey(r: Row, a: string, b: string)
  {
    !Get(r, a).Null? && !Get(r, b).Null?
  }

  function KeyOf(r: Row, a: string, b: string): (Cell, Cell)
  {
    (Get(r, a), Get(r, b))
  }

  /** The keys of the rows that have one, in row order. */
  function RowKeys(rows: seq<Row>, a: string, b: string): (keys: seq<(Cell, Cell)>)
    ensures forall k :: k in keys <==> exists r :: r in rows && HasKey(r, a, b) && k == KeyOf(r, a, b)
  {
    if rows == [] then []
    else
      var rest := RowKeys(rows[1..], a, b);
      assert forall r :: r in rows <==> r == rows[0] || r in rows[1..];
      (if HasKey(rows[0], a, b) then [KeyOf(rows[0], a, b)] else []) + rest
  }

  /** The groups of `groupby([a, b])`: each key of a row once. */
  function Groups(rows: seq<Row>, a: string, b: string): seq<(Cell, Cell)>
  {
    Dedup(RowKeys(rows, a, b))
  }

  /** One key is a group exactly when some row carries it. */
  lemma GroupKey(rows: seq<Row>, a: string, b: string, k: (Cell, Cell))
    ensures k in Groups(rows, a, b) <==> exists r :: r in rows && HasKey(r, a, b) && k == KeyOf(r, a, b)
  {
    DedupSpec(RowKeys(rows, a, b));
  }

  /** Every distinct key of a row is one group, and there is no other group. */
  lemma GroupsSpec(rows: seq<Row>, a: string, b: string)
    ensures Distinct(Groups(rows, a, b))
    ensures forall k :: k in Groups(rows, a, b) <==> exists r :: r in rows && HasKey(r, a, b) && k == KeyOf(r, a, b)
  {
    DedupSpec(RowKeys(rows, a, b));
    forall k
      ensures k in Groups(rows, a, b) <==> exists r :: r in rows && HasKey(r, a, b) && k == KeyOf(r, a, b)
    {
      GroupKey(rows, a, b, k);
    }
  }

  /** The rows of one group. */
  function GroupRows(rows: seq<Row>, a: string, b: string, key: (Cell, Cell)): seq<Row>
  {
    Where(rows, r => HasKey(r, a, b) && KeyOf(r, a, b) == key)
  }
}
