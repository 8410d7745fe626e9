/** The persistence layer: the module-level engine, session factory and connection
    parameters; the two product tables with their URL rule (a record is inserted only
    when no stored row has its URL); and the two recursive rewrites that prepare
    analysis results for JSON. The tables are lists of product records in insertion
    order. */
module Database {
  import opened Common
  import opened Frames

  /** The rows already stored carry this URL (`filter_by(url=...)` matches `None` with
      `IS NULL`). */
  predicate UrlStored(table: seq<Product>, url: Option<string>)
  {
    exists r :: r in table && r.url == url
  }

  /** A batch inserted one record at a time: a record is added when building its row
      object does not raise (`fails`) and no row, earlier batch rows included, has its
      URL. A failing record is skipped and the loop goes on. */
  function Inserted(table: seq<Product>, batch: seq<Product>, fails: Product -> bool): seq<Product>
  {
    if batch == [] then table
    else
      var t := Inserted(table, batch[..|batch| - 1], fails);
      var p := batch[|batch| - 1];
      if fails(p) || UrlStored(t, p.url) then t else t + [p]
  }

  /** No two rows share a URL. */
  predicate UrlsDistinct(table: seq<Product>)
  {
    forall i, j :: 0 <= i < j < |table| ==> table[i].url != table[j].url
  }

  /** Saving only appends: the stored rows stay as they were, and each added row is a
      record of the batch that did not fail and whose URL was new. */
  lemma {:induction false} InsertedAppends(table: seq<Product>, batch: seq<Product>, fails: Product -> bool)
    ensures |Inserted(table, batch, fails)| >= |table|
    ensures Inserted(table, batch, fails)[..|table|] == table
    ensures forall r :: r in Inserted(table, batch, fails)[|table|..] ==> r in batch && !fails(r) && !UrlStored(table, r.url)
    ensures |Inserted(table, batch, fails)| <= |table| + |batch|
  {
    if batch != [] {
      var n := |batch| - 1;
      InsertedAppends(table, batch[..n], fails);
      var t := Inserted(table, batch[..n], fails);
      var p := batch[n];
      assert forall r :: r in batch[..n] ==> r in batch;
      if !(fails(p) || UrlStored(t, p.url)) {
        assert (t + [p])[..|table|] == t[..|table|];
        assert (t + [p])[|table|..] == t[|table|..] + [p];
        assert forall r :: r in table ==> r in t;
      }
    }
  }

  /** Distinct URLs stay distinct. */
  lemma {:induction false} InsertedDistinct(table: seq<Product>, batch: seq<Product>, fails: Product -> bool)
    requires UrlsDistinct(table)
    ensures UrlsDistinct(Inserted(table, batch, fails))
  {
    if batch != [] {
      var n := |batch| - 1;
      InsertedDistinct(table, batch[..n], fails);
      var t := Inserted(table, batch[..n], fails);
      var p := batch[n];
      if !(fails(p) || UrlStored(t, p.url)) {
        forall i, j | 0 <= i < j < |t + [p]|
          ensures (t + [p])[i].url != (t + [p])[j].url
        {
          if j == |t| {
            assert t[i] in t;
          }
        }
      }
    }
  }

  /** After saving, every record that did not fail has its URL stored. */
  lemma {:induction false} InsertedCovers(table: seq<Product>, batch: seq<Product>, fails: Product -> bool)
    ensures forall r :: r in table ==> r in Inserted(table, batch, fails)
    ensures forall p :: p in batch && !fails(p) ==> UrlStored(Inserted(table, batch, fails), p.url)
  {
    if batch != [] {
      var n := |batch| - 1;
      InsertedCovers(table, batch[..n], fails);
      var t := Inserted(table, batch[..n], fails);
      assert forall p :: p in batch ==> p in batch[..n] || p == batch[n];
      forall p | p in batch && !fails(p)
        ensures UrlStored(Inserted(table, batch, fails), p.url)
      {
        if p in batch[..n] {
          var r :| r in t && r.url == p.url;
          assert r in Inserted(table, batch, fails);
        } else if !UrlStored(t, p.url) {
          assert p in t + [p];
        } else {
          var r :| r in t && r.url == p.url;
          assert r in Inserted(table, batch, fails);
        }
      }
    }
  }

  /** A batch whose every record fails or is already stored changes nothing. */
  lemma {:induction false} InsertedNothingNew(table: seq<Product>, batch: seq<Product>, fails: Product -> bool)
    requires forall p :: p in batch ==> fails(p) || UrlStored(table, p.url)
    ensures Inserted(table, batch, fails) == table
  {
    if batch != [] {
      var n := |batch| - 1;
      assert forall p :: p in batch[..n] ==> p in batch;
      InsertedNothingNew(table, batch[..n], fails);
    }
  }

  /** Saving the same batch twice stores what saving it once does; in particular,
      re-saving a stored record leaves the row count unchanged. */
  lemma ResaveUnchanged(table: seq<Product>, batch: seq<Product>, again: seq<Product>, fails: Product -> bool)
    requires forall p :: p in again ==> p in batch
    ensures Inserted(Inserted(table, batch, fails), again, fails) == Inserted(table, batch, fails)
  {
    InsertedCovers(table, batch, fails);
    InsertedNothingNew(Inserted(table, batch, fails), again, fails);
  }

  /** A record whose row object raises while being built is skipped: the records after
      it are saved as if it had not been in the batch. */
  lemma {:induction false} FailingRecordSkipped(table: seq<Product>, before: seq<Product>, p: Product,
                                                after: seq<Product>, fails: Product -> bool)
    requires fails(p)
    ensures Inserted(table, before + [p] + after, fails) == Inserted(table, before + after, fails)
  {
    if after == [] {
      assert (before + [p] + after)[..|before|] == before;
      assert before + after == before;
    } else {
      var n := |after| - 1;
      FailingRecordSkipped(table, before, p, after[..n], fails);
      assert (before + [p] + after)[..|before| + 1 + n] == before + [p] + after[..n];
      assert (before + after)[..|before| + n] == before + after[..n];
      assert (before + [p] + after)[|before| + 1 + n] == after[n];
      assert (before + after)[|before| + n] == after[n];
    }
  }

  /** The insert loop of `save_products_raw` and `save_products`: `count` is how many
      records were added. */
  method InsertNew(table: seq<Product>, batch: seq<Product>, fails: Product -> bool)
    returns (t: seq<Product>, count: nat)
    ensures t == Inserted(table, batch, fails)
    ensures |t| == |table| + count
  {
    t := table;
    count := 0;
    for i := 0 to |batch|
      invariant t == Inserted(table, batch[..i], fails)
      invariant |t| == |table| + count
    {
      assert batch[..i + 1][..i] == batch[..i];
      var p := batch[i];
      if !fails(p) {
        if !(exists r :: r in t && r.url == p.url) {
          t := t + [p];
          count := count + 1;
        }
      }
    }
    assert batch[..|batch|] == batch;
  }

  /** The configuration and contents of the database as the module's globals see them:
      whether `_engine` and `_Session` are set, `_db_params`, the two tables, and how many
      times the schema script has run. */
  class Store {
    var engineSet: bool
    var sessionSet: bool
    var params: map<string, string>
    var raw: seq<Product>
    var products: seq<Product>
    var schemaRuns: nat

    /** The globals before `configure_engine`, over tables holding `raw` and `products`. */
    constructor (raw: seq<Product>, products: seq<Product>)
      ensures !engineSet && !sessionSet && params == map[]
      ensures this.raw == raw && this.products == products && schemaRuns == 0
    {
      engineSet := false;
      sessionSet := false;
      params := map[];
      this.raw := raw;
      this.products := products;
      schemaRuns := 0;
    }

    /** `configure_engine(...)`: sets the engine, the session factory and the five
        connection parameters. */
    method ConfigureEngine(host: string, port: string, user: string, password: string, dbname: string)
      modifies this
      ensures engineSet && sessionSet
      ensures params == map["host" := host, "port" := port, "user" := user, "password" := password, "dbname" := dbname]
      ensures raw == old(raw) && products == old(products) && schemaRuns == old(schemaRuns)
    {
      engineSet := true;
      sessionSet := true;
      params := map["host" := host, "port" := port, "user" := user, "password" := password, "dbname" := dbname];
    }

    /** `init_db_with_sql(schema_path)`: refuses without an engine or parameters;
        otherwise runs the script, `outcome` being what reading and executing it raised. */
    method InitDbWithSql(outcome: Option<Error>) returns (r: Outcome<()>)
      modifies this
      ensures !engineSet || params == map[] ==> r == Err(NotConfigured("db engine not configured.")) && schemaRuns == old(schemaRuns)
      ensures engineSet && params != map[] && outcome.Some? ==> r == Err(outcome.value) && schemaRuns == old(schemaRuns)
      ensures engineSet && params != map[] && outcome.None? ==> r == Ok(()) && schemaRuns == old(schemaRuns) + 1
      ensures engineSet == old(engineSet) && sessionSet == old(sessionSet) && params == old(params)
      ensures raw == old(raw) && products == old(products)
    {
      if !engineSet || params == map[] {
        return Err(NotConfigured("db engine not configured."));
      }
      if outcome.Some? {
        return Err(outcome.value);
      }
      schemaRuns := schemaRuns + 1;
      r := Ok(());
    }

    /** `save_products_raw(products)`: raises without a session; otherwise inserts the
        batch by the URL rule and commits. */
    method SaveProductsRaw(batch: seq<Product>, fails: Product -> bool) returns (r: Outcome<()>, ghost count: nat)
      modifies this
      ensures !old(sessionSet) ==> r == Err(NotConfigured("DB session not configured.")) && raw == old(raw)
      ensures old(sessionSet) ==> r == Ok(()) && raw == Inserted(old(raw), batch, fails) && |raw| == |old(raw)| + count
      ensures products == old(products) && sessionSet == old(sessionSet) && engineSet == old(engineSet)
      ensures params == old(params) && schemaRuns == old(schemaRuns)
    {
      count := 0;
      if !sessionSet {
        return Err(NotConfigured("DB session not configured.")), count;
      }
      raw, count := InsertNew(raw, batch, fails);
      r := Ok(());
    }

    /** `load_products_raw(as_dataframe)`: raises without a session; otherwise the stored
        raw rows (as a frame or as records, the same rows either way). */
    method LoadProductsRaw() returns (r: Outcome<seq<Product>>)
      ensures !sessionSet ==> r == Err(NotConfigured("Database session not configured."))
      ensures sessionSet ==> r == Ok(raw)
    {
      if !sessionSet {
        return Err(NotConfigured("Database session not configured."));
      }
      r := Ok(raw);
    }

    /** `save_products(products)`: the same rule, on the products table. */
    method SaveProducts(batch: seq<Product>, fails: Product -> bool) returns (r: Outcome<()>, ghost count: nat)
      modifies this
      ensures !old(sessionSet) ==> r == Err(NotConfigured("db session not configured.")) && products == old(products)
      ensures old(sessionSet) ==> r == Ok(()) && products == Inserted(old(products), batch, fails) &&
                                  |products| == |old(products)| + count
      ensures raw == old(raw) && sessionSet == old(sessionSet) && engineSet == old(engineSet)
      ensures params == old(params) && schemaRuns == old(schemaRuns)
    {
      count := 0;
      if !sessionSet {
        return Err(NotConfigured("db session not configured.")), count;
      }
      products, count := InsertNew(products, batch, fails);
      r := Ok(());
    }

    /** `load_products(as_dataframe)`. */
    method LoadProducts() returns (r: Outcome<seq<Product>>)
      ensures !sessionSet ==> r == Err(NotConfigured("Database session not configured."))
      ensures sessionSet ==> r == Ok(products)
    {
      if !sessionSet {
        return Err(NotConfigured("Database session not configured."));
      }
      r := Ok(products);
    }
  }

  // ------------------------------------------------------------------ JSON values

  /** A key element: a string, an integer or a boolean. */
  datatype Atom = AStr(s: string) | AInt(i: int) | ABool(b: bool)

  /** A dict key: a single value, or a tuple of them (a `groupby` result's key). */
  datatype Key = KAtom(atom: Atom) | KTuple(parts: seq<Atom>)

  /** The values analysis results are made of; a dict is its items in insertion order. */
  datatype Json =
    | JNull
    | JBool(b: bool)
    | JNum(x: real)
    | JStr(s: string)
    | JList(items: seq<Json>)
    | JDict(entries: seq<(Key, Json)>)
    | JFrame(frame: Frame)

  /** `str(a)`. */
  function AtomText(a: Atom): string
  {
    match a
    case AStr(s) => s
    case AInt(i) => IntToString(i)
    case ABool(b) => if b then "True" else "False"
  }

  /** `sep.join(parts)`. */
  function Join(parts: seq<string>, sep: string): string
  {
    if parts == [] then ""
    else if |parts| == 1 then parts[0]
    else Join(parts[..|parts| - 1], sep) + sep + parts[|parts| - 1]
  }

  /** The string key a key becomes: a tuple's elements joined with `_`, anything else
      through `str`. */
  function KeyText(k: Key): string
  {
    match k
    case KAtom(a) => AtomText(a)
    case KTuple(parts) => Join(Apply(AtomText, parts), "_")
  }

  function StrKey(s: string): Key
  {
    KAtom(AStr(s))
  }

  /** `new_dict[k] = v` for each item in turn: a repeated key keeps its first place and
      its last value. */
  function Build(items: seq<(Key, Json)>): seq<(Key, Json)>
  {
    if items == [] then []
    else Assign(Build(items[..|items| - 1]), items[|items| - 1].0, items[|items| - 1].1)
  }

  /** `convert_tuple_keys_to_str(obj)`. */
  function ConvertTupleKeys(j: Json): Json
  {
    match j
    case JDict(entries) =>
      JDict(Build(seq(|entries|, i requires 0 <= i < |entries| =>
                        (StrKey(KeyText(entries[i].0)), ConvertTupleKeys(entries[i].1)))))
    case JList(items) => JList(seq(|items|, i requires 0 <= i < |items| => ConvertTupleKeys(items[i])))
    case _ => j
  }

  /** Every dict inside is keyed by distinct strings. */
  predicate StringKeyed(j: Json)
  {
    match j
    case JDict(entries) =>
      DistinctKeys(entries) &&
      (forall i :: 0 <= i < |entries| ==> entries[i].0.KAtom? && entries[i].0.atom.AStr?) &&
      (forall i :: 0 <= i < |entries| ==> StringKeyed(entries[i].1))
    case JList(items) => forall i :: 0 <= i < |items| ==> StringKeyed(items[i])
    case _ => true
  }

  /** Assigning a new key appends it. */
  lemma {:induction false} AssignNew<K, V>(items: seq<(K, V)>, key: K, value: V)
    requires forall i :: 0 <= i < |items| ==> items[i].0 != key
    ensures Assign(items, key, value) == items + [(key, value)]
  {
    if items != [] {
      AssignNew(items[1..], key, value);
    }
  }

  /** Every item of an assignment is the new one or an old one. */
  lemma {:induction false} AssignItems<K, V>(items: seq<(K, V)>, key: K, value: V)
    ensures forall e :: e in Assign(items, key, value) ==> e == (key, value) || e in items
  {
    if items != [] && items[0].0 != key {
      AssignItems(items[1..], key, value);
    }
  }

  /** The dict built holds distinct keys, and only items that were given. */
  lemma {:induction false} BuildSpec(items: seq<(Key, Json)>)
    ensures DistinctKeys(Build(items))
    ensures forall e :: e in Build(items) ==> e in items
  {
    if items != [] {
      var n := |items| - 1;
      BuildSpec(items[..n]);
      AssignDistinct(Build(items[..n]), items[n].0, items[n].1);
      AssignItems(Build(items[..n]), items[n].0, items[n].1);
      assert forall e :: e in items[..n] ==> e in items;
    }
  }

  /** Items with distinct keys build themselves. */
  lemma {:induction false} BuildDistinct(items: seq<(Key, Json)>)
    requires DistinctKeys(items)
    ensures Build(items) == items
  {
    if items != [] {
      var n := |items| - 1;
      assert DistinctKeys(items[..n]);
      BuildDistinct(items[..n]);
      AssignNew(items[..n], items[n].0, items[n].1);
      assert items[..n] + [items[n]] == items;
    }
  }

  /** After the rewrite every key is a string, at every depth, and no key repeats. */
  lemma {:induction false} ConvertedStringKeyed(j: Json)
    ensures StringKeyed(ConvertTupleKeys(j))
  {
    match j
    case JDict(entries) =>
      var items := seq(|entries|, i requires 0 <= i < |entries| =>
                         (StrKey(KeyText(entries[i].0)), ConvertTupleKeys(entries[i].1)));
      BuildSpec(items);
      var built := Build(items);
      forall i | 0 <= i < |built|
        ensures built[i].0.KAtom? && built[i].0.atom.AStr? && StringKeyed(built[i].1)
      {
        assert built[i] in items;
        var k :| 0 <= k < |items| && items[k] == built[i];
        ConvertedStringKeyed(entries[k].1);
      }
    case JList(items) =>
      forall i | 0 <= i < |items|
        ensures StringKeyed(ConvertTupleKeys(j).items[i])
      {
        ConvertedStringKeyed(items[i]);
      }
    case _ =>
  }

  /** A value already keyed by distinct strings is left as it is. */
  lemma {:induction false} ConvertStringKeyedIdentity(j: Json)
    requires StringKeyed(j)
    ensures ConvertTupleKeys(j) == j
  {
    match j
    case JDict(entries) =>
      var items := seq(|entries|, i requires 0 <= i < |entries| =>
                         (StrKey(KeyText(entries[i].0)), ConvertTupleKeys(entries[i].1)));
      forall i | 0 <= i < |entries|
        ensures items[i] == entries[i]
      {
        ConvertStringKeyedIdentity(entries[i].1);
      }
      assert items == entries;
      BuildDistinct(entries);
    case JList(items) =>
      forall i | 0 <= i < |items|
        ensures ConvertTupleKeys(items[i]) == items[i]
      {
        ConvertStringKeyedIdentity(items[i]);
      }
      assert ConvertTupleKeys(j).items == items;
    case _ =>
  }

  /** Rewriting keys twice is rewriting them once. */
  lemma ConvertTupleKeysIdempotent(j: Json)
    ensures ConvertTupleKeys(ConvertTupleKeys(j)) == ConvertTupleKeys(j)
  {
    ConvertedStringKeyed(j);
    ConvertStringKeyedIdentity(ConvertTupleKeys(j));
  }

  /** Values that are neither dicts nor lists are returned as they are, frames included;
      lists keep their length. */
  lemma ConvertTupleKeysShape(j: Json)
    ensures !j.JDict? && !j.JList? ==> ConvertTupleKeys(j) == j
    ensures j.JList? ==> ConvertTupleKeys(j).JList? && |ConvertTupleKeys(j).items| == |j.items|
    ensures j.JDict? ==> ConvertTupleKeys(j).JDict? && |ConvertTupleKeys(j).entries| <= |j.entries|
  {
    if j.JDict? {
      BuildLength(seq(|j.entries|, i requires 0 <= i < |j.entries| =>
                        (StrKey(KeyText(j.entries[i].0)), ConvertTupleKeys(j.entries[i].1))));
    }
  }

  lemma {:induction false} BuildLength(items: seq<(Key, Json)>)
    ensures |Build(items)| <= |items|
  {
    if items != [] {
      var n := |items| - 1;
      BuildLength(items[..n]);
      AssignKeys(Build(items[..n]), items[n].0, items[n].1);
    }
  }

  /** A pair key `(a, b)` becomes the string `a_b`. */
  lemma PairKeyText(a: Atom, b: Atom)
    ensures KeyText(KTuple([a, b])) == AtomText(a) + "_" + AtomText(b)
  {
    var parts := Apply(AtomText, [a, b]);
    assert parts == [AtomText(a), AtomText(b)];
    assert parts[..1] == [AtomText(a)];
    assert Join(parts[..1], "_") == AtomText(a);
  }

  /** The dict `{('a', 1): {'b': 2}}` is rewritten with the key `"a_1"`. */
  lemma TupleKeyExample()
    ensures var d := JDict([(KTuple([AStr("a"), AInt(1)]), JDict([(StrKey("b"), JNum(2.0))]))]);
            StrKey("a_1") in Keys(ConvertTupleKeys(d).entries)
  {
    PairKeyText(AStr("a"), AInt(1));
    assert IntToString(1) == "1";
    assert AtomText(AStr("a")) + "_" + AtomText(AInt(1)) == "a_1";
    var d := JDict([(KTuple([AStr("a"), AInt(1)]), JDict([(StrKey("b"), JNum(2.0))]))]);
    var items := seq(|d.entries|, i requires 0 <= i < |d.entries| =>
                       (StrKey(KeyText(d.entries[i].0)), ConvertTupleKeys(d.entries[i].1)));
    assert items[0].0 == StrKey("a_1");
    assert Build(items) == Assign([], items[0].0, items[0].1) by {
      assert items[..0] == [];
    }
  }

  /** A cell as a JSON value. */
  function CellJson(c: Cell): Json
  {
    match c
    case Null => JNull
    case Text(s) => JStr(s)
    case Num(x) => JNum(x)
    case Flag(b) => JBool(b)
  }

  /** One row as a record: its cell under each column, in column order. */
  function Record(columns: seq<string>, r: Row): Json
  {
    JDict(seq(|columns|, k requires 0 <= k < |columns| => (StrKey(columns[k]), CellJson(Get(r, columns[k])))))
  }

  /** `to_dict(orient="records")`: one record per row. */
  function Records(f: Frame): Json
  {
    JList(seq(|f.rows|, i requires 0 <= i < |f.rows| => Record(f.columns, f.rows[i])))
  }

  /** `convert_for_json(obj)`. */
  function ConvertForJson(j: Json): Json
  {
    match j
    case JFrame(f) => Records(f)
    case JDict(entries) =>
      JDict(seq(|entries|, i requires 0 <= i < |entries| => (entries[i].0, ConvertForJson(entries[i].1))))
    case JList(items) => JList(seq(|items|, i requires 0 <= i < |items| => ConvertForJson(items[i])))
    case _ => j
  }

  /** No frame inside. */
  predicate FrameFree(j: Json)
  {
    match j
    case JFrame(_) => false
    case JDict(entries) => forall i :: 0 <= i < |entries| ==> FrameFree(entries[i].1)
    case JList(items) => forall i :: 0 <= i < |items| ==> FrameFree(items[i])
    case _ => true
  }

  /** A frame becomes a list of one record per row, keyed by the columns. */
  lemma RecordsShape(f: Frame)
    ensures var r := Records(f);
            && r.JList? && |r.items| == |f.rows|
            && (forall i :: 0 <= i < |f.rows| ==> r.items[i].JDict? && Keys(r.items[i].entries) == Apply(StrKey, f.columns))
            && FrameFree(r)
  {
    var r := Records(f);
    forall i | 0 <= i < |f.rows|
      ensures r.items[i].JDict? && Keys(r.items[i].entries) == Apply(StrKey, f.columns) && FrameFree(r.items[i])
    {
    }
  }

  /** The result holds no frame at any depth. */
  lemma {:induction false} ConvertForJsonFrameFree(j: Json)
    ensures FrameFree(ConvertForJson(j))
  {
    match j
    case JFrame(f) => RecordsShape(f);
    case JDict(entries) =>
      forall i | 0 <= i < |entries|
        ensures FrameFree(ConvertForJson(j).entries[i].1)
      {
        ConvertForJsonFrameFree(entries[i].1);
      }
    case JList(items) =>
      forall i | 0 <= i < |items|
        ensures FrameFree(ConvertForJson(j).items[i])
      {
        ConvertForJsonFrameFree(items[i]);
      }
    case _ =>
  }

  /** A value without frames is returned unchanged. */
  lemma {:induction false} ConvertForJsonIdentity(j: Json)
    requires FrameFree(j)
    ensures ConvertForJson(j) == j
  {
    match j
    case JDict(entries) =>
      forall i | 0 <= i < |entries|
        ensures ConvertForJson(entries[i].1) == entries[i].1
      {
        ConvertForJsonIdentity(entries[i].1);
      }
      assert ConvertForJson(j).entries == entries;
    case JList(items) =>
      forall i | 0 <= i < |items|
        ensures ConvertForJson(items[i]) == items[i]
      {
        ConvertForJsonIdentity(items[i]);
      }
      assert ConvertForJson(j).items == items;
    case _ =>
  }

  /** Converting twice is converting once, and dicts keep their keys in order. */
  lemma ConvertForJsonIdempotent(j: Json)
    ensures ConvertForJson(ConvertForJson(j)) == ConvertForJson(j)
    ensures j.JDict? ==> ConvertForJson(j).JDict? && Keys(ConvertForJson(j).entries) == Keys(j.entries)
  {
    ConvertForJsonFrameFree(j);
    ConvertForJsonIdentity(ConvertForJson(j));
  }
}
