/** Shared vocabulary: optional values, outcomes of calls that may raise, the product
    record every scraper produces, and small facts about strings and sequences. */
module Common {

  datatype Option<T> = None | Some(value: T)

  /** The exceptions of the modelled core, by kind. */
  datatype Error =
    | KeyError(key: string)                 // a dict or column lookup on a missing key
    | ValueError(message: string)           // an explicit `raise ValueError` or int('')
    | PoolSizeError                         // ValueError of a thread or process pool asked for fewer than one worker
    | FetchFailed(attempts: int, url: string) // RuntimeError raised by the static fetch loop
    | DriverError                           // an exception re-raised by a browser fetch
    | ConstructorError                      // the scraper constructor raised
    | ScraperError                          // any other exception raised inside `scrape`
    | NotConfigured(message: string)        // the database layer was used before configuration
    | TypeError(message: string)
    | AttributeError(message: string)       // an attribute the value does not have, such as `.str` on a non-text column

  /** Either the value a call returns or the exception it raises. */
  datatype Outcome<T> = Ok(value: T) | Err(error: Error)

  /** A product record as the scrapers build it (a dict with these keys). A missing key and
      a `None` value are both `None`. */
  datatype Product = Product(
    title: Option<string>,
    price: Option<real>,
    rating: Option<real>,
    reviewCount: Option<int>,
    url: Option<string>,
    imgUrl: Option<string>,
    category: Option<string>,
    source: Option<string>)

  // ---------------------------------------------------------------- strings

  function LowerChar(c: char): (d: char)
    ensures 'A' <= c <= 'Z' ==> d as int == c as int + 32
    ensures !('A' <= c <= 'Z') ==> d == c
  {
    if 'A' <= c <= 'Z' then (c as int + 32) as char else c
  }

  /** `str.lower()`, on ASCII letters. */
  function Lower(s: string): (r: string)
    ensures |r| == |s|
    ensures forall i :: 0 <= i < |s| ==> r[i] == LowerChar(s[i])
  {
    if s == [] then [] else [LowerChar(s[0])] + Lower(s[1..])
  }

  lemma LowerIdempotent(s: string)
    ensures Lower(Lower(s)) == Lower(s)
  {
    var once := Lower(s);
    var twice := Lower(once);
    assert forall i :: 0 <= i < |s| ==> twice[i] == once[i];
  }

  /** A string without capitals is its own lower-case form. */
  lemma LowerWithoutCapitals(s: string)
    requires forall i :: 0 <= i < |s| ==> !('A' <= s[i] <= 'Z')
    ensures Lower(s) == s
  {
  }

  /** Python's `sub in s`. */
  function Contains(s: string, sub: string): (b: bool)
    decreases |s|
  {
    if |sub| > |s| then false
    else if s[..|sub|] == sub then true
    else if s == [] then false
    else Contains(s[1..], sub)
  }

  /** `sub` occurs in `s` starting at position `i`. */
  predicate OccursAt(s: string, sub: string, i: nat)
  {
    i + |sub| <= |s| && s[i..i + |sub|] == sub
  }

  lemma {:induction false} ContainsIff(s: string, sub: string)
    ensures Contains(s, sub) <==> exists i: nat :: OccursAt(s, sub, i)
    decreases |s|
  {
    if |sub| > |s| {
    } else if s[..|sub|] == sub {
      assert OccursAt(s, sub, 0);
    } else if s == [] {
    } else {
      ContainsIff(s[1..], sub);
      if Contains(s, sub) {
        var i: nat :| OccursAt(s[1..], sub, i);
        assert s[i + 1..i + 1 + |sub|] == s[1..][i..i + |sub|];
        assert OccursAt(s, sub, i + 1);
      }
      if exists i: nat :: OccursAt(s, sub, i) {
        var i: nat :| OccursAt(s, sub, i);
        assert i != 0;
        assert s[1..][i - 1..i - 1 + |sub|] == s[i..i + |sub|];
        assert OccursAt(s[1..], sub, i - 1);
      }
    }
  }

  lemma ContainsEmpty(s: string)
    ensures Contains(s, "")
  {
  }

  predicate IsDigit(c: char) { '0' <= c <= '9' }

  predicate IsSpace(c: char) { c == ' ' || c == '\t' || c == '\n' || c == '\r' || c as int == 11 || c as int == 12 }

  function StripLeft(s: string): (r: string)
    ensures |r| <= |s| && r == s[|s| - |r|..]
    ensures r != [] ==> !IsSpace(r[0])
    ensures forall i :: 0 <= i < |s| - |r| ==> IsSpace(s[i])
  {
    if s != [] && IsSpace(s[0]) then StripLeft(s[1..]) else s
  }

  function StripRight(s: string): (r: string)
    ensures |r| <= |s| && r == s[..|r|]
    ensures r != [] ==> !IsSpace(r[|r| - 1])
    ensures forall i :: |r| <= i < |s| ==> IsSpace(s[i])
  {
    if s != [] && IsSpace(s[|s| - 1]) then StripRight(s[..|s| - 1]) else s
  }

  /** `str.strip()`: surrounding whitespace removed. */
  function Strip(s: string): string { StripRight(StripLeft(s)) }

  lemma StripTrimmed(s: string)
    ensures var r := Strip(s); r != [] ==> !IsSpace(r[0]) && !IsSpace(r[|r| - 1])
    ensures exists i, j :: 0 <= i <= j <= |s| && Strip(s) == s[i..j]
  {
    var l := StripLeft(s);
    var r := StripRight(l);
    assert r == s[|s| - |l|..|s| - |l| + |r|];
  }

  /** The longest prefix of `s` whose characters all satisfy `ok` (a greedy `[...]*`). */
  function LeadingRun(s: string, ok: char -> bool): (r: string)
    ensures |r| <= |s| && r == s[..|r|]
    ensures forall i :: 0 <= i < |r| ==> ok(r[i])
    ensures |r| < |s| ==> !ok(s[|r|])
  {
    if s == [] || !ok(s[0]) then []
    else
      var rest := LeadingRun(s[1..], ok);
      assert s[1..][..|rest|] == s[1..|rest| + 1];
      [s[0]] + rest
  }

  /** A run that stops at position `j` is the prefix before `j`. */
  lemma {:induction false} LeadingRunUpTo(s: string, ok: char -> bool, j: nat)
    requires j <= |s| && (forall k :: 0 <= k < j ==> ok(s[k])) && (j < |s| ==> !ok(s[j]))
    ensures LeadingRun(s, ok) == s[..j]
  {
  }

  /** Python truthiness of an optional string: present and non-empty. */
  predicate Truthy(s: Option<string>)
  {
    s.Some? && s.value != ""
  }

  /** `arg or fallback` for an optional integer argument: `None` and `0` are falsy. */
  function OrDefault(arg: Option<int>, fallback: int): int
  {
    if arg.None? || arg.value == 0 then fallback else arg.value
  }

  /** `s.replace(c, '')` for one character. */
  function Remove(s: string, c: char): (r: string)
    ensures c !in r
    ensures |r| <= |s|
    ensures forall x :: x in r <==> x in s && x != c
  {
    if s == [] then [] else (if s[0] == c then [] else [s[0]]) + Remove(s[1..], c)
  }

  /** Removing a character that does not occur changes nothing, so removing twice is
      removing once. */
  lemma {:induction false} RemoveAbsent(s: string, c: char)
    requires c !in s
    ensures Remove(s, c) == s
  {
    if s != [] {
      assert s[0] in s && s[1..] + [] == s[1..];
      assert forall x :: x in s[1..] ==> x in s;
      RemoveAbsent(s[1..], c);
      assert [s[0]] + s[1..] == s;
    }
  }

  lemma {:induction false} RemoveConcat(a: string, b: string, c: char)
    ensures Remove(a + b, c) == Remove(a, c) + Remove(b, c)
  {
    if a != [] {
      assert (a + b)[1..] == a[1..] + b;
      RemoveConcat(a[1..], b, c);
    } else {
      assert a + b == b;
    }
  }

  /** The characters of `s` that satisfy `keep`, in order (`re.sub` of the complement by ''). */
  function Select(s: string, keep: char -> bool): (r: string)
    ensures |r| <= |s|
    ensures forall x :: x in r <==> x in s && keep(x)
  {
    if s == [] then [] else (if keep(s[0]) then [s[0]] else []) + Select(s[1..], keep)
  }

  predicate IsPriceChar(c: char) { IsDigit(c) || c == '.' || c == ',' }

  /** The price text both browser scrapers hand to `float()`: every character other than
      a digit, `.` or `,` dropped, then the commas removed. */
  function CleanPriceText(s: string): (r: string)
    ensures forall x :: x in r <==> x in s && (IsDigit(x) || x == '.')
  {
    Remove(Select(s, IsPriceChar), ',')
  }

  predicate AllDigits(s: string)
  {
    forall i :: 0 <= i < |s| ==> IsDigit(s[i])
  }

  /** `int(s)` on a string without surrounding whitespace: an optional sign and at least
      one decimal digit; anything else raises, which is `None`. */
  function ParseInt(s: string): (r: Option<int>)
  {
    if |s| >= 2 && (s[0] == '-' || s[0] == '+') && AllDigits(s[1..]) then
      var n: int := DigitsValue(s[1..]);
      Some(if s[0] == '-' then -n else n)
    else if s != [] && AllDigits(s) then Some(DigitsValue(s))
    else None
  }

  /** The value of a non-empty run of decimal digits. */
  function DigitsValue(s: string): (n: nat)
    requires forall i :: 0 <= i < |s| ==> IsDigit(s[i])
  {
    if s == [] then 0
    else
      assert IsDigit(s[|s| - 1]);
      DigitsValue(s[..|s| - 1]) * 10 + (s[|s| - 1] as int - '0' as int)
  }

  /** `str(n)` for an integer. */
  function NatToString(n: nat): (s: string)
    ensures s != [] && forall i :: 0 <= i < |s| ==> IsDigit(s[i])
    ensures DigitsValue(s) == n
  {
    var d := [('0' as int + n % 10) as char];
    if n < 10 then d
    else
      var r := NatToString(n / 10) + d;
      assert r[..|r| - 1] == NatToString(n / 10);
      r
  }

  function IntToString(i: int): string
  {
    if i < 0 then "-" + NatToString(-i) else NatToString(i)
  }

  /** `int(str(i)) == i`. */
  lemma ParseIntRoundTrip(i: int)
    ensures ParseInt(IntToString(i)) == Some(i)
  {
    if i < 0 {
      var s := IntToString(i);
      assert s[1..] == NatToString(-i);
    }
  }

  /** `int` rejects the empty string and any character after the first that is not a
      digit, and accepts only a sign or a digit first. */
  lemma ParseIntRejects(s: string)
    ensures s == [] ==> ParseInt(s).None?
    ensures (exists k :: 1 <= k < |s| && !IsDigit(s[k])) ==> ParseInt(s).None?
    ensures s != [] && !IsDigit(s[0]) && s[0] != '-' && s[0] != '+' ==> ParseInt(s).None?
  {
    if exists k :: 1 <= k < |s| && !IsDigit(s[k]) {
      var k :| 1 <= k < |s| && !IsDigit(s[k]);
      assert s[1..][k - 1] == s[k];
    }
  }

  /** `str(i)` holds neither whitespace nor commas. */
  lemma IntToStringPlain(i: int)
    ensures forall x :: x in IntToString(i) ==> IsDigit(x) || x == '-'
  {
    var d := NatToString(if i < 0 then -i else i);
    assert forall x :: x in d ==> IsDigit(x);
  }

  // ---------------------------------------------------------------- sequences

  function Flatten<T>(ss: seq<seq<T>>): (r: seq<T>)
  {
    if ss == [] then [] else ss[0] + Flatten(ss[1..])
  }

  function SumLengths<T>(ss: seq<seq<T>>): nat
  {
    if ss == [] then 0 else |ss[0]| + SumLengths(ss[1..])
  }

  lemma {:induction false} FlattenLength<T>(ss: seq<seq<T>>)
    ensures |Flatten(ss)| == SumLengths(ss)
  {
    if ss != [] { FlattenLength(ss[1..]); }
  }

  lemma {:induction false} FlattenAppend<T>(a: seq<seq<T>>, b: seq<seq<T>>)
    ensures Flatten(a + b) == Flatten(a) + Flatten(b)
  {
    if a == [] {
      assert a + b == b;
    } else {
      assert (a + b)[1..] == a[1..] + b;
      FlattenAppend(a[1..], b);
    }
  }

  lemma {:induction false} FlattenMembership<T>(ss: seq<seq<T>>, x: T)
    ensures x in Flatten(ss) <==> exists k :: 0 <= k < |ss| && x in ss[k]
  {
    if ss != [] {
      FlattenMembership(ss[1..], x);
      if x in Flatten(ss[1..]) {
        var k :| 0 <= k < |ss[1..]| && x in ss[1..][k];
        assert x in ss[k + 1];
      }
      if exists k :: 0 <= k < |ss| && x in ss[k] {
        var k :| 0 <= k < |ss| && x in ss[k];
        if k > 0 { assert x in ss[1..][k - 1]; }
      }
    }
  }

  /** Sequences with the same multiset of parts flatten to the same multiset of items:
      the order in which parts are concatenated does not change what is collected. */
  lemma {:induction false} FlattenPermutation<T>(a: seq<seq<T>>, b: seq<seq<T>>)
    requires multiset(a) == multiset(b)
    ensures multiset(Flatten(a)) == multiset(Flatten(b))
    decreases |a|
  {
    if a == [] {
      assert |b| == |multiset(b)| == 0;
    } else {
      var j, rest := TakeOut(a, b);
      FlattenPermutation(a[1..], rest);
      FlattenSplit(b, j);
    }
  }

  /** The first element of `a` taken out of its rearrangement `b`, at index `j`. */
  lemma {:induction false} TakeOut<T>(a: seq<T>, b: seq<T>) returns (j: nat, rest: seq<T>)
    requires multiset(a) == multiset(b) && a != []
    ensures j < |b| && b[j] == a[0] && rest == b[..j] + b[j + 1..]
    ensures multiset(a[1..]) == multiset(rest)
  {
    assert a[0] in multiset(b);
    j :| 0 <= j < |b| && b[j] == a[0];
    rest := b[..j] + b[j + 1..];
    assert b == b[..j] + ([b[j]] + b[j + 1..]);
    assert multiset(b) == multiset(b[..j]) + (multiset{b[j]} + multiset(b[j + 1..]));
    assert multiset(rest) == multiset(b[..j]) + multiset(b[j + 1..]);
    assert a == [a[0]] + a[1..];
    assert multiset(a) == multiset{a[0]} + multiset(a[1..]);
    assert multiset(a[1..]) == multiset(a) - multiset{a[0]};
    assert multiset(rest) == multiset(b) - multiset{a[0]};
  }

  lemma {:induction false} FlattenSplit<T>(b: seq<seq<T>>, j: nat)
    requires j < |b|
    ensures Flatten(b) == Flatten(b[..j]) + b[j] + Flatten(b[j + 1..])
    ensures Flatten(b[..j] + b[j + 1..]) == Flatten(b[..j]) + Flatten(b[j + 1..])
  {
    var p, q := b[..j], b[j + 1..];
    var tail := [b[j]] + q;
    assert b == p + tail;
    assert tail[0] == b[j] && tail[1..] == q;
    FlattenAppend(p, tail);
    FlattenAppend(p, q);
  }

  // ------------------------------------------------ rearrangements (completion order)

  function Range(n: nat): (r: seq<nat>)
    ensures |r| == n && forall i :: 0 <= i < n ==> r[i] == i
  {
    if n == 0 then [] else Range(n - 1) + [n - 1]
  }

  /** `order` lists every index below `n` exactly once: the order in which `n` submitted
      futures complete. */
  ghost predicate IsPermutation(order: seq<nat>, n: nat)
  {
    multiset(order) == multiset(Range(n))
  }

  lemma PermutationBounds(order: seq<nat>, n: nat)
    requires IsPermutation(order, n)
    ensures |order| == n
    ensures forall k :: 0 <= k < |order| ==> order[k] < n
  {
    assert |order| == |multiset(order)| == |multiset(Range(n))| == n;
    forall k | 0 <= k < |order| ensures order[k] < n {
      assert order[k] in multiset(Range(n));
    }
  }

  lemma PermutationCovers(order: seq<nat>, n: nat, i: nat)
    requires IsPermutation(order, n) && i < n
    ensures exists k :: 0 <= k < |order| && order[k] == i
  {
    assert Range(n)[i] == i;
    assert i in multiset(Range(n));
    assert i in multiset(order);
  }

  /** `f` applied to every element, in order. */
  function Apply<A, B>(f: A -> B, s: seq<A>): (r: seq<B>)
    ensures |r| == |s| && forall i :: 0 <= i < |s| ==> r[i] == f(s[i])
  {
    if s == [] then [] else [f(s[0])] + Apply(f, s[1..])
  }

  lemma {:induction false} ApplyAppend<A, B>(f: A -> B, a: seq<A>, b: seq<A>)
    ensures Apply(f, a + b) == Apply(f, a) + Apply(f, b)
  {
    if a == [] {
      assert a + b == b;
    } else {
      assert (a + b)[1..] == a[1..] + b;
      ApplyAppend(f, a[1..], b);
    }
  }

  /** Applying a function commutes with rearranging its arguments, as multisets. */
  lemma {:induction false} ApplyPermutation<A, B>(f: A -> B, a: seq<A>, b: seq<A>)
    requires multiset(a) == multiset(b)
    ensures multiset(Apply(f, a)) == multiset(Apply(f, b))
    decreases |a|
  {
    if a == [] {
      assert |b| == |multiset(b)| == 0;
    } else {
      var j, rest := TakeOut(a, b);
      ApplyPermutation(f, a[1..], rest);
      ApplySplit(f, b, j);
    }
  }

  lemma {:induction false} ApplySplit<A, B>(f: A -> B, b: seq<A>, j: nat)
    requires j < |b|
    ensures Apply(f, b) == Apply(f, b[..j]) + [f(b[j])] + Apply(f, b[j + 1..])
    ensures Apply(f, b[..j] + b[j + 1..]) == Apply(f, b[..j]) + Apply(f, b[j + 1..])
  {
    var p, q := b[..j], b[j + 1..];
    var tail := [b[j]] + q;
    assert b == p + tail;
    assert tail[0] == b[j] && tail[1..] == q;
    ApplyAppend(f, p, tail);
    ApplyAppend(f, p, q);
  }

  /** The element at an index, or `d` past the end. */
  function Slot<T>(xs: seq<T>, d: T): nat -> T
  {
    (i: nat) => if i < |xs| then xs[i] else d
  }

  /** `xs` visited in the order `order` gives. */
  function Arrange<T>(xs: seq<T>, order: seq<nat>, d: T): (r: seq<T>)
    ensures |r| == |order|
    ensures forall k :: 0 <= k < |order| && order[k] < |xs| ==> r[k] == xs[order[k]]
  {
    Apply(Slot(xs, d), order)
  }

  /** Whatever the completion order, the same elements are collected. */
  lemma ArrangePermutation<T>(xs: seq<T>, order: seq<nat>, d: T)
    requires IsPermutation(order, |xs|)
    ensures multiset(Arrange(xs, order, d)) == multiset(xs)
  {
    ApplyPermutation(Slot(xs, d), order, Range(|xs|));
    assert Apply(Slot(xs, d), Range(|xs|)) == xs;
  }

  /** Distinct first components: the shape of a Python dict's items(). */
  predicate DistinctKeys<K(==), V>(items: seq<(K, V)>)
  {
    forall i, j :: 0 <= i < j < |items| ==> items[i].0 != items[j].0
  }

  function Keys<K, V>(items: seq<(K, V)>): (r: seq<K>)
    ensures |r| == |items| && forall i :: 0 <= i < |items| ==> r[i] == items[i].0
  {
    if items == [] then [] else [items[0].0] + Keys(items[1..])
  }

  function Values<K, V>(items: seq<(K, V)>): (r: seq<V>)
    ensures |r| == |items| && forall i :: 0 <= i < |items| ==> r[i] == items[i].1
  {
    if items == [] then [] else [items[0].1] + Values(items[1..])
  }

  /** `dict.get(key)` on an ordered list of items. */
  function Lookup<K(==), V>(items: seq<(K, V)>, key: K): (r: Option<V>)
    ensures r.None? <==> forall i :: 0 <= i < |items| ==> items[i].0 != key
    ensures r.Some? ==> exists i :: 0 <= i < |items| && items[i] == (key, r.value)
  {
    if items == [] then None
    else if items[0].0 == key then Some(items[0].1)
    else
      var r := Lookup(items[1..], key);
      assert r.Some? ==> exists i :: 0 <= i < |items[1..]| && items[1..][i] == (key, r.value);
      assert r.Some? ==> exists i :: 0 <= i < |items| && items[i] == (key, r.value) by {
        if r.Some? {
          var i :| 0 <= i < |items[1..]| && items[1..][i] == (key, r.value);
          assert items[i + 1] == (key, r.value);
        }
      }
      r
  }

  /** `dict.get(key, default)`. */
  function GetOr<K(==), V>(items: seq<(K, V)>, key: K, default: V): V
  {
    match Lookup(items, key)
    case None => default
    case Some(v) => v
  }

  lemma LookupDistinct<K, V>(items: seq<(K, V)>, i: nat)
    requires DistinctKeys(items) && i < |items|
    ensures Lookup(items, items[i].0) == Some(items[i].1)
  {
    var r := Lookup(items, items[i].0);
    var j :| 0 <= j < |items| && items[j] == (items[i].0, r.value);
    assert j == i;
  }

  /** Rearranged items have the same keys. */
  lemma KeysOfPermutation<K, V>(a: seq<(K, V)>, b: seq<(K, V)>)
    requires multiset(a) == multiset(b)
    ensures forall k :: k in Keys(a) <==> k in Keys(b)
  {
    forall k ensures k in Keys(a) ==> k in Keys(b) {
      if k in Keys(a) {
        var i :| 0 <= i < |a| && Keys(a)[i] == k;
        assert a[i] in multiset(b);
        var j :| 0 <= j < |b| && b[j] == a[i];
        assert Keys(b)[j] == k;
      }
    }
    forall k ensures k in Keys(b) ==> k in Keys(a) {
      if k in Keys(b) {
        var i :| 0 <= i < |b| && Keys(b)[i] == k;
        assert b[i] in multiset(a);
        var j :| 0 <= j < |a| && a[j] == b[i];
        assert Keys(a)[j] == k;
      }
    }
  }

  /** `d[key] = value` on an ordered list of items. */
  function Assign<K(==), V>(items: seq<(K, V)>, key: K, value: V): seq<(K, V)>
  {
    if items == [] then [(key, value)]
    else if items[0].0 == key then [(key, value)] + items[1..]
    else [items[0]] + Assign(items[1..], key, value)
  }

  lemma {:induction false} KeysSnoc<K, V>(items: seq<(K, V)>)
    requires items != []
    ensures Keys(items) == Keys(items[..|items| - 1]) + [items[|items| - 1].0]
  {
    var n := |items| - 1;
    var a, b := Keys(items), Keys(items[..n]) + [items[n].0];
    forall i | 0 <= i < |a| ensures a[i] == b[i] {
      if i < n {
        assert items[..n][i] == items[i];
      }
    }
  }

  /** An existing key keeps its place; a new key goes to the end. */
  lemma {:induction false} AssignKeys<K, V>(items: seq<(K, V)>, key: K, value: V)
    ensures Keys(Assign(items, key, value)) == if key in Keys(items) then Keys(items) else Keys(items) + [key]
  {
    if items != [] && items[0].0 != key {
      AssignKeys(items[1..], key, value);
      assert Keys(items) == [items[0].0] + Keys(items[1..]);
      assert Keys([items[0]] + Assign(items[1..], key, value)) == [items[0].0] + Keys(Assign(items[1..], key, value));
    }
  }

  /** The key takes the new value; every other key keeps its value. */
  lemma {:induction false} AssignLookup<K, V>(items: seq<(K, V)>, key: K, value: V, k: K)
    ensures Lookup(Assign(items, key, value), k) == if k == key then Some(value) else Lookup(items, k)
  {
    if items != [] && items[0].0 != key {
      AssignLookup(items[1..], key, value, k);
      assert ([items[0]] + Assign(items[1..], key, value))[1..] == Assign(items[1..], key, value);
    }
  }

  /** Assignment keeps the keys distinct. */
  lemma AssignDistinct<K, V>(items: seq<(K, V)>, key: K, value: V)
    requires DistinctKeys(items)
    ensures DistinctKeys(Assign(items, key, value))
  {
    var r := Assign(items, key, value);
    AssignKeys(items, key, value);
    forall i, j | 0 <= i < j < |r| ensures r[i].0 != r[j].0 {
      assert r[i].0 == Keys(r)[i] && r[j].0 == Keys(r)[j];
      if j < |items| {
        assert Keys(items)[i] == items[i].0 && Keys(items)[j] == items[j].0;
      } else {
        assert Keys(items)[i] == items[i].0;
      }
    }
  }
}
