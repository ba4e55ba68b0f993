/**
 * Price tables keyed by age band (`"00-18"`, `"59+"`), in the insertion order of
 * the JavaScript object that holds them, and their ordering by the integer that
 * `parseInt` reads from the start of each band.
 */
module Bands {

  /** One `[band, value]` entry of a price table; values are opaque. */
  type Entry<V> = (string, V)

  predicate IsDigit(c: char) {
    '0' <= c <= '9'
  }

  /** The maximal run of decimal digits at the start of `s`. */
  function LeadingDigits(s: string): (r: string)
    ensures |r| <= |s| && r == s[..|r|]
    ensures forall k :: 0 <= k < |r| ==> IsDigit(r[k])
    ensures |r| < |s| ==> !IsDigit(s[|r|])
  {
    if s != [] && IsDigit(s[0]) then [s[0]] + LeadingDigits(s[1..]) else []
  }

  /** The number a string of decimal digits spells (most significant first). */
  function DecimalValue(ds: string): nat {
    if ds == [] then 0
    else 10 * DecimalValue(ds[..|ds| - 1]) + (if IsDigit(ds[|ds| - 1]) then ds[|ds| - 1] as int - '0' as int else 0)
  }

  /**
   * `parseInt(band, 10)` of a band that starts with a digit: the value of the
   * leading digit run, so `"59+"` reads 59 and `"00-18"` reads 0.
   */
  function ParseInt(band: string): nat {
    DecimalValue(LeadingDigits(band))
  }

  lemma ParseIntExamples()
    ensures ParseInt("00-18") == 0
    ensures ParseInt("19-23") == 19
    ensures ParseInt("59+") == 59
  {
    assert LeadingDigits("00-18") == "00";
    assert DecimalValue("0") == 0;
    assert LeadingDigits("19-23") == "19";
    assert DecimalValue("1") == 1;
    assert LeadingDigits("59+") == "59";
    assert DecimalValue("5") == 5;
  }

  /** The sort key of an entry: what `parseInt` reads from its band. */
  function BandKey<V>(e: Entry<V>): nat {
    ParseInt(e.0)
  }

  /** Ascending by `key`. */
  ghost predicate SortedBy<V>(key: Entry<V> -> nat, xs: seq<Entry<V>>) {
    forall i, j :: 0 <= i < j < |xs| ==> key(xs[i]) <= key(xs[j])
  }

  /** The entries whose key is `n`, in their order in `xs`. */
  function WithKey<V>(key: Entry<V> -> nat, xs: seq<Entry<V>>, n: nat): seq<Entry<V>> {
    if xs == [] then []
    else (if key(xs[0]) == n then [xs[0]] else []) + WithKey(key, xs[1..], n)
  }

  /** The bands of a table, as a set. */
  function BandSet<V(==)>(xs: seq<Entry<V>>): set<string> {
    set e | e in xs :: e.0
  }

  /** No band occurs twice, as in the keys of a JavaScript object. */
  ghost predicate DistinctBands<V>(xs: seq<Entry<V>>) {
    forall i, j :: 0 <= i < j < |xs| ==> xs[i].0 != xs[j].0
  }

  /** Puts `x` before the first entry whose key is at least its own. */
  function Insert<V>(key: Entry<V> -> nat, x: Entry<V>, ys: seq<Entry<V>>): seq<Entry<V>> {
    if ys == [] || key(x) <= key(ys[0]) then [x] + ys
    else [ys[0]] + Insert(key, x, ys[1..])
  }

  lemma {:induction false} InsertPermutes<V>(key: Entry<V> -> nat, x: Entry<V>, ys: seq<Entry<V>>)
    ensures multiset(Insert(key, x, ys)) == multiset([x] + ys)
  {
    if ys != [] && key(x) > key(ys[0]) {
      InsertPermutes(key, x, ys[1..]);
      assert ys == [ys[0]] + ys[1..];
    }
  }

  lemma {:induction false} InsertSorted<V>(key: Entry<V> -> nat, x: Entry<V>, ys: seq<Entry<V>>)
    requires SortedBy(key, ys)
    ensures SortedBy(key, Insert(key, x, ys))
  {
    if ys != [] && key(x) > key(ys[0]) {
      var tail := ys[1..];
      InsertSorted(key, x, tail);
      InsertPermutes(key, x, tail);
      var rest := Insert(key, x, tail);
      var r := [ys[0]] + rest;
      forall j | 0 < j < |r| ensures key(ys[0]) <= key(r[j]) {
        assert r[j] in multiset(rest);
        assert r[j] == x || r[j] in tail;
      }
    }
  }

  /** Insertion sort by `key`: stable, as `Array.prototype.sort` is. */
  function SortBy<V>(key: Entry<V> -> nat, xs: seq<Entry<V>>): seq<Entry<V>> {
    if xs == [] then [] else Insert(key, xs[0], SortBy(key, xs[1..]))
  }

  lemma {:induction false} SortByPermutesAndSorts<V>(key: Entry<V> -> nat, xs: seq<Entry<V>>)
    ensures multiset(SortBy(key, xs)) == multiset(xs)
    ensures SortedBy(key, SortBy(key, xs))
  {
    if xs != [] {
      SortByPermutesAndSorts(key, xs[1..]);
      InsertPermutes(key, xs[0], SortBy(key, xs[1..]));
      InsertSorted(key, xs[0], SortBy(key, xs[1..]));
      assert xs == [xs[0]] + xs[1..];
    }
  }

  /**
   * `entries.sort((a, b) => parseInt(a[0]) - parseInt(b[0]))`: a permutation of
   * the table, ascending by the integer each band starts with.
   */
  function SortByBand<V(==)>(xs: seq<Entry<V>>): (r: seq<Entry<V>>)
    ensures multiset(r) == multiset(xs)
    ensures forall i, j :: 0 <= i < j < |r| ==> ParseInt(r[i].0) <= ParseInt(r[j].0)
  {
    var r := SortBy(BandKey, xs);
    SortByPermutesAndSorts(BandKey, xs);
    assert SortedBy(BandKey, r);
    r
  }

  /** `WithKey` of a sequence with a known first entry. */
  lemma WithKeyCons<V>(key: Entry<V> -> nat, y: Entry<V>, zs: seq<Entry<V>>, n: nat)
    ensures WithKey(key, [y] + zs, n) == (if key(y) == n then [y] else []) + WithKey(key, zs, n)
  {
    assert ([y] + zs)[1..] == zs;
  }

  /** Inserting `x` puts it in front of the entries with the same key. */
  lemma {:induction false} InsertWithKey<V>(key: Entry<V> -> nat, x: Entry<V>, ys: seq<Entry<V>>, n: nat)
    ensures WithKey(key, Insert(key, x, ys), n) == (if key(x) == n then [x] else []) + WithKey(key, ys, n)
  {
    if ys == [] || key(x) <= key(ys[0]) {
      WithKeyCons(key, x, ys, n);
    } else {
      var y, tail := ys[0], ys[1..];
      var rest := Insert(key, x, tail);
      InsertWithKey(key, x, tail, n);
      WithKeyCons(key, y, rest, n);
      WithKeyCons(key, y, tail, n);
      assert ys == [y] + tail;
      var hx := if key(x) == n then [x] else [];
      var hy := if key(y) == n then [y] else [];
      if key(x) == n {
        assert key(y) != n;
        assert hy == [];
      }
      assert hy + (hx + WithKey(key, tail, n)) == hx + (hy + WithKey(key, tail, n));
    }
  }

  /** Stability: entries whose keys are equal keep their original relative order. */
  lemma {:induction false} SortByStable<V>(key: Entry<V> -> nat, xs: seq<Entry<V>>, n: nat)
    ensures WithKey(key, SortBy(key, xs), n) == WithKey(key, xs, n)
  {
    if xs != [] {
      SortByStable(key, xs[1..], n);
      InsertWithKey(key, xs[0], SortBy(key, xs[1..]), n);
    }
  }

  /** Bands that read the same integer keep their order in the table. */
  lemma SortByBandStable<V>(xs: seq<Entry<V>>, n: nat)
    ensures WithKey(BandKey, SortByBand(xs), n) == WithKey(BandKey, xs, n)
  {
    SortByStable(BandKey, xs, n);
  }

  /** Sorting keeps the bands of a table distinct, so rebuilding an object from the entries loses none. */
  lemma SortKeepsDistinct<V>(xs: seq<Entry<V>>)
    requires DistinctBands(xs)
    ensures DistinctBands(SortByBand(xs))
    ensures BandSet(SortByBand(xs)) == BandSet(xs)
  {
    SortByKeepsDistinct(BandKey, xs);
  }

  lemma {:induction false} SortByKeepsDistinct<V>(key: Entry<V> -> nat, xs: seq<Entry<V>>)
    requires DistinctBands(xs)
    ensures DistinctBands(SortBy(key, xs))
    ensures BandSet(SortBy(key, xs)) == BandSet(xs)
  {
    if xs != [] {
      var tail := xs[1..];
      SortByKeepsDistinct(key, tail);
      var sorted := SortBy(key, tail);
      assert xs[0].0 !in BandSet(tail);
      InsertKeepsDistinct(key, xs[0], sorted);
      assert BandSet(xs) == {xs[0].0} + BandSet(tail) by {
        assert xs == [xs[0]] + tail;
      }
    }
  }

  lemma {:induction false} InsertKeepsDistinct<V>(key: Entry<V> -> nat, x: Entry<V>, ys: seq<Entry<V>>)
    requires DistinctBands(ys) && x.0 !in BandSet(ys)
    ensures DistinctBands(Insert(key, x, ys))
    ensures BandSet(Insert(key, x, ys)) == {x.0} + BandSet(ys)
  {
    if ys == [] || key(x) <= key(ys[0]) {
      var r := [x] + ys;
      assert Insert(key, x, ys) == r;
      forall i, j | 0 <= i < j < |r| ensures r[i].0 != r[j].0 {
        if i == 0 { assert r[j] in ys; }
      }
    } else {
      var tail := ys[1..];
      assert BandSet(ys) == {ys[0].0} + BandSet(tail) by {
        assert ys == [ys[0]] + tail;
      }
      assert ys[0].0 !in BandSet(tail);
      InsertKeepsDistinct(key, x, tail);
      var rest := Insert(key, x, tail);
      var r := [ys[0]] + rest;
      assert Insert(key, x, ys) == r;
      forall i, j | 0 <= i < j < |r| ensures r[i].0 != r[j].0 {
        if i == 0 {
          assert r[j] in rest;
          assert r[j].0 in BandSet(rest);
        } else {
          assert r[i] == rest[i - 1] && r[j] == rest[j - 1];
        }
      }
    }
  }
}
