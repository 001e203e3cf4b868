/**
 * Stable descending sort by a real key (Python's sorted(..., reverse=True)
 * and pandas' sort_values(ascending=False)), and the variant whose key may be
 * missing, missing keys going last in their original order.
 */
module Sorting {
  import opened Wrappers

  predicate SortedDesc<T>(s: seq<T>, key: T -> real)
  {
    forall i, j :: 0 <= i < j < |s| ==> key(s[i]) >= key(s[j])
  }

  /** Inserts x before the first element whose key is not above key(x). */
  function InsertDesc<T>(x: T, s: seq<T>, key: T -> real): (r: seq<T>)
    requires SortedDesc(s, key)
    ensures |r| == |s| + 1 && (r[0] == x || (s != [] && r[0] == s[0]))
    ensures SortedDesc(r, key)
    ensures multiset(r) == multiset(s) + multiset{x}
  {
    if s == [] || key(x) >= key(s[0]) then [x] + s
    else
      assert s == [s[0]] + s[1..];
      var rest := InsertDesc(x, s[1..], key);
      assert key(rest[0]) <= key(s[0]);
      [s[0]] + rest
  }

  /** The elements of s ordered by descending key; equal keys keep their order. */
  function SortDesc<T>(s: seq<T>, key: T -> real): (r: seq<T>)
    ensures SortedDesc(r, key)
    ensures multiset(r) == multiset(s)
    ensures |r| == |s|
  {
    if s == [] then []
    else
      assert s == [s[0]] + s[1..];
      InsertDesc(s[0], SortDesc(s[1..], key), key)
  }

  /** Sorting input that is already in descending key order returns it unchanged. */
  lemma {:induction false} SortDescOfSorted<T>(s: seq<T>, key: T -> real)
    requires SortedDesc(s, key)
    ensures SortDesc(s, key) == s
  {
    if s != [] {
      assert SortedDesc(s[1..], key);
      SortDescOfSorted(s[1..], key);
      assert s == [s[0]] + s[1..];
    }
  }

  function KeyOf<T>(key: T -> Option<real>): T -> real
  {
    x => key(x).GetOr(0.0)
  }

  function WithKey<T>(s: seq<T>, key: T -> Option<real>): (r: seq<T>)
    ensures forall x :: x in r ==> x in s && key(x).Some?
    ensures multiset(r) <= multiset(s)
  {
    if s == [] then []
    else
      assert s == [s[0]] + s[1..];
      (if key(s[0]).Some? then [s[0]] else []) + WithKey(s[1..], key)
  }

  function WithoutKey<T>(s: seq<T>, key: T -> Option<real>): (r: seq<T>)
    ensures forall x :: x in r ==> x in s && key(x).None?
  {
    if s == [] then [] else (if key(s[0]).None? then [s[0]] else []) + WithoutKey(s[1..], key)
  }

  lemma {:induction false} SplitByKey<T>(s: seq<T>, key: T -> Option<real>)
    ensures multiset(WithKey(s, key)) + multiset(WithoutKey(s, key)) == multiset(s)
  {
    if s != [] {
      SplitByKey(s[1..], key);
      assert s == [s[0]] + s[1..];
    }
  }

  lemma KnownKeys<T>(s: seq<T>, key: T -> Option<real>)
    ensures forall i :: 0 <= i < |SortDesc(WithKey(s, key), KeyOf(key))| ==>
      key(SortDesc(WithKey(s, key), KeyOf(key))[i]).Some?
  {
    var w := WithKey(s, key);
    var known := SortDesc(w, KeyOf(key));
    forall i | 0 <= i < |known| ensures key(known[i]).Some? {
      assert known[i] in multiset(known);
      assert known[i] in w;
    }
  }

  /**
   * Descending by key with missing keys last: pandas' NaN placement, and
   * Python's sort with None mapped to minus infinity.
   */
  function SortDescMissingLast<T>(s: seq<T>, key: T -> Option<real>): (r: seq<T>)
    ensures multiset(r) == multiset(s)
    ensures |r| == |s|
    ensures forall i, j :: 0 <= i < j < |r| && key(r[j]).Some? ==> key(r[i]).Some? && key(r[i]).value >= key(r[j]).value
  {
    var known := SortDesc(WithKey(s, key), KeyOf(key));
    var missing := WithoutKey(s, key);
    SplitByKey(s, key);
    KnownKeys(s, key);
    assert forall j :: 0 <= j < |missing| ==> key(missing[j]).None? by {
      forall j | 0 <= j < |missing| ensures key(missing[j]).None? { assert missing[j] in missing; }
    }
    known + missing
  }
  /** Python's a <= b on strings: lexicographic by code point. */
  predicate StrLe(a: string, b: string)
  {
    a == [] || (b != [] && (a[0] < b[0] || (a[0] == b[0] && StrLe(a[1..], b[1..]))))
  }

  /** Any two strings are ordered one way or the other. */
  lemma {:induction false} StrLeTotal(a: string, b: string)
    ensures StrLe(a, b) || StrLe(b, a)
  {
    if a != [] && b != [] && a[0] == b[0] {
      StrLeTotal(a[1..], b[1..]);
    }
  }

  /** Each element's key is <= the next one's, so the keys ascend. */
  predicate SortedAsc<T>(s: seq<T>, key: T -> string)
  {
    forall i :: 0 <= i < |s| - 1 ==> StrLe(key(s[i]), key(s[i + 1]))
  }

  /** Inserts x before the first element whose key is not below key(x). */
  function InsertAsc<T>(x: T, s: seq<T>, key: T -> string): (r: seq<T>)
    requires SortedAsc(s, key)
    ensures |r| == |s| + 1 && (r[0] == x || (s != [] && r[0] == s[0]))
    ensures SortedAsc(r, key)
    ensures multiset(r) == multiset(s) + multiset{x}
  {
    if s == [] || StrLe(key(x), key(s[0])) then [x] + s
    else
      assert s == [s[0]] + s[1..];
      StrLeTotal(key(x), key(s[0]));
      var rest := InsertAsc(x, s[1..], key);
      assert StrLe(key(s[0]), key(rest[0]));
      [s[0]] + rest
  }

  /** The elements of s ordered by ascending key (Python's sorted(s, key=...)); equal keys keep their order. */
  function SortAsc<T>(s: seq<T>, key: T -> string): (r: seq<T>)
    ensures SortedAsc(r, key)
    ensures multiset(r) == multiset(s)
    ensures |r| == |s|
  {
    if s == [] then []
    else
      assert s == [s[0]] + s[1..];
      InsertAsc(s[0], SortAsc(s[1..], key), key)
  }

  /** The elements of s whose key is k, in their order in s. */
  function WithKeyValue<T, K(==)>(s: seq<T>, key: T -> K, k: K): seq<T>
  {
    if s == [] then [] else (if key(s[0]) == k then [s[0]] else []) + WithKeyValue(s[1..], key, k)
  }

  lemma WithKeyValueCons<T, K>(a: T, t: seq<T>, key: T -> K, k: K)
    ensures WithKeyValue([a] + t, key, k) == (if key(a) == k then [a] else []) + WithKeyValue(t, key, k)
  {
    assert ([a] + t)[0] == a && ([a] + t)[1..] == t;
  }

  /** Moving x past an element a of another key does not change the order within any key. */
  lemma PassOver<T, K>(a: T, x: T, t: seq<T>, u: seq<T>, key: T -> K, k: K)
    requires key(a) != key(x)
    requires WithKeyValue(t, key, k) == (if key(x) == k then [x] else []) + WithKeyValue(u, key, k)
    ensures WithKeyValue([a] + t, key, k) == (if key(x) == k then [x] else []) + WithKeyValue([a] + u, key, k)
  {
    WithKeyValueCons(a, t, key, k);
    WithKeyValueCons(a, u, key, k);
    var fx: seq<T> := if key(x) == k then [x] else [];
    var fa: seq<T> := if key(a) == k then [a] else [];
    var w := WithKeyValue(u, key, k);
    assert fx == [] || fa == [];
    assert fa + (fx + w) == fx + (fa + w);
  }

  /** Every string is <= itself. */
  lemma {:induction false} StrLeRefl(a: string)
    ensures StrLe(a, a)
  {
    if a != [] {
      StrLeRefl(a[1..]);
    }
  }

  /** Inserting x puts it in front of every element of s with the same key, and moves nothing else of that key. */
  lemma {:induction false} InsertDescStable<T>(x: T, s: seq<T>, key: T -> real, k: real)
    requires SortedDesc(s, key)
    ensures WithKeyValue(InsertDesc(x, s, key), key, k) == (if key(x) == k then [x] else []) + WithKeyValue(s, key, k)
  {
    if s == [] || key(x) >= key(s[0]) {
      assert InsertDesc(x, s, key) == [x] + s;
      WithKeyValueCons(x, s, key, k);
    } else {
      var rest := InsertDesc(x, s[1..], key);
      assert InsertDesc(x, s, key) == [s[0]] + rest;
      InsertDescStable(x, s[1..], key, k);
      assert s == [s[0]] + s[1..];
      PassOver(s[0], x, rest, s[1..], key, k);
    }
  }

  /** SortDesc is stable: the elements of any one key keep their input order. */
  lemma {:induction false} SortDescStable<T>(s: seq<T>, key: T -> real, k: real)
    ensures WithKeyValue(SortDesc(s, key), key, k) == WithKeyValue(s, key, k)
  {
    if s != [] {
      SortDescStable(s[1..], key, k);
      InsertDescStable(s[0], SortDesc(s[1..], key), key, k);
    }
  }

  /** Inserting x puts it in front of every element of s with the same key, and moves nothing else of that key. */
  lemma {:induction false} InsertAscStable<T>(x: T, s: seq<T>, key: T -> string, k: string)
    requires SortedAsc(s, key)
    ensures WithKeyValue(InsertAsc(x, s, key), key, k) == (if key(x) == k then [x] else []) + WithKeyValue(s, key, k)
  {
    if s == [] || StrLe(key(x), key(s[0])) {
      assert InsertAsc(x, s, key) == [x] + s;
      WithKeyValueCons(x, s, key, k);
    } else {
      var rest := InsertAsc(x, s[1..], key);
      assert InsertAsc(x, s, key) == [s[0]] + rest;
      InsertAscStable(x, s[1..], key, k);
      StrLeRefl(key(x));
      assert s == [s[0]] + s[1..];
      PassOver(s[0], x, rest, s[1..], key, k);
    }
  }

  /** SortAsc is stable: the elements of any one key keep their input order. */
  lemma {:induction false} SortAscStable<T>(s: seq<T>, key: T -> string, k: string)
    ensures WithKeyValue(SortAsc(s, key), key, k) == WithKeyValue(s, key, k)
  {
    if s != [] {
      SortAscStable(s[1..], key, k);
      InsertAscStable(s[0], SortAsc(s[1..], key), key, k);
    }
  }
}
