/**
 * Python's `list.sort(key=f, reverse=True)` and `sorted(xs, key=f, reverse=True)`:
 * a stable sort into descending key order. Python guarantees that `reverse=True`
 * keeps equal-keyed elements in their original order; the model is an insertion
 * sort with that property, and the lemmas below prove it sorted, a permutation
 * of its input and stable.
 */
module Sorting {

  /** Keys never increase from left to right. */
  predicate SortedDesc<T>(s: seq<T>, key: T -> real) {
    forall i, j :: 0 <= i < j < |s| ==> key(s[i]) >= key(s[j])
  }

  /** The elements of `s` whose key is `v`, in their order in `s`. */
  function KeyFilter<T>(s: seq<T>, key: T -> real, v: real): (r: seq<T>)
    ensures |r| <= |s|
  {
    if s == [] then []
    else KeyFilter(s[..|s| - 1], key, v) + (if key(s[|s| - 1]) == v then [s[|s| - 1]] else [])
  }

  /** Place `x` behind every element of `t` whose key is at least `key(x)`. */
  function InsertDesc<T>(x: T, t: seq<T>, key: T -> real): (r: seq<T>)
    ensures |r| == |t| + 1
    ensures multiset(r) == multiset(t) + multiset{x}
    ensures SortedDesc(t, key) ==> SortedDesc(r, key)
  {
    if t == [] || key(t[|t| - 1]) >= key(x) then t + [x]
    else
      var init, last := t[..|t| - 1], t[|t| - 1];
      assert t == init + [last];
      var r' := InsertDesc(x, init, key);
      assert SortedDesc(t, key) ==> forall i :: 0 <= i < |r'| ==> key(r'[i]) >= key(last) by {
        if SortedDesc(t, key) {
          assert forall j :: 0 <= j < |init| ==> key(init[j]) >= key(last) by {
            assert forall j :: 0 <= j < |init| ==> t[j] == init[j];
          }
          KeysAtLeast(r', init, x, key, key(last));
        }
      }
      r' + [last]
  }

  /** A rearrangement of `init` and `x` keeps a lower bound on the keys they share. */
  lemma KeysAtLeast<T>(r: seq<T>, init: seq<T>, x: T, key: T -> real, b: real)
    requires multiset(r) == multiset(init) + multiset{x}
    requires key(x) >= b && forall j :: 0 <= j < |init| ==> key(init[j]) >= b
    ensures forall i :: 0 <= i < |r| ==> key(r[i]) >= b
  {
    forall i | 0 <= i < |r| ensures key(r[i]) >= b {
      assert r[i] in multiset(r);
      if r[i] != x {
        assert r[i] in multiset(init);
      }
    }
  }

  /** `sorted(s, key=key, reverse=True)` */
  function SortDescBy<T>(s: seq<T>, key: T -> real): (r: seq<T>)
    ensures |r| == |s|
    ensures multiset(r) == multiset(s)
    ensures SortedDesc(r, key)
  {
    if s == [] then []
    else
      assert s == s[..|s| - 1] + [s[|s| - 1]];
      InsertDesc(s[|s| - 1], SortDescBy(s[..|s| - 1], key), key)
  }

  /** Inserting into a sorted sequence appends `x` to the run of its own key. */
  lemma {:induction false} InsertDescKeyFilter<T>(x: T, t: seq<T>, key: T -> real, v: real)
    requires SortedDesc(t, key)
    ensures KeyFilter(InsertDesc(x, t, key), key, v)
         == KeyFilter(t, key, v) + (if key(x) == v then [x] else [])
  {
    if t == [] || key(t[|t| - 1]) >= key(x) {
      var r := t + [x];
      assert InsertDesc(x, t, key) == r;
      assert r[..|r| - 1] == t && r[|r| - 1] == x;
    } else {
      var init, last := t[..|t| - 1], t[|t| - 1];
      assert SortedDesc(init, key);
      InsertDescKeyFilter(x, init, key, v);
      var r' := InsertDesc(x, init, key);
      var r := r' + [last];
      assert InsertDesc(x, t, key) == r;
      assert r[..|r| - 1] == r' && r[|r| - 1] == last;
      assert KeyFilter(r, key, v) == KeyFilter(r', key, v) + (if key(last) == v then [last] else []);
      assert KeyFilter(t, key, v) == KeyFilter(init, key, v) + (if key(last) == v then [last] else []);
      assert key(last) < key(x);
    }
  }

  /** Stability: for every key value, its elements keep their relative order. */
  lemma {:induction false} SortDescByStable<T>(s: seq<T>, key: T -> real, v: real)
    ensures KeyFilter(SortDescBy(s, key), key, v) == KeyFilter(s, key, v)
  {
    if s != [] {
      var init := s[..|s| - 1];
      SortDescByStable(init, key, v);
      InsertDescKeyFilter(s[|s| - 1], SortDescBy(init, key), key, v);
    }
  }

  /** The first `n` elements of a descending sequence have the `n` largest keys. */
  lemma TakeHoldsLargest<T>(s: seq<T>, key: T -> real, n: nat)
    requires SortedDesc(s, key) && n <= |s|
    ensures forall i, j :: 0 <= i < n <= j < |s| ==> key(s[i]) >= key(s[j])
    ensures SortedDesc(s[..n], key)
  {
  }

  /** Keeping the `n` best of a descending sequence: Python's `s[:n]`. */
  function Take<T>(s: seq<T>, n: nat): (r: seq<T>)
    ensures |r| == if |s| < n then |s| else n
    ensures r == s[..|r|]
  {
    if |s| <= n then s else s[..n]
  }

  /** Values strictly increase from left to right. */
  predicate StrictlyIncreasing(s: seq<int>) {
    forall i, j :: 0 <= i < j < |s| ==> s[i] < s[j]
  }

  /** Place `x` behind every element of `t` that is below it. */
  function InsertAsc(x: int, t: seq<int>): (r: seq<int>)
    ensures |r| == |t| + 1
    ensures multiset(r) == multiset(t) + multiset{x}
    ensures StrictlyIncreasing(t) && x !in t ==> StrictlyIncreasing(r)
  {
    if t == [] || t[|t| - 1] < x then t + [x]
    else
      var init, last := t[..|t| - 1], t[|t| - 1];
      assert t == init + [last];
      var r' := InsertAsc(x, init);
      assert StrictlyIncreasing(t) && x !in t ==> StrictlyIncreasing(r' + [last]) by {
        if StrictlyIncreasing(t) && x !in t {
          assert forall j :: 0 <= j < |init| ==> t[j] == init[j];
          assert x < last;
          ValuesBelow(r', init, x, last);
          IncreasingSnoc(r', last);
        }
      }
      r' + [last]
  }

  /** A value above every element extends a strictly increasing sequence. */
  lemma IncreasingSnoc(s: seq<int>, b: int)
    requires StrictlyIncreasing(s) && forall i :: 0 <= i < |s| ==> s[i] < b
    ensures StrictlyIncreasing(s + [b])
  {
  }

  /** A rearrangement of `init` and `x` keeps an upper bound on the values they share. */
  lemma ValuesBelow(r: seq<int>, init: seq<int>, x: int, b: int)
    requires multiset(r) == multiset(init) + multiset{x}
    requires x < b && forall j :: 0 <= j < |init| ==> init[j] < b
    ensures forall i :: 0 <= i < |r| ==> r[i] < b
  {
    forall i | 0 <= i < |r| ensures r[i] < b {
      assert r[i] in multiset(r);
      if r[i] != x {
        assert r[i] in multiset(init);
      }
    }
  }

  /** No value occurs twice. */
  predicate Distinct(s: seq<int>) {
    forall i, j :: 0 <= i < j < |s| ==> s[i] != s[j]
  }

  /** `sorted(s)` on distinct integers: their strictly increasing arrangement. */
  function SortAsc(s: seq<int>): (r: seq<int>)
    ensures |r| == |s|
    ensures multiset(r) == multiset(s)
    ensures Distinct(s) ==> StrictlyIncreasing(r)
  {
    if s == [] then []
    else
      var init, last := s[..|s| - 1], s[|s| - 1];
      assert s == init + [last];
      var t := SortAsc(init);
      assert Distinct(s) ==> last !in t by {
        if Distinct(s) {
          assert forall j :: 0 <= j < |init| ==> init[j] == s[j] != last;
          assert last !in multiset(init);
          assert last !in multiset(t);
        }
      }
      InsertAsc(last, t)
  }
}
