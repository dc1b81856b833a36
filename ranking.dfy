/** Python's `sorted(items, key=key, reverse=True)`: a stable sort into
    non-increasing key order, written as an insertion sort. */
module Ranking {

  /** Keys never increase along `s`. */
  predicate NonIncreasing<T>(s: seq<T>, key: T -> real) {
    forall i, j :: 0 <= i < j < |s| ==> key(s[i]) >= key(s[j])
  }

  /** The elements of `s` whose key is `v`, in their order in `s`. */
  function WithKey<T>(s: seq<T>, key: T -> real, v: real): seq<T> {
    if |s| == 0 then []
    else (if key(s[0]) == v then [s[0]] else []) + WithKey(s[1..], key, v)
  }

  /** Puts `x` after the elements with a strictly greater key and before
      the rest, so that `x` precedes the elements its key ties with. */
  function Insert<T>(x: T, s: seq<T>, key: T -> real): seq<T> {
    if |s| == 0 then [x]
    else if key(s[0]) > key(x) then [s[0]] + Insert(x, s[1..], key)
    else [x] + s
  }

  /** The stable descending sort: each element is inserted, from the last
      to the first, in front of the ones it ties with. */
  function SortDesc<T>(s: seq<T>, key: T -> real): seq<T> {
    if |s| == 0 then [] else Insert(s[0], SortDesc(s[1..], key), key)
  }

  /** `s` is a non-increasing arrangement of `t`: what any descending sort,
      stable or not, returns. */
  predicate IsRanking<T(==)>(t: seq<T>, s: seq<T>, key: T -> real) {
    multiset(s) == multiset(t) && NonIncreasing(s, key)
  }

  lemma {:induction false} InsertPermutes<T>(x: T, s: seq<T>, key: T -> real)
    ensures multiset(Insert(x, s, key)) == multiset(s) + multiset{x}
  {
    if |s| > 0 && key(s[0]) > key(x) {
      InsertPermutes(x, s[1..], key);
      assert s == [s[0]] + s[1..];
    }
  }

  lemma {:induction false} InsertSorted<T>(x: T, s: seq<T>, key: T -> real)
    requires NonIncreasing(s, key)
    ensures NonIncreasing(Insert(x, s, key), key)
  {
    if |s| > 0 && key(s[0]) > key(x) {
      var rest := Insert(x, s[1..], key);
      InsertSorted(x, s[1..], key);
      forall y | y in s[1..] ensures key(y) <= key(s[0]) {
        var m :| 0 <= m < |s[1..]| && s[1..][m] == y;
        assert s[m + 1] == y;
      }
      InsertBelow(x, s[1..], key, key(s[0]));
      var r := [s[0]] + rest;
      assert Insert(x, s, key) == r;
      forall i, j | 0 <= i < j < |r| ensures key(r[i]) >= key(r[j]) {
        assert r[j] == rest[j - 1];
        if i > 0 {
          assert r[i] == rest[i - 1];
        }
      }
    }
  }

  /** Inserting an element no greater than `b` among elements no greater
      than `b` leaves every element no greater than `b`. */
  lemma {:induction false} InsertBelow<T>(x: T, s: seq<T>, key: T -> real, b: real)
    requires key(x) <= b
    requires forall y :: y in s ==> key(y) <= b
    ensures forall y :: y in Insert(x, s, key) ==> key(y) <= b
  {
    if |s| > 0 && key(s[0]) > key(x) {
      InsertBelow(x, s[1..], key, b);
      assert Insert(x, s, key) == [s[0]] + Insert(x, s[1..], key);
    }
  }

  lemma {:induction false} InsertStable<T>(x: T, s: seq<T>, key: T -> real, v: real)
    ensures WithKey(Insert(x, s, key), key, v) == (if key(x) == v then [x] else []) + WithKey(s, key, v)
  {
    if |s| > 0 && key(s[0]) > key(x) {
      var r := Insert(x, s, key);
      InsertStable(x, s[1..], key, v);
      assert r[1..] == Insert(x, s[1..], key);
    } else {
      var r := Insert(x, s, key);
      assert r[1..] == s;
    }
  }

  /** The sort returns a non-increasing arrangement of its input and keeps
      elements with equal keys in their input order. */
  lemma {:induction false} SortDescCorrect<T>(s: seq<T>, key: T -> real)
    ensures IsRanking(s, SortDesc(s, key), key)
    ensures forall v :: WithKey(SortDesc(s, key), key, v) == WithKey(s, key, v)
  {
    if |s| > 0 {
      var tail := SortDesc(s[1..], key);
      SortDescCorrect(s[1..], key);
      InsertSorted(s[0], tail, key);
      InsertPermutes(s[0], tail, key);
      assert s == [s[0]] + s[1..];
      forall v ensures WithKey(SortDesc(s, key), key, v) == WithKey(s, key, v) {
        InsertStable(s[0], tail, key, v);
      }
    }
  }

  /** Taking the first `k` of a sequence takes a prefix of each tie group. */
  lemma {:induction false} WithKeyOfPrefix<T>(s: seq<T>, k: nat, key: T -> real, v: real)
    requires k <= |s|
    ensures WithKey(s[..k], key, v) <= WithKey(s, key, v)
  {
    if k > 0 {
      WithKeyOfPrefix(s[1..], k - 1, key, v);
      assert s[..k][1..] == s[1..][..k - 1];
    }
  }

  /** The first `k` of a ranking of `t` are non-increasing, drawn from `t`,
      and none of them ranks below an element of `t` left out, counting
      repeated elements one by one. */
  lemma TopOfRanking<T>(t: seq<T>, s: seq<T>, k: nat, key: T -> real)
    requires IsRanking(t, s, key) && k <= |s|
    ensures |s| == |t|
    ensures NonIncreasing(s[..k], key)
    ensures multiset(s[..k]) <= multiset(t)
    ensures forall x, y :: x in s[..k] && y in multiset(t) - multiset(s[..k]) ==> key(x) >= key(y)
    ensures forall x, y :: x in s[..k] && y in t && y !in s[..k] ==> key(x) >= key(y)
  {
    SplitRanking(t, s, k);
    PrefixAboveSuffix(s, k, key);
    forall x, y | x in s[..k] && y in multiset(t) - multiset(s[..k]) ensures key(x) >= key(y) {
      assert y in s[k..];
    }
    forall x, y | x in s[..k] && y in t && y !in s[..k] ensures key(x) >= key(y) {
      assert y in multiset(t) - multiset(s[..k]);
    }
  }

  /** Cutting an arrangement of `t` after `k` elements splits the elements
      of `t` between the two parts. */
  lemma SplitRanking<T>(t: seq<T>, s: seq<T>, k: nat)
    requires multiset(s) == multiset(t) && k <= |s|
    ensures |s| == |t|
    ensures multiset(s[..k]) <= multiset(t)
    ensures multiset(t) - multiset(s[..k]) == multiset(s[k..])
  {
    assert |multiset(s)| == |multiset(t)|;
    assert s == s[..k] + s[k..];
  }

  /** In a non-increasing sequence, the first `k` elements are in order and
      none has a smaller key than an element after them. */
  lemma PrefixAboveSuffix<T>(s: seq<T>, k: nat, key: T -> real)
    requires NonIncreasing(s, key) && k <= |s|
    ensures NonIncreasing(s[..k], key)
    ensures forall x, y :: x in s[..k] && y in s[k..] ==> key(x) >= key(y)
  {
    forall x, y | x in s[..k] && y in s[k..] ensures key(x) >= key(y) {
      var i :| 0 <= i < k && s[..k][i] == x;
      var j :| 0 <= j < |s| - k && s[k..][j] == y;
      assert s[i] == x && s[k + j] == y;
    }
  }

  /** `sorted(t, key=key, reverse=True)[:k]`: at most `k` elements, in
      non-increasing order, all from `t`, none ranking below an element
      left out, and tied elements kept in their order in `t`. */
  function Top<T>(t: seq<T>, k: nat, key: T -> real): (r: seq<T>)
    ensures |r| == if |t| < k then |t| else k
    ensures NonIncreasing(r, key)
    ensures multiset(r) <= multiset(t)
    ensures forall x, y :: x in r && y in t && y !in r ==> key(x) >= key(y)
    ensures forall v :: WithKey(r, key, v) <= WithKey(t, key, v)
  {
    var sorted := SortDesc(t, key);
    SortDescCorrect(t, key);
    var n := if |t| < k then |t| else k;
    TopOfRanking(t, sorted, n, key);
    forall v ensures WithKey(sorted[..n], key, v) <= WithKey(t, key, v) {
      WithKeyOfPrefix(sorted, n, key, v);
    }
    sorted[..n]
  }
}
