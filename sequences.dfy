/**
 * The three array operations the store is built from, over a key projection:
 * `findIndex(x => key(x) === k)`, `find(x => key(x) === k)` and
 * `filter(x => key(x) === k)`. Each is specified by what it returns; the lemmas
 * below say how filtering behaves on concatenation, multiplicities and
 * complementary keys.
 */
module Sequences {
  import opened Wrappers

  /** `i` is the first position of `s` whose key is `k`. */
  ghost predicate IsFirstMatch<T, K>(s: seq<T>, key: T -> K, k: K, i: int) {
    && 0 <= i < |s|
    && key(s[i]) == k
    && forall j | 0 <= j < i :: key(s[j]) != k
  }

  /** No element of `s` has key `k`. */
  ghost predicate NoMatch<T, K>(s: seq<T>, key: T -> K, k: K) {
    forall j | 0 <= j < |s| :: key(s[j]) != k
  }

  /** `Array.prototype.findIndex`: the first position whose key is `k`, or -1. */
  function FirstIndex<T, K(==)>(s: seq<T>, key: T -> K, k: K): (i: int)
    ensures -1 <= i < |s|
    ensures i == -1 <==> NoMatch(s, key, k)
    ensures i != -1 ==> IsFirstMatch(s, key, k, i)
  {
    if |s| == 0 then -1
    else if key(s[0]) == k then 0
    else
      var i := FirstIndex(s[1..], key, k);
      if i == -1 then -1 else i + 1
  }

  /** `Array.prototype.find`: the first element whose key is `k`, or nothing. */
  function FindFirst<T, K(==)>(s: seq<T>, key: T -> K, k: K): (r: Option<T>)
    ensures r.None? <==> NoMatch(s, key, k)
    ensures r.Some? ==> key(r.value) == k && r.value in s
    ensures r.Some? ==> exists i :: IsFirstMatch(s, key, k, i) && s[i] == r.value
  {
    var i := FirstIndex(s, key, k);
    if i == -1 then None else Some(s[i])
  }

  /** `Array.prototype.filter`: the elements whose key is `k`, in their order in `s`. */
  function WithKey<T, K(==)>(s: seq<T>, key: T -> K, k: K): (r: seq<T>)
    ensures |r| <= |s|
    ensures forall x | x in r :: x in s && key(x) == k
    ensures forall x | x in s && key(x) == k :: x in r
  {
    if |s| == 0 then []
    else (if key(s[0]) == k then [s[0]] else []) + WithKey(s[1..], key, k)
  }

  /** Filtering a concatenation filters each part and keeps the parts in order. */
  lemma {:induction false} WithKeyAppend<T, K>(a: seq<T>, b: seq<T>, key: T -> K, k: K)
    ensures WithKey(a + b, key, k) == WithKey(a, key, k) + WithKey(b, key, k)
  {
    if |a| == 0 {
      assert a + b == b;
    } else {
      assert (a + b)[0] == a[0];
      assert (a + b)[1..] == a[1..] + b;
      WithKeyAppend(a[1..], b, key, k);
    }
  }

  /** Filtering keeps every element with key `k` as often as it occurs and drops every other. */
  lemma {:induction false} WithKeyMultiplicity<T, K>(s: seq<T>, key: T -> K, k: K, x: T)
    ensures multiset(WithKey(s, key, k))[x] == if key(x) == k then multiset(s)[x] else 0
  {
    if |s| != 0 {
      WithKeyMultiplicity(s[1..], key, k, x);
      assert s == [s[0]] + s[1..];
      assert multiset(s) == multiset([s[0]]) + multiset(s[1..]);
    }
  }

  /**
   * When every element has key `a` or key `b` and the two differ, the two
   * filters together are exactly as long as the sequence.
   */
  lemma {:induction false} WithKeyPartition<T, K>(s: seq<T>, key: T -> K, a: K, b: K)
    requires a != b
    requires forall j | 0 <= j < |s| :: key(s[j]) == a || key(s[j]) == b
    ensures |WithKey(s, key, a)| + |WithKey(s, key, b)| == |s|
  {
    if |s| != 0 {
      WithKeyPartition(s[1..], key, a, b);
    }
  }

  /** Appending an element whose key no earlier element has makes it the one found under that key. */
  lemma {:induction false} FindFirstAppendFresh<T, K>(s: seq<T>, x: T, key: T -> K)
    requires NoMatch(s, key, key(x))
    ensures FindFirst(s + [x], key, key(x)) == Some(x)
  {
    assert IsFirstMatch(s + [x], key, key(x), |s|);
  }

  /**
   * Filtering keeps the relative order: two matching elements at positions
   * i < j of `s` appear at positions p < q of the filtered sequence.
   */
  lemma {:induction false} WithKeyKeepsOrder<T, K>(s: seq<T>, key: T -> K, k: K, i: int, j: int)
    requires 0 <= i < j < |s| && key(s[i]) == k && key(s[j]) == k
    ensures exists p, q :: 0 <= p < q < |WithKey(s, key, k)| && WithKey(s, key, k)[p] == s[i] && WithKey(s, key, k)[q] == s[j]
  {
    var r := WithKey(s, key, k);
    var p := |WithKey(s[..i], key, k)|;
    var q := |WithKey(s[..j], key, k)|;
    WithKeyAt(s, key, k, i);
    WithKeyAt(s, key, k, j);
    assert s[..j] == s[..i] + s[i..j];
    WithKeyAppend(s[..i], s[i..j], key, k);
    assert s[i..j] == [s[i]] + s[i+1..j];
    assert r[p] == s[i] && r[q] == s[j];
  }

  /** The matching element at position i of `s` lands at position |filter(s[..i])| of the filtered sequence. */
  lemma {:induction false} WithKeyAt<T, K>(s: seq<T>, key: T -> K, k: K, i: int)
    requires 0 <= i < |s| && key(s[i]) == k
    ensures |WithKey(s[..i], key, k)| < |WithKey(s, key, k)|
    ensures WithKey(s, key, k)[|WithKey(s[..i], key, k)|] == s[i]
  {
    assert s == s[..i] + s[i..];
    WithKeyAppend(s[..i], s[i..], key, k);
    assert s[i..] == [s[i]] + s[i+1..];
    assert WithKey(s[i..], key, k) == [s[i]] + WithKey(s[i+1..], key, k);
  }
}
