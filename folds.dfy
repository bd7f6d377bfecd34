/**
 * The array folds the trip registries use: `reduce` summing a numeric field,
 * `filter` dropping or keeping the records whose key equals a value, and `map`
 * rewriting one field of the records with a given key. Keys and fields are
 * projected by function values so that every registry can share them.
 */
module Folds {

  /** `s.reduce((sum, x) => sum + f(x), 0)`. */
  function Sum<T>(s: seq<T>, f: T -> int): int
  {
    if s == [] then 0 else Sum(s[..|s| - 1], f) + f(s[|s| - 1])
  }

  /** `s.filter(x => key(x) !== k)`. */
  function Without<T, K(==)>(s: seq<T>, key: T -> K, k: K): (r: seq<T>)
    ensures |r| <= |s|
  {
    if s == [] then []
    else
      var last := s[|s| - 1];
      Without(s[..|s| - 1], key, k) + (if key(last) != k then [last] else [])
  }

  /** `s.filter(x => key(x) === k)`. */
  function Only<T, K(==)>(s: seq<T>, key: T -> K, k: K): (r: seq<T>)
    ensures |r| <= |s|
    ensures forall i :: 0 <= i < |r| ==> r[i] in s && key(r[i]) == k
    ensures forall i :: 0 <= i < |s| && key(s[i]) == k ==> s[i] in r
  {
    if s == [] then []
    else
      var last := s[|s| - 1];
      Only(s[..|s| - 1], key, k) + (if key(last) == k then [last] else [])
  }

  /** `s.map(x => key(x) === k ? put(x, v) : x)`. */
  function Update<T, K(==), V>(s: seq<T>, key: T -> K, k: K, put: (T, V) -> T, v: V): (r: seq<T>)
    ensures |r| == |s|
    ensures forall i :: 0 <= i < |s| ==> r[i] == if key(s[i]) == k then put(s[i], v) else s[i]
  {
    if s == [] then []
    else
      var last := s[|s| - 1];
      Update(s[..|s| - 1], key, k, put, v) + [if key(last) == k then put(last, v) else last]
  }

  lemma {:induction false} SumAppend<T>(a: seq<T>, b: seq<T>, f: T -> int)
    ensures Sum(a + b, f) == Sum(a, f) + Sum(b, f)
  {
    if b != [] {
      assert (a + b)[..|a + b| - 1] == a + b[..|b| - 1];
      SumAppend(a, b[..|b| - 1], f);
    } else {
      assert a + b == a;
    }
  }

  /** The filter keeps exactly the records whose key is not `k`. */
  lemma {:induction false} WithoutMembers<T, K>(s: seq<T>, key: T -> K, k: K)
    ensures forall i :: 0 <= i < |Without(s, key, k)| ==> Without(s, key, k)[i] in s && key(Without(s, key, k)[i]) != k
    ensures forall i :: 0 <= i < |s| && key(s[i]) != k ==> s[i] in Without(s, key, k)
  {
    if s != [] {
      var init, last := s[..|s| - 1], s[|s| - 1];
      WithoutMembers(init, key, k);
      assert s == init + [last];
      var w := Without(init, key, k);
      assert Without(s, key, k) == w + (if key(last) != k then [last] else []);
      forall i | 0 <= i < |s| && key(s[i]) != k ensures s[i] in Without(s, key, k) {
        if i < |init| {
          assert s[i] == init[i];
        }
      }
    }
  }

  /** With no record of key `k`, the filter returns its input. */
  lemma {:induction false} WithoutNoMatch<T, K>(s: seq<T>, key: T -> K, k: K)
    requires forall i :: 0 <= i < |s| ==> key(s[i]) != k
    ensures Without(s, key, k) == s
  {
    if s != [] {
      var init := s[..|s| - 1];
      assert forall i :: 0 <= i < |init| ==> init[i] == s[i];
      WithoutNoMatch(init, key, k);
      assert s == init + [s[|s| - 1]];
    }
  }

  /** Filtering distributes over concatenation: the kept records stay in their order. */
  lemma {:induction false} WithoutAppend<T, K>(a: seq<T>, b: seq<T>, key: T -> K, k: K)
    ensures Without(a + b, key, k) == Without(a, key, k) + Without(b, key, k)
  {
    if b != [] {
      assert (a + b)[..|a + b| - 1] == a + b[..|b| - 1];
      WithoutAppend(a, b[..|b| - 1], key, k);
    } else {
      assert a + b == a;
    }
  }

  /** Every sum splits into the records without key `k` and the records with it. */
  lemma {:induction false} SumSplit<T, K>(s: seq<T>, key: T -> K, k: K, f: T -> int)
    ensures Sum(s, f) == Sum(Without(s, key, k), f) + Sum(Only(s, key, k), f)
  {
    if s != [] {
      var init, last := s[..|s| - 1], s[|s| - 1];
      SumSplit(init, key, k, f);
      var w, o := Without(init, key, k), Only(init, key, k);
      if key(last) != k {
        assert Without(s, key, k) == w + [last];
        assert Only(s, key, k) == o;
        SumAppend(w, [last], f);
      } else {
        assert Without(s, key, k) == w;
        assert Only(s, key, k) == o + [last];
        SumAppend(o, [last], f);
      }
    }
  }

  lemma {:induction false} SumNonNegative<T>(s: seq<T>, f: T -> int)
    requires forall i :: 0 <= i < |s| ==> f(s[i]) >= 0
    ensures Sum(s, f) >= 0
  {
    if s != [] {
      SumNonNegative(s[..|s| - 1], f);
    }
  }

  /** With no negative amounts, a filtered sum is at most the full sum. */
  lemma OnlySumAtMost<T, K>(s: seq<T>, key: T -> K, k: K, f: T -> int)
    requires forall i :: 0 <= i < |s| ==> f(s[i]) >= 0
    ensures Sum(Only(s, key, k), f) <= Sum(s, f)
  {
    SumSplit(s, key, k, f);
    WithoutMembers(s, key, k);
    var w := Without(s, key, k);
    forall i | 0 <= i < |w| ensures f(w[i]) >= 0 {
      var j :| 0 <= j < |s| && s[j] == w[i];
    }
    SumNonNegative(w, f);
  }

  /** Rewriting a field that `f` does not read leaves the sum unchanged. */
  lemma {:induction false} SumUpdate<T, K, V>(s: seq<T>, key: T -> K, k: K, put: (T, V) -> T, v: V, f: T -> int)
    requires forall x :: f(put(x, v)) == f(x)
    ensures Sum(Update(s, key, k, put, v), f) == Sum(s, f)
  {
    if s != [] {
      var r := Update(s, key, k, put, v);
      assert r[..|r| - 1] == Update(s[..|s| - 1], key, k, put, v);
      SumUpdate(s[..|s| - 1], key, k, put, v, f);
    }
  }

  /** Taking one term out of a sum. */
  lemma {:induction false} SumRemove<T>(t: seq<T>, j: nat, f: T -> int)
    requires j < |t|
    ensures Sum(t, f) == Sum(t[..j] + t[j + 1..], f) + f(t[j])
  {
    var a, x, b := t[..j], [t[j]], t[j + 1..];
    assert t == a + (x + b);
    SumAppend(a, x + b, f);
    SumAppend(x, b, f);
    SumAppend(a, b, f);
    SumSingle(t[j], f);
  }

  lemma SumSingle<T>(x: T, f: T -> int)
    ensures Sum([x], f) == f(x)
  {
    assert [x][..0] == [];
  }

  /** A sum does not depend on the order of its terms. */
  lemma {:induction false} SumPermutation<T>(s: seq<T>, t: seq<T>, f: T -> int)
    requires multiset(s) == multiset(t)
    ensures Sum(s, f) == Sum(t, f)
    decreases |s|
  {
    if s == [] {
      assert |t| == |multiset(t)| == 0;
    } else {
      var init, last := s[..|s| - 1], s[|s| - 1];
      assert s == init + [last];
      assert multiset(s) == multiset(init) + multiset{last};
      assert last in multiset(t);
      var j :| 0 <= j < |t| && t[j] == last;
      var rest := t[..j] + t[j + 1..];
      MultisetRemove(t, j);
      assert multiset(init) == multiset(rest);
      SumPermutation(init, rest, f);
      SumRemove(t, j, f);
    }
  }

  lemma MultisetRemove<T>(t: seq<T>, j: nat)
    requires j < |t|
    ensures multiset(t[..j] + t[j + 1..]) == multiset(t) - multiset{t[j]}
  {
    assert t == t[..j] + [t[j]] + t[j + 1..];
  }
}
