/** Sequences built element by element: the shape shared by comprehensions
    that yield zero or one record per input element. */
module Sequences {

  /** The results of `f` for every element of `s`, concatenated in the order of `s`. */
  function FlatMap<T, U>(s: seq<T>, f: T -> seq<U>): seq<U>
    decreases |s|
  {
    if s == [] then [] else FlatMap(s[..|s| - 1], f) + f(s[|s| - 1])
  }

  lemma {:induction false} FlatMapAppend<T, U>(s: seq<T>, t: seq<T>, f: T -> seq<U>)
    ensures FlatMap(s + t, f) == FlatMap(s, f) + FlatMap(t, f)
    decreases |t|
  {
    if t == [] {
      assert s + t == s;
    } else {
      var n := |t|;
      assert (s + t)[..|s + t| - 1] == s + t[..n - 1];
      FlatMapAppend(s, t[..n - 1], f);
    }
  }

  /** When `f` yields at most one result per element, the whole sequence
      yields at most one result per element. */
  lemma {:induction false} FlatMapBound<T, U>(s: seq<T>, f: T -> seq<U>)
    requires forall x :: |f(x)| <= 1
    ensures |FlatMap(s, f)| <= |s|
    decreases |s|
  {
    if s != [] {
      FlatMapBound(s[..|s| - 1], f);
    }
  }

  /** When `f` yields at most one result per element, the results keep the
      input order: `idx` gives the input position of each result, strictly
      increasing, and every element with a result appears in it. */
  lemma {:induction false} FlatMapIndices<T, U>(s: seq<T>, f: T -> seq<U>) returns (idx: seq<nat>)
    requires forall x :: |f(x)| <= 1
    ensures |idx| == |FlatMap(s, f)|
    ensures forall k :: 0 <= k < |idx| ==> idx[k] < |s| && f(s[idx[k]]) == [FlatMap(s, f)[k]]
    ensures forall k1, k2 :: 0 <= k1 < k2 < |idx| ==> idx[k1] < idx[k2]
    ensures forall i :: 0 <= i < |s| && f(s[i]) != [] ==> i in idx
    decreases |s|
  {
    if s == [] {
      idx := [];
    } else {
      var n := |s|;
      var prefix := s[..n - 1];
      var idx0 := FlatMapIndices(prefix, f);
      var r0 := FlatMap(prefix, f);
      var r := FlatMap(s, f);
      var last := f(s[n - 1]);
      assert r == r0 + last;
      if last == [] {
        idx := idx0;
        forall k | 0 <= k < |idx|
          ensures idx[k] < |s| && f(s[idx[k]]) == [r[k]]
        {
          assert prefix[idx0[k]] == s[idx0[k]];
        }
      } else {
        idx := idx0 + [n - 1];
        assert last == [last[0]];
        forall k | 0 <= k < |idx|
          ensures idx[k] < |s| && f(s[idx[k]]) == [r[k]]
        {
          if k < |idx0| {
            assert idx[k] == idx0[k] && r[k] == r0[k];
            assert prefix[idx0[k]] == s[idx0[k]];
          } else {
            assert idx[k] == n - 1 && r[k] == last[0];
          }
        }
      }
      forall i | 0 <= i < |s| && f(s[i]) != []
        ensures i in idx
      {
        if i < n - 1 {
          assert prefix[i] == s[i];
          assert i in idx0;
        }
      }
    }
  }

  /** Every result comes from one of the input elements. */
  lemma {:induction false} FlatMapMember<T, U>(s: seq<T>, f: T -> seq<U>, a: U)
    requires a in FlatMap(s, f)
    ensures exists i :: 0 <= i < |s| && a in f(s[i])
    decreases |s|
  {
    var n := |s|;
    if a !in f(s[n - 1]) {
      FlatMapMember(s[..n - 1], f, a);
      var i :| 0 <= i < n - 1 && a in f(s[..n - 1][i]);
      assert s[..n - 1][i] == s[i];
    }
  }
}
