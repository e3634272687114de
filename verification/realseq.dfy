/** Reference definitions over sequences of reals: the sum, minimum and maximum
    that the code's accumulator loops compute, and the facts about them the
    rest of the model relies on (bounds, attainment, order independence). */
module RealSeq {

  /** The sum of `s`, accumulated left to right from 0 as a `foreach` does. */
  function SumOf(s: seq<real>): real {
    if s == [] then 0.0 else SumOf(s[..|s| - 1]) + s[|s| - 1]
  }

  /** The least element of a non-empty sequence. */
  function MinOf(s: seq<real>): real
    requires |s| > 0
  {
    if |s| == 1 then s[0] else var m := MinOf(s[..|s| - 1]); if s[|s| - 1] < m then s[|s| - 1] else m
  }

  /** The greatest element of a non-empty sequence. */
  function MaxOf(s: seq<real>): real
    requires |s| > 0
  {
    if |s| == 1 then s[0] else var m := MaxOf(s[..|s| - 1]); if s[|s| - 1] > m then s[|s| - 1] else m
  }

  /** `f` applied to every element, index by index. */
  function MapSeq<T>(f: T -> real, s: seq<T>): (r: seq<real>)
    ensures |r| == |s|
    ensures forall i :: 0 <= i < |s| ==> r[i] == f(s[i])
  {
    seq(|s|, i requires 0 <= i < |s| => f(s[i]))
  }

  lemma {:induction false} MinOfIsLeast(s: seq<real>)
    requires |s| > 0
    ensures forall i :: 0 <= i < |s| ==> MinOf(s) <= s[i]
    ensures exists i :: 0 <= i < |s| && s[i] == MinOf(s)
    decreases |s|
  {
    if |s| == 1 {
      assert s[0] == MinOf(s);
    } else {
      var init := s[..|s| - 1];
      MinOfIsLeast(init);
      var j :| 0 <= j < |init| && init[j] == MinOf(init);
      if s[|s| - 1] < MinOf(init) {
        assert s[|s| - 1] == MinOf(s);
      } else {
        assert s[j] == init[j] == MinOf(s);
      }
      forall i | 0 <= i < |s| ensures MinOf(s) <= s[i] {
        if i < |s| - 1 {
          assert s[i] == init[i];
        }
      }
    }
  }

  lemma {:induction false} MaxOfIsGreatest(s: seq<real>)
    requires |s| > 0
    ensures forall i :: 0 <= i < |s| ==> s[i] <= MaxOf(s)
    ensures exists i :: 0 <= i < |s| && s[i] == MaxOf(s)
    decreases |s|
  {
    if |s| == 1 {
      assert s[0] == MaxOf(s);
    } else {
      var init := s[..|s| - 1];
      MaxOfIsGreatest(init);
      var j :| 0 <= j < |init| && init[j] == MaxOf(init);
      if s[|s| - 1] > MaxOf(init) {
        assert s[|s| - 1] == MaxOf(s);
      } else {
        assert s[j] == init[j] == MaxOf(s);
      }
      forall i | 0 <= i < |s| ensures s[i] <= MaxOf(s) {
        if i < |s| - 1 {
          assert s[i] == init[i];
        }
      }
    }
  }

  /** The sum lies between |s| times the minimum and |s| times the maximum. */
  lemma SumBetweenMinAndMax(s: seq<real>)
    requires |s| > 0
    ensures |s| as real * MinOf(s) <= SumOf(s) <= |s| as real * MaxOf(s)
  {
    SumAtLeastMin(s);
    SumAtMostMax(s);
  }

  lemma {:induction false} SumAtLeastMin(s: seq<real>)
    requires |s| > 0
    ensures |s| as real * MinOf(s) <= SumOf(s)
    decreases |s|
  {
    if |s| > 1 {
      var init := s[..|s| - 1];
      SumAtLeastMin(init);
      var n := |init| as real;
      assert MinOf(s) <= MinOf(init);
      ScaleMonotone(n, MinOf(s), MinOf(init));
      Distribute(n, MinOf(s));
      assert |s| as real == n + 1.0;
    }
  }

  lemma {:induction false} SumAtMostMax(s: seq<real>)
    requires |s| > 0
    ensures SumOf(s) <= |s| as real * MaxOf(s)
    decreases |s|
  {
    if |s| > 1 {
      var init := s[..|s| - 1];
      SumAtMostMax(init);
      var n := |init| as real;
      assert MaxOf(init) <= MaxOf(s);
      ScaleMonotone(n, MaxOf(init), MaxOf(s));
      Distribute(n, MaxOf(s));
      assert |s| as real == n + 1.0;
    }
  }

  lemma ScaleMonotone(n: real, a: real, b: real)
    requires n >= 0.0 && a <= b
    ensures n * a <= n * b
  {
    assert n * b - n * a == n * (b - a);
  }

  lemma Distribute(n: real, m: real)
    ensures (n + 1.0) * m == n * m + m
  {
  }

  lemma {:induction false} SumOfAppend(a: seq<real>, b: seq<real>)
    ensures SumOf(a + b) == SumOf(a) + SumOf(b)
    decreases |b|
  {
    if b != [] {
      var b' := b[..|b| - 1];
      assert (a + b)[..|a + b| - 1] == a + b';
      SumOfAppend(a, b');
    } else {
      assert a + b == a;
    }
  }

  /** Summing does not depend on the order of the summands. */
  lemma {:induction false} SumOfPermutation(a: seq<real>, b: seq<real>)
    requires multiset(a) == multiset(b)
    ensures SumOf(a) == SumOf(b)
    decreases |a|
  {
    if a == [] {
      assert |b| == |multiset(b)| == 0;
    } else {
      var n := |a| - 1;
      var x := a[n];
      assert a[..n] + a[n + 1..] == a[..n];
      RemoveAt(a, n);
      assert x in multiset(b);
      var j :| 0 <= j < |b| && b[j] == x;
      RemoveAt(b, j);
      SumOfPermutation(a[..n], b[..j] + b[j + 1..]);
      SumOfRemoveAt(a, n);
      SumOfRemoveAt(b, j);
    }
  }

  /** Taking the element at j out of the sum subtracts exactly that element. */
  lemma SumOfRemoveAt(b: seq<real>, j: int)
    requires 0 <= j < |b|
    ensures SumOf(b) == SumOf(b[..j] + b[j + 1..]) + b[j]
  {
    assert b == b[..j] + [b[j]] + b[j + 1..];
    SumOfAppend(b[..j] + [b[j]], b[j + 1..]);
    SumOfAppend(b[..j], [b[j]]);
    SumOfAppend(b[..j], b[j + 1..]);
    assert SumOf([b[j]]) == b[j] by {
      assert [b[j]][..0] == [];
    }
  }

  /** Mapping preserves being a permutation. */
  lemma {:induction false} MapSeqPermutation<T>(f: T -> real, a: seq<T>, b: seq<T>)
    requires multiset(a) == multiset(b)
    ensures multiset(MapSeq(f, a)) == multiset(MapSeq(f, b))
    decreases |a|
  {
    if a == [] {
      assert |b| == |multiset(b)| == 0;
    } else {
      var n := |a| - 1;
      var x := a[n];
      assert a[..n] + a[n + 1..] == a[..n];
      RemoveAt(a, n);
      assert x in multiset(b);
      var j :| 0 <= j < |b| && b[j] == x;
      RemoveAt(b, j);
      MapSeqPermutation(f, a[..n], b[..j] + b[j + 1..]);
      MapSeqRemoveAt(f, a, n);
      MapSeqRemoveAt(f, b, j);
    }
  }

  /** Removing the element at j removes one copy of it from the multiset. */
  lemma RemoveAt<T>(b: seq<T>, j: int)
    requires 0 <= j < |b|
    ensures multiset(b[..j] + b[j + 1..]) == multiset(b) - multiset{b[j]}
  {
    assert b == b[..j] + [b[j]] + b[j + 1..];
    assert multiset(b) == multiset(b[..j]) + multiset{b[j]} + multiset(b[j + 1..]);
  }

  /** Mapping commutes with removing the element at j. */
  lemma MapSeqRemoveAt<T>(f: T -> real, b: seq<T>, j: int)
    requires 0 <= j < |b|
    ensures multiset(MapSeq(f, b)) == multiset(MapSeq(f, b[..j] + b[j + 1..])) + multiset{f(b[j])}
  {
    assert b == b[..j] + [b[j]] + b[j + 1..];
    MapSeqAppend(f, b[..j] + [b[j]], b[j + 1..]);
    MapSeqAppend(f, b[..j], [b[j]]);
    MapSeqAppend(f, b[..j], b[j + 1..]);
    assert MapSeq(f, [b[j]]) == [f(b[j])];
  }

  lemma MapSeqAppend<T>(f: T -> real, a: seq<T>, b: seq<T>)
    ensures MapSeq(f, a + b) == MapSeq(f, a) + MapSeq(f, b)
  {
  }

  /** The minimum and maximum depend only on the multiset of elements. */
  lemma MinMaxPermutation(a: seq<real>, b: seq<real>)
    requires |a| > 0
    requires multiset(a) == multiset(b)
    ensures |b| > 0
    ensures MinOf(a) == MinOf(b) && MaxOf(a) == MaxOf(b)
  {
    assert |b| == |multiset(b)| == |multiset(a)| == |a|;
    MinOfIsLeast(a);
    MinOfIsLeast(b);
    MaxOfIsGreatest(a);
    MaxOfIsGreatest(b);
    var i :| 0 <= i < |a| && a[i] == MinOf(a);
    var j :| 0 <= j < |b| && b[j] == MinOf(b);
    assert a[i] in multiset(b);
    assert b[j] in multiset(a);
    var i' :| 0 <= i' < |a| && a[i'] == MaxOf(a);
    var j' :| 0 <= j' < |b| && b[j'] == MaxOf(b);
    assert a[i'] in multiset(b);
    assert b[j'] in multiset(a);
  }

  lemma {:induction false} SumOfNonNegative(s: seq<real>)
    requires forall i :: 0 <= i < |s| ==> s[i] >= 0.0
    ensures SumOf(s) >= 0.0
    decreases |s|
  {
    if s != [] {
      SumOfNonNegative(s[..|s| - 1]);
    }
  }
}
