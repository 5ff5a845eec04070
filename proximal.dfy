/**
 * The proximal projections of the Frank-Wolfe solvers, both in place on a vector: onto the
 * L1 ball of radius tau by soft thresholding (the method of Duchi, Shalev-Shwartz, Singer and
 * Chandra, 2008), and onto the tau-sparse vectors by hard thresholding.
 */
module Proximal {
  import opened RealMath
  import opened Wrappers

  // ---------------------------------------------------------------- vocabulary

  /** arma::abs. */
  function AbsAll(v: seq<real>): (a: seq<real>)
    ensures |a| == |v| && forall i :: 0 <= i < |v| ==> a[i] == Abs(v[i])
  {
    seq(|v|, i requires 0 <= i < |v| => Abs(v[i]))
  }

  /** The L1 norm, accu(abs(v)). */
  function L1Norm(v: seq<real>): real {
    Sum(AbsAll(v))
  }

  predicate Descending(s: seq<real>) {
    forall i, j :: 0 <= i < j < |s| ==> s[i] >= s[j]
  }

  /** sort(a, "descend"). */
  function SortDescending(a: seq<real>): (s: seq<real>)
    ensures |s| == |a| && multiset(s) == multiset(a) && Descending(s)
  {
    if |a| == 0 then []
    else
      assert a == [a[0]] + a[1..];
      InsertDescending(a[0], SortDescending(a[1..]))
  }

  function InsertDescending(x: real, s: seq<real>): (r: seq<real>)
    requires Descending(s)
    ensures |r| == |s| + 1 && multiset(r) == multiset(s) + multiset{x}
    ensures r[0] == x || (|s| > 0 && r[0] == s[0])
    ensures Descending(r)
  {
    if |s| == 0 || x >= s[0] then
      ConsDescending(x, s);
      [x] + s
    else
      DescendingTail(s);
      var t := InsertDescending(x, s[1..]);
      assert s == [s[0]] + s[1..];
      ConsDescending(s[0], t);
      [s[0]] + t
  }

  /** The tail of a descending sequence is descending and starts no higher than its head. */
  lemma DescendingTail(s: seq<real>)
    requires |s| > 0 && Descending(s)
    ensures Descending(s[1..])
    ensures |s| > 1 ==> s[0] >= s[1]
  {
    forall i, j | 0 <= i < j < |s| - 1
      ensures s[1..][i] >= s[1..][j]
    {
      assert s[1..][i] == s[i + 1] && s[1..][j] == s[j + 1];
    }
  }

  /** A head at least the first entry keeps a descending sequence descending. */
  lemma ConsDescending(x: real, t: seq<real>)
    requires Descending(t) && (|t| == 0 || x >= t[0])
    ensures Descending([x] + t)
  {
    forall i, j | 0 <= i < j < |t| + 1
      ensures ([x] + t)[i] >= ([x] + t)[j]
    {
      if i > 0 {
        assert ([x] + t)[i] == t[i - 1];
      }
    }
  }

  /** cumsum: entry i is the sum of the first i + 1 entries. */
  function CumSum(s: seq<real>): (c: seq<real>)
    ensures |c| == |s| && forall i :: 0 <= i < |s| ==> c[i] == Sum(s[..i + 1])
  {
    seq(|s|, i requires 0 <= i < |s| => Sum(s[..i + 1]))
  }

  // ---------------------------------------------------------------- the L1 ball

  /**
   * The test value nu at index r of the sorted magnitudes: positive exactly when the r + 1
   * largest exceed tau by less than r + 1 times the r-th; at index 0 it is tau itself.
   */
  function Nu(s: seq<real>, tau: real, r: nat): (v: real)
    requires r < |s|
    ensures v > 0.0 <==> Sum(s[..r + 1]) - tau < (r + 1) as real * s[r]
    ensures r == 0 ==> v == tau
  {
    var m := (r + 1) as real;
    var excess := Sum(s[..r + 1]) - tau;
    LessDiv(excess, s[r], m);
    assert r == 0 ==> s[..r + 1] == [s[0]];
    s[r] - excess / m
  }

  /**
   * The index the search loop stops at when it tries r, r − 1, …, 0: the first with a
   * positive nu, or 0 when none has one.
   */
  function Search(s: seq<real>, tau: real, r: nat): (rho: nat)
    requires r < |s|
    ensures rho <= r
    ensures Nu(s, tau, rho) > 0.0 || rho == 0
    ensures forall q :: rho < q <= r ==> Nu(s, tau, q) <= 0.0
  {
    if Nu(s, tau, r) > 0.0 || r == 0 then r else Search(s, tau, r - 1)
  }

  /** The conditions that pin the search's result down determine it. */
  lemma {:induction false} SearchUnique(s: seq<real>, tau: real, r: nat, rho: nat)
    requires rho <= r < |s|
    requires Nu(s, tau, rho) > 0.0 || rho == 0
    requires forall q :: rho < q <= r ==> Nu(s, tau, q) <= 0.0
    ensures Search(s, tau, r) == rho
    decreases r
  {
    if r > rho {
      assert Nu(s, tau, r) <= 0.0;
      SearchUnique(s, tau, r - 1, rho);
    }
  }

  /** The sorted magnitudes of v. */
  function Magnitudes(v: seq<real>): (s: seq<real>)
    ensures |s| == |v| && multiset(s) == multiset(AbsAll(v)) && Descending(s)
  {
    SortDescending(AbsAll(v))
  }

  /** The soft threshold of one entry: moved towards zero by theta, never past it. */
  function Soft(x: real, theta: real): (y: real)
    ensures x >= 0.0 ==> y >= 0.0
    ensures x < 0.0 ==> y <= 0.0
    ensures Abs(y) == ClampBelow(Abs(x) - theta, 0.0)
  {
    if x >= 0.0 then ClampBelow(x - theta, 0.0) else -ClampBelow(-x - theta, 0.0)
  }

  function Threshold(v: seq<real>, theta: real): (w: seq<real>)
    ensures |w| == |v| && forall j :: 0 <= j < |v| ==> w[j] == Soft(v[j], theta)
  {
    seq(|v|, j requires 0 <= j < |v| => Soft(v[j], theta))
  }

  /**
   * The threshold as written: divided by rho, so undefined (None) exactly when the search ends
   * at 0, and otherwise (rho + 1)/rho times the corrected threshold.
   */
  function ThetaAsWritten(s: seq<real>, tau: real): (t: Option<real>)
    requires |s| > 0
    ensures var rho := Search(s, tau, |s| - 1);
      && (t.None? <==> rho == 0)
      && (t.Some? ==> t.value * rho as real == Theta(s, tau) * (rho + 1) as real)
  {
    var rho := Search(s, tau, |s| - 1);
    var excess := Sum(s[..rho + 1]) - tau;
    if rho == 0 then None
    else
      QuotientTimes(excess, rho as real);
      QuotientTimes(excess, (rho + 1) as real);
      Some(excess / rho as real)
  }

  /**
   * The threshold of the projection: the excess over tau of the rho + 1 largest, per entry.
   * It is the rho-th magnitude less its nu, so it lies below that magnitude unless rho is 0.
   */
  function Theta(s: seq<real>, tau: real): (theta: real)
    requires |s| > 0
    ensures var rho := Search(s, tau, |s| - 1);
      theta == s[rho] - Nu(s, tau, rho) && (rho == 0 || theta < s[rho])
  {
    var rho := Search(s, tau, |s| - 1);
    (Sum(s[..rho + 1]) - tau) / (rho + 1) as real
  }

  /**
   * ProjectToL1Ball as written; None where it divides by zero, which happens exactly outside
   * the ball when the search ends at index 0. Inside the ball v is kept.
   */
  function ProjectL1AsWritten(v: seq<real>, tau: real): (w: Option<seq<real>>)
    requires |v| > 0 || tau >= 0.0
    ensures L1Norm(v) <= tau ==> w == Some(v)
    ensures w.None? <==> L1Norm(v) > tau && Search(Magnitudes(v), tau, |v| - 1) == 0
    ensures w.Some? ==> |w.value| == |v|
  {
    if L1Norm(v) <= tau then Some(v)
    else match ThetaAsWritten(Magnitudes(v), tau)
      case None => None
      case Some(theta) => Some(Threshold(v, theta))
  }

  /** ProjectToL1Ball with the threshold divided by rho + 1. */
  function ProjectL1(v: seq<real>, tau: real): (w: seq<real>)
    requires |v| > 0 || tau >= 0.0
    ensures |w| == |v|
    ensures forall j :: 0 <= j < |v| ==> (v[j] >= 0.0 ==> w[j] >= 0.0) && (v[j] < 0.0 ==> w[j] <= 0.0)
    ensures L1Norm(v) <= tau ==> w == v
  {
    if L1Norm(v) <= tau then v
    else
      Threshold(v, Theta(Magnitudes(v), tau))
  }

  /** The sum of two entries. */
  lemma SumPair(a: real, b: real)
    ensures Sum([a, b]) == a + b
  {
    assert [a, b][..1] == [a];
    assert [a][..0] == [];
    assert Sum([a]) == a;
  }

  lemma {:induction false} MagnitudesOfTwos()
    ensures Magnitudes([2.0, 2.0]) == [2.0, 2.0]
  {
    assert AbsAll([2.0, 2.0]) == [2.0, 2.0];
    assert [2.0, 2.0][1..] == [2.0];
    assert [2.0][1..] == [];
    assert SortDescending([2.0]) == [2.0] by {
      assert SortDescending([2.0]) == InsertDescending(2.0, SortDescending([]));
    }
    assert SortDescending([2.0, 2.0]) == InsertDescending(2.0, [2.0]);
  }

  /** [2, 2] has norm 4, and so has its prefix of two entries. */
  lemma TwosNorm()
    ensures L1Norm([2.0, 2.0]) == 4.0 && Sum([2.0, 2.0][..2]) == 4.0
  {
    var s := [2.0, 2.0];
    assert AbsAll(s) == s;
    SumPair(2.0, 2.0);
    assert s[..2] == s;
  }

  /** On [2, 2] with tau 2 the search stops at 1. */
  lemma TwosSearch()
    ensures Search([2.0, 2.0], 2.0, 1) == 1
  {
    TwosNorm();
    assert Nu([2.0, 2.0], 2.0, 1) == 1.0;
  }

  /** As written, [2, 2] with tau 2 is thresholded by 2, to the origin. */
  lemma AsWrittenOnTwos()
    ensures ProjectL1AsWritten([2.0, 2.0], 2.0) == Some([0.0, 0.0])
  {
    TwosNorm();
    MagnitudesOfTwos();
    TwosSearch();
    assert ThetaAsWritten([2.0, 2.0], 2.0) == Some(2.0);
    assert Threshold([2.0, 2.0], 2.0) == [0.0, 0.0];
  }

  /** Corrected, [2, 2] with tau 2 is thresholded by 1, to [1, 1]. */
  lemma CorrectedOnTwos()
    ensures ProjectL1([2.0, 2.0], 2.0) == [1.0, 1.0]
  {
    TwosNorm();
    MagnitudesOfTwos();
    TwosSearch();
    assert Theta([2.0, 2.0], 2.0) == 1.0;
    assert Threshold([2.0, 2.0], 1.0) == [1.0, 1.0];
  }

  /**
   * The as-written projection misses the ball: [2, 2] with tau 2 is thresholded by 2 to the
   * origin, of norm 0, while the projection is [1, 1], of norm exactly 2.
   */
  lemma ProjectL1AsWrittenMisses()
    ensures ProjectL1AsWritten([2.0, 2.0], 2.0) == Some([0.0, 0.0]) && L1Norm([0.0, 0.0]) == 0.0
    ensures ProjectL1([2.0, 2.0], 2.0) == [1.0, 1.0] && L1Norm([1.0, 1.0]) == 2.0
  {
    AsWrittenOnTwos();
    CorrectedOnTwos();
    assert AbsAll([0.0, 0.0]) == [0.0, 0.0];
    SumPair(0.0, 0.0);
    assert AbsAll([1.0, 1.0]) == [1.0, 1.0];
    SumPair(1.0, 1.0);
  }

  /** On [3] with tau 1 the search stops at 0 and the as-written threshold divides by zero. */
  lemma ProjectL1AsWrittenDividesByZero()
    ensures ProjectL1AsWritten([3.0], 1.0) == None
  {
    var u := [3.0];
    assert AbsAll(u) == [3.0];
    assert Sum([3.0]) == 3.0 by {
      assert [3.0][..0] == [];
    }
    assert [3.0][1..] == [];
    assert Magnitudes(u) == [3.0] by {
      assert SortDescending([3.0]) == InsertDescending(3.0, SortDescending([]));
    }
    assert Search([3.0], 1.0, 0) == 0;
  }

  /** The entries max(t_i − theta, 0) whose sum is the norm after thresholding. */
  function Shrink(t: seq<real>, theta: real): (r: seq<real>)
    ensures |r| == |t| && forall i :: 0 <= i < |t| ==> r[i] == ClampBelow(t[i] - theta, 0.0)
  {
    seq(|t|, i requires 0 <= i < |t| => ClampBelow(t[i] - theta, 0.0))
  }

  /** The magnitudes after thresholding by theta are the magnitudes shrunk by theta. */
  lemma ThresholdMagnitudes(v: seq<real>, theta: real)
    ensures AbsAll(Threshold(v, theta)) == Shrink(AbsAll(v), theta)
  {
  }

  /** The shrunk sum of a concatenation is the sum of the parts' shrunk sums. */
  lemma SumShrinkConcat(a: seq<real>, b: seq<real>, theta: real)
    ensures Sum(Shrink(a + b, theta)) == Sum(Shrink(a, theta)) + Sum(Shrink(b, theta))
  {
    assert Shrink(a + b, theta) == Shrink(a, theta) + Shrink(b, theta);
    SumAppend(Shrink(a, theta), Shrink(b, theta));
  }

  /** When every entry exceeds theta, shrinking takes theta off each. */
  lemma {:induction false} SumShrinkAbove(t: seq<real>, theta: real)
    requires forall i :: 0 <= i < |t| ==> t[i] > theta
    ensures Sum(Shrink(t, theta)) == Sum(t) - |t| as real * theta
    decreases |t|
  {
    if |t| > 0 {
      var init := t[..|t| - 1];
      SumShrinkAbove(init, theta);
      assert Shrink(t, theta)[..|t| - 1] == Shrink(init, theta);
    }
  }

  /** When no entry exceeds theta, shrinking leaves nothing. */
  lemma {:induction false} SumShrinkBelow(t: seq<real>, theta: real)
    requires forall i :: 0 <= i < |t| ==> t[i] <= theta
    ensures Sum(Shrink(t, theta)) == 0.0
    decreases |t|
  {
    if |t| > 0 {
      var init := t[..|t| - 1];
      SumShrinkBelow(init, theta);
      assert Shrink(t, theta)[..|t| - 1] == Shrink(init, theta);
    }
  }

  /** Taking out entry k leaves the multiset without that entry. */
  lemma RemoveEntryMultiset(b: seq<real>, k: nat)
    requires k < |b|
    ensures multiset(b[..k] + b[k + 1..]) == multiset(b) - multiset{b[k]}
  {
    assert b == b[..k] + [b[k]] + b[k + 1..];
  }

  /** Taking out entry k takes its shrunk term off the shrunk sum. */
  lemma RemoveEntrySum(b: seq<real>, k: nat, theta: real)
    requires k < |b|
    ensures Sum(Shrink(b, theta)) == Sum(Shrink(b[..k] + b[k + 1..], theta)) + ClampBelow(b[k] - theta, 0.0)
  {
    var l, r := b[..k], b[k + 1..];
    assert b == (l + [b[k]]) + r;
    SumShrinkConcat(l + [b[k]], r, theta);
    SumShrinkConcat(l, [b[k]], theta);
    SumShrinkConcat(l, r, theta);
    assert Sum(Shrink([b[k]], theta)) == ClampBelow(b[k] - theta, 0.0) by {
      assert Shrink([b[k]], theta)[..0] == [];
    }
  }

  /** An entry of the multiset sits at some index. */
  lemma IndexOf(b: seq<real>, x: real) returns (k: nat)
    requires x in multiset(b)
    ensures k < |b| && b[k] == x
  {
    assert x in b;
    k :| 0 <= k < |b| && b[k] == x;
  }

  /** Reordering the entries does not change the sum of the shrunk entries. */
  lemma {:induction false} SumShrinkPermutation(a: seq<real>, b: seq<real>, theta: real)
    requires multiset(a) == multiset(b)
    ensures Sum(Shrink(a, theta)) == Sum(Shrink(b, theta))
    decreases |a|
  {
    if |a| > 0 {
      var n := |a| - 1;
      var x := a[n];
      assert x in multiset(a);
      var k := IndexOf(b, x);
      var rest := b[..k] + b[k + 1..];
      RemoveEntryMultiset(b, k);
      RemoveEntryMultiset(a, n);
      RemoveEntrySum(b, k, theta);
      RemoveEntrySum(a, n, theta);
      assert a[..n] + a[n + 1..] == a[..n];
      SumShrinkPermutation(a[..n], rest, theta);
    }
  }

  /** A quotient lies below y exactly when the numerator lies below m times y. */
  lemma LessDiv(x: real, y: real, m: real)
    requires m > 0.0
    ensures x / m < y <==> x < m * y
  {
    var q := x / m;
    assert q * m == x;
    if q < y {
      assert (y - q) * m > 0.0;
    } else {
      assert (q - y) * m >= 0.0;
    }
  }

  /** Comparing with a quotient is comparing the scaled value with the numerator. */
  lemma LeDiv(x: real, y: real, m: real)
    requires m > 0.0
    ensures x <= y / m <==> x * m <= y
  {
    var q := y / m;
    assert q * m == y;
    if x <= q {
      assert (q - x) * m >= 0.0;
    } else {
      assert (x - q) * m > 0.0;
    }
  }

  /**
   * The threshold splits the sorted magnitudes: the rho + 1 largest lie above it and all the
   * others at or below it, where rho is the index the search stops at.
   */
  lemma ThetaSplits(s: seq<real>, tau: real)
    requires |s| > 0 && Descending(s) && tau > 0.0
    ensures var rho := Search(s, tau, |s| - 1);
      && (forall i :: 0 <= i <= rho ==> s[i] > Theta(s, tau))
      && (forall i :: rho < i < |s| ==> s[i] <= Theta(s, tau))
  {
    var rho := Search(s, tau, |s| - 1);
    assert Nu(s, tau, rho) > 0.0 by {
      if rho == 0 {
        assert s[..1] == [s[0]];
        assert Sum([s[0]]) == s[0] by {
          assert [s[0]][..0] == [];
        }
      }
    }
    if rho + 1 < |s| {
      assert Nu(s, tau, rho + 1) <= 0.0;
      NextBelowTheta(s, tau, rho);
    }
  }

  /**
   * When nu at rho + 1 is not positive, the entry there, and so every later one, lies at or
   * below the excess of the first rho + 1 entries per entry.
   */
  lemma NextBelowTheta(s: seq<real>, tau: real, rho: nat)
    requires rho + 1 < |s| && Descending(s) && Nu(s, tau, rho + 1) <= 0.0
    ensures forall i :: rho < i < |s| ==> s[i] <= (Sum(s[..rho + 1]) - tau) / (rho + 1) as real
  {
    var c := Sum(s[..rho + 1]);
    var m := (rho + 1) as real;
    var x := s[rho + 1];
    SumPrefix(s, rho + 1);
    assert x <= (c + x - tau) / (m + 1.0);
    LeDiv(x, c + x - tau, m + 1.0);
    assert x * m <= c - tau;
    LeDiv(x, c - tau, m);
    forall i | rho < i < |s|
      ensures s[i] <= (c - tau) / m
    {
      if i > rho + 1 {
        assert s[i] <= s[rho + 1];
      }
    }
  }

  /** Shrinking the sorted magnitudes by the threshold leaves exactly tau. */
  lemma ShrunkSortedSum(s: seq<real>, tau: real)
    requires |s| > 0 && Descending(s) && tau > 0.0
    ensures Sum(Shrink(s, Theta(s, tau))) == tau
  {
    var rho := Search(s, tau, |s| - 1);
    var theta := Theta(s, tau);
    assert theta == (Sum(s[..rho + 1]) - tau) / (rho + 1) as real;
    ThetaSplits(s, tau);
    ShrinkAtThreshold(s, tau, rho, theta);
  }

  /** A threshold splitting s after index rho with the excess of the first rho + 1 leaves tau. */
  lemma ShrinkAtThreshold(s: seq<real>, tau: real, rho: nat, theta: real)
    requires rho < |s|
    requires forall i :: 0 <= i <= rho ==> s[i] > theta
    requires forall i :: rho < i < |s| ==> s[i] <= theta
    requires theta == (Sum(s[..rho + 1]) - tau) / (rho + 1) as real
    ensures Sum(Shrink(s, theta)) == tau
  {
    ShrinkAtSplit(s, theta, rho + 1);
    QuotientTimes(Sum(s[..rho + 1]) - tau, (rho + 1) as real);
  }

  /** Entries above theta up to k and at most theta after: the shrunk sum is the prefix's excess. */
  lemma ShrinkAtSplit(s: seq<real>, theta: real, k: nat)
    requires k <= |s|
    requires forall i :: 0 <= i < k ==> s[i] > theta
    requires forall i :: k <= i < |s| ==> s[i] <= theta
    ensures Sum(Shrink(s, theta)) == Sum(s[..k]) - k as real * theta
  {
    ShrinkSplitSum(s, theta, k);
    ShrinkAbovePrefix(s, theta, k);
    ShrinkBelowSuffix(s, theta, k);
  }

  lemma ShrinkSplitSum(s: seq<real>, theta: real, k: nat)
    requires k <= |s|
    ensures Sum(Shrink(s, theta)) == Sum(Shrink(s[..k], theta)) + Sum(Shrink(s[k..], theta))
  {
    assert s == s[..k] + s[k..];
    SumShrinkConcat(s[..k], s[k..], theta);
  }

  lemma ShrinkAbovePrefix(s: seq<real>, theta: real, k: nat)
    requires k <= |s|
    requires forall i :: 0 <= i < k ==> s[i] > theta
    ensures Sum(Shrink(s[..k], theta)) == Sum(s[..k]) - k as real * theta
  {
    SumShrinkAbove(s[..k], theta);
  }

  lemma ShrinkBelowSuffix(s: seq<real>, theta: real, k: nat)
    requires k <= |s|
    requires forall i :: k <= i < |s| ==> s[i] <= theta
    ensures Sum(Shrink(s[k..], theta)) == 0.0
  {
    SumShrinkBelow(s[k..], theta);
  }

  lemma QuotientTimes(a: real, m: real)
    requires m != 0.0
    ensures a / m * m == a
  {
  }

  /** Outside the ball the projection is the threshold of the sorted magnitudes. */
  lemma ProjectL1Outside(v: seq<real>, tau: real)
    requires L1Norm(v) > tau && (|v| > 0 || tau >= 0.0)
    ensures |v| > 0
    ensures ProjectL1(v, tau) == Threshold(v, Theta(Magnitudes(v), tau))
  {
  }

  /**
   * Outside the ball, the projection lands on its surface: with tau > 0 and a norm above
   * tau, the thresholded vector has norm exactly tau.
   */
  lemma ProjectL1OnSphere(v: seq<real>, tau: real)
    requires tau > 0.0 && L1Norm(v) > tau
    ensures L1Norm(ProjectL1(v, tau)) == tau
  {
    ProjectL1Outside(v, tau);
    var s := Magnitudes(v);
    var theta := Theta(s, tau);
    ShrunkSortedSum(s, tau);
    SumShrinkPermutation(AbsAll(v), s, theta);
    ThresholdMagnitudes(v, theta);
  }

  /**
   * The threshold is positive, so outside the ball no entry grows in magnitude and every
   * magnitude drops by the threshold or to zero.
   */
  lemma ProjectL1Shrinks(v: seq<real>, tau: real)
    requires tau > 0.0 && L1Norm(v) > tau
    ensures Theta(Magnitudes(v), tau) > 0.0
    ensures forall j :: 0 <= j < |v| ==> Abs(ProjectL1(v, tau)[j]) <= Abs(v[j])
  {
    ProjectL1Outside(v, tau);
    ThetaPositive(v, tau);
  }

  /** Outside the ball the threshold is positive: a threshold at or below 0 would keep the norm above tau. */
  lemma ThetaPositive(v: seq<real>, tau: real)
    requires tau > 0.0 && L1Norm(v) > tau && |v| > 0
    ensures Theta(Magnitudes(v), tau) > 0.0
  {
    var s := Magnitudes(v);
    var theta := Theta(s, tau);
    ShrunkSortedSum(s, tau);
    if theta <= 0.0 {
      SumShrinkGrows(s, theta);
      MagnitudesSum(v);
      assert false;
    }
  }

  /** The sorted magnitudes, shrunk by 0, still sum to the L1 norm. */
  lemma MagnitudesSum(v: seq<real>)
    ensures Sum(Shrink(Magnitudes(v), 0.0)) == L1Norm(v)
  {
    var a := AbsAll(v);
    SumShrinkPermutation(a, Magnitudes(v), 0.0);
    assert Shrink(a, 0.0) == a;
  }

  /** With a threshold that is not positive, shrinking does not lower the sum of non-negative entries. */
  lemma {:induction false} SumShrinkGrows(t: seq<real>, theta: real)
    requires theta <= 0.0
    ensures Sum(Shrink(t, theta)) >= Sum(Shrink(t, 0.0))
    decreases |t|
  {
    if |t| > 0 {
      var init := t[..|t| - 1];
      SumShrinkGrows(init, theta);
      assert Shrink(t, theta)[..|t| - 1] == Shrink(init, theta);
      assert Shrink(t, 0.0)[..|t| - 1] == Shrink(init, 0.0);
    }
  }

  /** The search loop of ProjectToL1Ball: rho from n − 1 down, until nu is positive. */
  method SearchRho(simplexSol: seq<real>, simplexSum: seq<real>, tau: real) returns (rho: nat)
    requires |simplexSol| > 0 && simplexSum == CumSum(simplexSol)
    ensures rho == Search(simplexSol, tau, |simplexSol| - 1)
  {
    var n := |simplexSol|;
    rho := n - 1;
    var j := 1;
    while j <= n
      invariant 1 <= j <= n + 1
      invariant j > 1 ==> rho == n - (j - 1)
      invariant j == 1 ==> rho == n - 1
      invariant forall q :: n - j < q < n ==> Nu(simplexSol, tau, q) <= 0.0
    {
      rho := n - j;
      var nu := simplexSol[rho] - (simplexSum[rho] - tau) / (rho + 1) as real;
      if nu > 0.0 {
        SearchUnique(simplexSol, tau, n - 1, rho);
        return;
      }
      j := j + 1;
    }
    SearchUnique(simplexSol, tau, n - 1, rho);
  }

  /** The thresholding loop: every entry soft-thresholded by theta, in place. */
  method ApplyThreshold(v: array<real>, theta: real)
    modifies v
    ensures v[..] == Threshold(old(v[..]), theta)
  {
    for j := 0 to v.Length
      invariant forall i :: 0 <= i < j ==> v[i] == Soft(old(v[i]), theta)
      invariant forall i :: j <= i < v.Length ==> v[i] == old(v[i])
    {
      if v[j] >= 0.0 {
        v[j] := ClampBelow(v[j] - theta, 0.0);
      } else {
        v[j] := -ClampBelow(-v[j] - theta, 0.0);
      }
    }
  }

  /**
   * ProjectToL1Ball, with the threshold divided by rho + 1: nothing changes inside the ball;
   * outside it the magnitudes are sorted, the search finds rho and every entry is
   * soft-thresholded.
   */
  method ProjectToL1Ball(v: array<real>, tau: real)
    requires v.Length > 0 || tau >= 0.0
    modifies v
    ensures v[..] == ProjectL1(old(v[..]), tau)
  {
    var simplexSol := AbsAll(v[..]);
    if Sum(simplexSol) <= tau {
      return;
    }
    assert v.Length > 0;
    simplexSol := SortDescending(simplexSol);
    var simplexSum := CumSum(simplexSol);
    var rho := SearchRho(simplexSol, simplexSum, tau);
    var theta := (simplexSum[rho] - tau) / (rho + 1) as real;
    ghost var w := v[..];
    ThresholdOfSearch(w, tau, simplexSol, simplexSum, rho, theta);
    ApplyThreshold(v, theta);
  }

  /** The threshold computed from the cumulative sums at the searched index is the projection's. */
  lemma ThresholdOfSearch(w: seq<real>, tau: real, s: seq<real>, c: seq<real>, rho: nat, theta: real)
    requires L1Norm(w) > tau && (|w| > 0 || tau >= 0.0)
    requires s == SortDescending(AbsAll(w)) && c == CumSum(s)
    requires |s| > 0 && rho == Search(s, tau, |s| - 1)
    requires theta == (c[rho] - tau) / (rho + 1) as real
    ensures ProjectL1(w, tau) == Threshold(w, theta)
  {
    ThetaFromCumSum(s, tau, c, rho, theta);
    assert Magnitudes(w) == s;
    ProjectL1Outside(w, tau);
  }

  lemma ThetaFromCumSum(s: seq<real>, tau: real, c: seq<real>, rho: nat, theta: real)
    requires |s| > 0 && c == CumSum(s) && rho == Search(s, tau, |s| - 1)
    requires theta == (c[rho] - tau) / (rho + 1) as real
    ensures Theta(s, tau) == theta
  {
  }

  // ---------------------------------------------------------------- the L0 ball

  /** What sort_index(abs(v)) returns: every index of v once, by ascending magnitude. */
  predicate SortsByMagnitude(v: seq<real>, order: seq<nat>) {
    && |order| == |v|
    && (forall i :: 0 <= i < |order| ==> order[i] < |v|)
    && (forall j :: 0 <= j < |v| ==> j in order)
    && (forall i, j :: 0 <= i < j < |order| ==> Abs(v[order[i]]) <= Abs(v[order[j]]))
  }

  /** The indices a list names. */
  function Image(s: seq<nat>): (S: set<int>)
    ensures forall x :: x in S <==> x >= 0 && x as nat in s
    ensures |S| <= |s|
  {
    if |s| == 0 then {} else {s[0] as int} + Image(s[1..])
  }

  /** The indices the first k positions of the order name. */
  function Killed(order: seq<nat>, k: nat): set<int>
    requires k <= |order|
  {
    Image(order[..k])
  }

  /** ProjectToL0Ball on values: the first n − tau indices of the order set to zero. */
  function ProjectL0(v: seq<real>, order: seq<nat>, tau: nat): (w: seq<real>)
    requires tau <= |v| && |order| == |v|
    ensures |w| == |v|
  {
    var dead := Killed(order, |v| - tau);
    seq(|v|, j requires 0 <= j < |v| => if j in dead then 0.0 else v[j])
  }

  /** The indices of the nonzero entries. */
  function Support(w: seq<real>): set<int> {
    set j | 0 <= j < |w| && w[j] != 0.0
  }

  /** A subset is no larger. */
  lemma SubsetSize(a: set<int>, b: set<int>)
    requires a <= b
    ensures |a| <= |b|
  {
    assert b == a + (b - a);
    assert a * (b - a) == {};
  }

  /** After ProjectToL0Ball at most tau entries are nonzero. */
  lemma ProjectL0Sparse(v: seq<real>, order: seq<nat>, tau: nat)
    requires tau <= |v| && SortsByMagnitude(v, order)
    ensures |Support(ProjectL0(v, order, tau))| <= tau
  {
    var n := |v|;
    var w := ProjectL0(v, order, tau);
    var kept := Image(order[n - tau..]);
    forall j | j in Support(w)
      ensures j in kept
    {
      assert j !in Killed(order, n - tau);
      assert j in order;
      var i :| 0 <= i < n && order[i] == j;
      assert i >= n - tau;
      assert order[n - tau..][i - (n - tau)] == j;
    }
    SubsetSize(Support(w), kept);
  }

  /**
   * ProjectToL0Ball keeps the tau entries of largest magnitude: every entry it keeps is
   * unchanged, every entry it zeroes had a magnitude no larger than any entry it keeps.
   */
  lemma ProjectL0KeepsLargest(v: seq<real>, order: seq<nat>, tau: nat)
    requires tau <= |v| && SortsByMagnitude(v, order)
    ensures forall j :: 0 <= j < |v| && j !in Killed(order, |v| - tau) ==> ProjectL0(v, order, tau)[j] == v[j]
    ensures forall j :: 0 <= j < |v| && j in Killed(order, |v| - tau) ==> ProjectL0(v, order, tau)[j] == 0.0
    ensures forall j, k :: 0 <= j < |v| && 0 <= k < |v| && j in Killed(order, |v| - tau) && k !in Killed(order, |v| - tau) ==>
      Abs(v[j]) <= Abs(v[k])
  {
    var n := |v|;
    forall j, k | 0 <= j < n && 0 <= k < n && j in Killed(order, n - tau) && k !in Killed(order, n - tau)
      ensures Abs(v[j]) <= Abs(v[k])
    {
      var a :| 0 <= a < n - tau && order[..n - tau][a] == j;
      assert k in order;
      var b :| 0 <= b < n && order[b] == k;
      assert b >= n - tau;
      assert order[a] == j;
    }
  }

  /**
   * ProjectToL0Ball: with the indices by ascending magnitude, the first n − tau of them are
   * set to zero. tau must lie in 0 … n, since n − tau is computed unsigned.
   */
  method ProjectToL0Ball(v: array<real>, tau: int, order: seq<nat>)
    requires 0 <= tau <= v.Length && SortsByMagnitude(v[..], order)
    modifies v
    ensures v[..] == ProjectL0(old(v[..]), order, tau)
  {
    var numberToKill := v.Length - tau;
    for i := 0 to numberToKill
      invariant forall j :: 0 <= j < v.Length ==> v[j] == if j in Killed(order, i) then 0.0 else old(v[j])
    {
      assert order[..i + 1] == order[..i] + [order[i]];
      v[order[i]] := 0.0;
    }
  }
}
