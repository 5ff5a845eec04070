/**
 * The curve the interface draws: a list of damping modes, a frequency grid, one cached
 * response row per mode and their sum; and the control points a user enters, two parallel
 * lists handed to a fit as a frequency-sorted sampling.
 */
module DampingCurves {
  import opened RealMath
  import opened DampingModes
  import opened Wrappers

  /** QVector::resize: the first n entries are kept, new entries are zero. */
  function Resize(s: seq<real>, n: nat): (r: seq<real>)
    ensures |r| == n
    ensures forall i :: 0 <= i < n ==> r[i] == if i < |s| then s[i] else 0.0
  {
    if n <= |s| then s[..n] else s + Zeros(n - |s|)
  }

  /** zeta.resize(m) followed by resizing every row to n entries. */
  function ResizeRows(z: seq<seq<real>>, m: nat, n: nat): (r: seq<seq<real>>)
    ensures |r| == m
    ensures forall j :: 0 <= j < m ==> |r[j]| == n
  {
    var r := seq(m, j requires 0 <= j < m => Resize(if j < |z| then z[j] else [], n));
    assert forall j :: 0 <= j < m ==> r[j] == Resize(if j < |z| then z[j] else [], n);
    r
  }

  /**
   * removeMode(tag) and removePoint(tag) on a list: −1 clears it, an index below the length
   * erases exactly that entry and keeps the others in order, a larger tag leaves it alone.
   */
  function RemoveTag<T>(s: seq<T>, tag: int): (r: seq<T>)
    requires tag >= -1
    ensures tag == -1 ==> r == []
    ensures 0 <= tag < |s| ==>
      |r| == |s| - 1 && multiset(r) + multiset{s[tag]} == multiset(s)
      && (forall i :: 0 <= i < tag ==> r[i] == s[i])
      && (forall i :: tag <= i < |r| ==> r[i] == s[i + 1])
    ensures tag >= |s| ==> r == s
  {
    if tag == -1 then []
    else if tag < |s| then
      assert s == s[..tag] + [s[tag]] + s[tag + 1..];
      s[..tag] + s[tag + 1..]
    else s
  }

  /** The frequencies updateLinearDampingCurve writes: i/(samples − 1)·(end − start) + start. */
  function LinearGrid(start: real, end: real, samples: nat): (g: seq<real>)
    requires samples != 1
    ensures |g| == samples
  {
    seq(samples, i requires 0 <= i < samples => (i as real) / (samples as real - 1.0) * (end - start) + start)
  }

  /** (a + 1)/d·g − a/d·g = g/d. */
  lemma StepDifference(a: real, d: real, g: real)
    requires d != 0.0
    ensures (a + 1.0) / d * g - a / d * g == g / d
  {
    assert (a + 1.0) / d == a / d + 1.0 / d;
    assert (a / d + 1.0 / d) * g == a / d * g + 1.0 / d * g;
    assert 1.0 / d * g == g / d;
  }

  /** With at least two samples the linear grid starts at `start` and ends at `end`. */
  lemma LinearGridEnds(start: real, end: real, samples: nat)
    requires samples >= 2
    ensures LinearGrid(start, end, samples)[0] == start
    ensures LinearGrid(start, end, samples)[samples - 1] == end
  {
    var d := samples as real - 1.0;
    DivSelf(d);
    assert (samples - 1) as real == d;
  }

  /** Neighbouring grid frequencies are (end − start)/(samples − 1) apart. */
  lemma LinearGridStep(start: real, end: real, samples: nat, i: nat)
    requires samples >= 2 && i < samples - 1
    ensures LinearGrid(start, end, samples)[i + 1] - LinearGrid(start, end, samples)[i] ==
      (end - start) / (samples as real - 1.0)
  {
    StepDifference(i as real, samples as real - 1.0, end - start);
    assert (i + 1) as real == i as real + 1.0;
  }

  /**
   * The linear grid is evenly spaced by (end − start)/(samples − 1), so it rises when
   * end > start.
   */
  lemma LinearGridShape(start: real, end: real, samples: nat)
    requires samples >= 2
    ensures forall i :: 0 <= i < samples - 1 ==>
      LinearGrid(start, end, samples)[i + 1] - LinearGrid(start, end, samples)[i] == (end - start) / (samples as real - 1.0)
    ensures end > start ==> forall i :: 0 <= i < samples - 1 ==>
      LinearGrid(start, end, samples)[i] < LinearGrid(start, end, samples)[i + 1]
  {
    forall i | 0 <= i < samples - 1 {
      LinearGridStep(start, end, samples, i);
    }
    if end > start {
      DivPositive(end - start, samples as real - 1.0);
    }
  }

  /** The frequencies updateLogarithmicDampingCurve writes: 10 to the linear grid between the logarithms. */
  function LogGrid(e: Elementary, start: real, end: real, samples: nat): (g: seq<real>)
    requires samples != 1
    ensures |g| == samples
    ensures forall i :: 0 <= i < samples ==>
      g[i] == e.pow(10.0, LinearGrid(e.log10(start), e.log10(end), samples)[i])
  {
    var l := LinearGrid(e.log10(start), e.log10(end), samples);
    seq(samples, i requires 0 <= i < samples => e.pow(10.0, l[i]))
  }

  /** The logarithmic grid is positive, and rises when log10(end) > log10(start). */
  lemma LogGridShape(e: Elementary, start: real, end: real, samples: nat)
    requires Sound(e) && samples >= 2
    ensures forall i :: 0 <= i < samples ==> LogGrid(e, start, end, samples)[i] > 0.0
    ensures e.log10(end) > e.log10(start) ==> forall i :: 0 <= i < samples - 1 ==>
      LogGrid(e, start, end, samples)[i] < LogGrid(e, start, end, samples)[i + 1]
  {
    var l := LinearGrid(e.log10(start), e.log10(end), samples);
    LinearGridShape(e.log10(start), e.log10(end), samples);
    if e.log10(end) > e.log10(start) {
      forall i | 0 <= i < samples - 1
        ensures e.pow(10.0, l[i]) < e.pow(10.0, l[i + 1])
      {
        Pow10Monotone(e, l[i], l[i + 1]);
      }
    }
  }

  /** Every mode is defined at ω. */
  predicate AllDefined(e: Elementary, ms: seq<DampingMode>, omega: real)
    reads ms
  {
    forall j :: 0 <= j < |ms| ==> ms[j].IsDefined(e, omega)
  }

  /** Every mode is defined at every frequency of ws. */
  predicate DefinedOn(e: Elementary, ms: seq<DampingMode>, ws: seq<real>)
    reads ms
  {
    forall i :: 0 <= i < |ws| ==> AllDefined(e, ms, ws[i])
  }

  /** Each mode's value at ω, in list order. */
  function ModeColumn(e: Elementary, ms: seq<DampingMode>, omega: real): (c: seq<real>)
    reads ms
    requires AllDefined(e, ms, omega)
    ensures |c| == |ms|
    ensures forall j :: 0 <= j < |ms| ==> c[j] == ms[j].Value(e, omega)
  {
    seq(|ms|, j reads ms requires 0 <= j < |ms| && ms[j].IsDefined(e, omega) => ms[j].Value(e, omega))
  }

  /** The mode columns at every frequency of a grid. */
  function GridColumns(e: Elementary, ms: seq<DampingMode>, ws: seq<real>): (c: seq<seq<real>>)
    reads ms
    requires DefinedOn(e, ms, ws)
    ensures |c| == |ws|
    ensures forall i :: 0 <= i < |ws| ==> c[i] == ModeColumn(e, ms, ws[i])
  {
    seq(|ws|, i reads ms requires 0 <= i < |ws| && AllDefined(e, ms, ws[i]) => ModeColumn(e, ms, ws[i]))
  }

  /** Mode m's value at every frequency of ws. */
  function ModeRow(e: Elementary, m: DampingMode, ws: seq<real>): (r: seq<real>)
    reads m
    requires forall i :: 0 <= i < |ws| ==> m.IsDefined(e, ws[i])
    ensures |r| == |ws|
    ensures forall i :: 0 <= i < |ws| ==> r[i] == m.Value(e, ws[i])
  {
    seq(|ws|, i reads m requires 0 <= i < |ws| && m.IsDefined(e, ws[i]) => m.Value(e, ws[i]))
  }

  /** One row per mode: the rows that computeCurve writes into zeta. */
  function ModeRows(e: Elementary, ms: seq<DampingMode>, ws: seq<real>): (r: seq<seq<real>>)
    reads ms
    requires DefinedOn(e, ms, ws)
    ensures |r| == |ms|
    ensures forall j :: 0 <= j < |ms| ==> r[j] == ModeRow(e, ms[j], ws)
  {
    seq(|ms|, j reads ms requires 0 <= j < |ms| && DefinedOn(e, ms, ws) => ModeRow(e, ms[j], ws))
  }

  /** The rows and the columns are the same table read two ways. */
  lemma RowsAreColumns(e: Elementary, ms: seq<DampingMode>, ws: seq<real>)
    requires DefinedOn(e, ms, ws)
    ensures forall i :: 0 <= i < |ws| ==> |GridColumns(e, ms, ws)[i]| == |ms|
    ensures forall j, i :: 0 <= j < |ms| && 0 <= i < |ws| ==> ModeRows(e, ms, ws)[j][i] == GridColumns(e, ms, ws)[i][j]
  {
    var rows, cols := ModeRows(e, ms, ws), GridColumns(e, ms, ws);
    forall i | 0 <= i < |ws|
      ensures |cols[i]| == |ms|
    {
      assert AllDefined(e, ms, ws[i]);
    }
    forall j, i | 0 <= j < |ms| && 0 <= i < |ws|
      ensures rows[j][i] == cols[i][j]
    {
      assert AllDefined(e, ms, ws[i]);
      assert rows[j] == ModeRow(e, ms[j], ws);
      assert cols[i] == ModeColumn(e, ms, ws[i]);
    }
  }

  /** Entry i is entry i of `s0` plus the first j values of column i. */
  function PartialSums(s0: seq<real>, cols: seq<seq<real>>, j: nat): (s: seq<real>)
    requires |s0| == |cols| && forall i :: 0 <= i < |cols| ==> j <= |cols[i]|
    ensures |s| == |cols|
  {
    seq(|cols|, i requires 0 <= i < |cols| => s0[i] + Sum(cols[i][..j]))
  }

  /** Adding value j of every column extends the partial sums by one. */
  lemma SumsStep(s0: seq<real>, prev: seq<real>, next: seq<real>, cols: seq<seq<real>>, j: nat)
    requires |s0| == |cols| && forall i :: 0 <= i < |cols| ==> j < |cols[i]|
    requires prev == PartialSums(s0, cols, j) && |next| == |prev|
    requires forall i :: 0 <= i < |cols| ==> next[i] == prev[i] + cols[i][j]
    ensures next == PartialSums(s0, cols, j + 1)
  {
    forall i | 0 <= i < |cols|
      ensures next[i] == PartialSums(s0, cols, j + 1)[i]
    {
      SumPrefix(cols[i], j);
    }
  }

  /** Once every value is added, each entry is its start plus the whole column. */
  lemma SumsComplete(s0: seq<real>, cols: seq<seq<real>>, n: nat)
    requires |s0| == |cols| && forall i :: 0 <= i < |cols| ==> |cols[i]| == n
    ensures forall i :: 0 <= i < |cols| ==> PartialSums(s0, cols, n)[i] == s0[i] + Sum(cols[i])
  {
    forall i | 0 <= i < |cols|
      ensures PartialSums(s0, cols, n)[i] == s0[i] + Sum(cols[i])
    {
      assert cols[i][..n] == cols[i];
    }
  }

  class DampingCurve {
    var modes: seq<DampingMode>
    var zeta: seq<seq<real>>
    var zetaSum: seq<real>
    var omega: seq<real>

    constructor()
      ensures modes == [] && zeta == [] && zetaSum == [] && omega == []
    {
      modes, zeta, zetaSum, omega := [], [], [], [];
    }

    /** The curve owns its modes: no mode is listed twice, and each has its parameters. */
    ghost predicate Valid()
      reads this, modes
    {
      && (forall j, k :: 0 <= j < k < |modes| ==> modes[j] != modes[k])
      && (forall j :: 0 <= j < |modes| ==> |modes[j].p| >= ParamCount(modes[j].kind))
    }


    /**
     * The caches describe the grid: one row per mode with mode j's value at every grid
     * frequency, and zeta_sum the sum over the modes at each frequency.
     */
    predicate Cached(e: Elementary)
      reads this, modes
    {
      && DefinedOn(e, modes, omega)
      && zeta == ModeRows(e, modes, omega) && |zetaSum| == |omega|
      && (forall i :: 0 <= i < |omega| ==> zetaSum[i] == Sum(ModeColumn(e, modes, omega[i])))
    }

    /** addMode: the new mode goes to the end of the list. */
    method AddMode(m: DampingMode)
      requires Valid() && m !in modes && |m.p| >= ParamCount(m.kind)
      modifies this`modes
      ensures modes == old(modes) + [m] && Valid()
    {
      modes := modes + [m];
    }

    /** removeMode(tag), for tag ≥ −1. */
    method RemoveMode(tag: int)
      requires tag >= -1 && Valid()
      modifies this`modes
      ensures modes == RemoveTag(old(modes), tag) && Valid()
    {
      if tag == -1 {
        modes := [];
        return;
      }
      if tag < |modes| {
        modes := modes[..tag] + modes[tag + 1..];
        return;
      }
    }

    function Count(): (n: int)
      reads this
      ensures n == |modes|
    {
      |modes|
    }

    /** initializeVector: resizes the grid, the sum and the rows; old entries survive. */
    method InitializeVector(samples: nat)
      modifies this`omega, this`zetaSum, this`zeta
      ensures omega == Resize(old(omega), samples) && zetaSum == Resize(old(zetaSum), samples)
      ensures zeta == ResizeRows(old(zeta), |modes|, samples)
    {
      omega := Resize(omega, samples);
      zetaSum := Resize(zetaSum, samples);
      zeta := ResizeRows(zeta, |modes|, samples);
    }

    /**
     * computeCurve: row j receives mode j's value at every grid frequency and each value is
     * added to zeta_sum, so zeta_sum ends as its old value plus the sum over the modes.
     */
    method ComputeCurve(e: Elementary)
      requires DefinedOn(e, modes, omega) && |zeta| == |modes| && |zetaSum| == |omega|
      requires forall j :: 0 <= j < |modes| ==> |zeta[j]| == |omega|
      modifies this`zeta, this`zetaSum
      ensures zeta == ModeRows(e, modes, omega) && |zetaSum| == |omega|
      ensures forall i :: 0 <= i < |omega| ==> zetaSum[i] == old(zetaSum[i]) + Sum(ModeColumn(e, modes, omega[i]))
    {
      ghost var cols := GridColumns(e, modes, omega);
      ghost var sum0 := zetaSum;
      RowsAreColumns(e, modes, omega);
      ComputeRows(e, ModeRows(e, modes, omega), cols);
      SumsComplete(sum0, cols, |modes|);
    }

    /** The loop of computeCurve over the modes, with the modes' rows and the grid's columns. */
    method ComputeRows(e: Elementary, ghost rows: seq<seq<real>>, ghost cols: seq<seq<real>>)
      requires DefinedOn(e, modes, omega) && |zeta| == |modes| && |zetaSum| == |omega|
      requires forall j :: 0 <= j < |modes| ==> |zeta[j]| == |omega|
      requires rows == ModeRows(e, modes, omega) && |cols| == |omega|
      requires forall i :: 0 <= i < |omega| ==> |cols[i]| == |modes|
      requires forall j, i :: 0 <= j < |modes| && 0 <= i < |omega| ==> rows[j][i] == cols[i][j]
      modifies this`zeta, this`zetaSum
      ensures zeta == rows && zetaSum == PartialSums(old(zetaSum), cols, |modes|)
    {
      ghost var sum0 := zetaSum;
      var j := 0;
      while j < |modes|
        invariant 0 <= j <= |modes| && |zeta| == |modes| && |zetaSum| == |omega|
        invariant forall k :: 0 <= k < |modes| ==> |zeta[k]| == |omega|
        invariant forall k :: 0 <= k < j ==> zeta[k] == rows[k]
        invariant zetaSum == PartialSums(sum0, cols, j)
      {
        ghost var before := zetaSum;
        ComputeRow(e, j, rows[j]);
        SumsStep(sum0, before, zetaSum, cols, j);
        j := j + 1;
      }
    }

    /** The inner loop of computeCurve for mode j, whose values on the grid are `row`. */
    method ComputeRow(e: Elementary, j: nat, ghost row: seq<real>)
      requires DefinedOn(e, modes, omega) && j < |zeta| == |modes| && |zetaSum| == |omega|
      requires forall k :: 0 <= k < |modes| ==> |zeta[k]| == |omega|
      requires row == ModeRow(e, modes[j], omega)
      modifies this`zeta, this`zetaSum
      ensures zeta == old(zeta)[j := row]
      ensures |zetaSum| == |omega| && forall i :: 0 <= i < |omega| ==> zetaSum[i] == old(zetaSum[i]) + row[i]
    {
      var i := 0;
      while i < |omega|
        invariant 0 <= i <= |omega| && |zeta| == |modes| && |zetaSum| == |omega| && |zeta[j]| == |omega|
        invariant forall k :: 0 <= k < |modes| && k != j ==> zeta[k] == old(zeta[k])
        invariant forall h :: 0 <= h < i ==> zeta[j][h] == row[h]
        invariant forall h :: 0 <= h < i ==> zetaSum[h] == old(zetaSum[h]) + row[h]
        invariant forall h :: i <= h < |omega| ==> zetaSum[h] == old(zetaSum[h])
      {
        assert AllDefined(e, modes, omega[i]);
        var v := modes[j].Value(e, omega[i]);
        zeta := zeta[j := zeta[j][i := v]];
        zetaSum := zetaSum[i := zetaSum[i] + v];
        i := i + 1;
      }
      assert zeta[j] == row;
    }

    /** updateLinearDampingCurve: a linear grid of `samples` frequencies, then the caches. */
    method UpdateLinearDampingCurve(e: Elementary, start: real, end: real, samples: nat)
      requires samples != 1 && DefinedOn(e, modes, LinearGrid(start, end, samples))
      modifies this`omega, this`zetaSum, this`zeta
      ensures omega == LinearGrid(start, end, samples) && Cached(e)
    {
      InitializeVector(samples);
      FillLinearGrid(start, end, samples);
      ComputeCurve(e);
    }

    /** The sampling loop of updateLinearDampingCurve: the grid, and zeta_sum cleared. */
    method FillLinearGrid(start: real, end: real, samples: nat)
      requires samples != 1 && |omega| == samples && |zetaSum| == samples
      modifies this`omega, this`zetaSum
      ensures omega == LinearGrid(start, end, samples) && zetaSum == Zeros(samples)
    {
      var gap := end - start;
      var i := 0;
      while i < samples
        invariant 0 <= i <= samples && |omega| == samples && |zetaSum| == samples
        invariant forall h :: 0 <= h < i ==> omega[h] == LinearGrid(start, end, samples)[h] && zetaSum[h] == 0.0
      {
        omega := omega[i := (i as real) / (samples as real - 1.0) * gap + start];
        zetaSum := zetaSum[i := 0.0];
        i := i + 1;
      }
      assert omega == LinearGrid(start, end, samples);
      assert zetaSum == Zeros(samples);
    }

    /** updateLogarithmicDampingCurve: the same on a logarithmic grid. */
    method UpdateLogarithmicDampingCurve(e: Elementary, start: real, end: real, samples: nat)
      requires samples != 1 && DefinedOn(e, modes, LogGrid(e, start, end, samples))
      modifies this`omega, this`zetaSum, this`zeta
      ensures omega == LogGrid(e, start, end, samples) && Cached(e)
    {
      InitializeVector(samples);
      FillLogGrid(e, start, end, samples);
      ComputeCurve(e);
    }

    /** The sampling loop of updateLogarithmicDampingCurve: the grid, and zeta_sum cleared. */
    method FillLogGrid(e: Elementary, start: real, end: real, samples: nat)
      requires samples != 1 && |omega| == samples && |zetaSum| == samples
      modifies this`omega, this`zetaSum
      ensures omega == LogGrid(e, start, end, samples) && zetaSum == Zeros(samples)
    {
      var logStart, logEnd := e.log10(start), e.log10(end);
      var gap := logEnd - logStart;
      ghost var grid := LogGrid(e, start, end, samples);
      var i := 0;
      while i < samples
        invariant 0 <= i <= samples && |omega| == samples && |zetaSum| == samples
        invariant forall h :: 0 <= h < i ==> omega[h] == grid[h] && zetaSum[h] == 0.0
      {
        var x := (i as real) / (samples as real - 1.0) * gap + logStart;
        assert x == LinearGrid(logStart, logEnd, samples)[i];
        var w := e.pow(10.0, x);
        assert w == grid[i];
        omega := omega[i := w];
        zetaSum := zetaSum[i := 0.0];
        i := i + 1;
      }
      assert omega == grid;
      assert zetaSum == Zeros(samples);
    }

    /** query(ω): the modes' values at ω added up in list order. */
    method Query(e: Elementary, w: real) returns (out: real)
      requires AllDefined(e, modes, w)
      ensures out == Sum(ModeColumn(e, modes, w))
    {
      out := 0.0;
      var j := 0;
      while j < |modes|
        invariant 0 <= j <= |modes| && out == Sum(ModeColumn(e, modes, w)[..j])
      {
        SumPrefix(ModeColumn(e, modes, w), j);
        out := out + modes[j].Value(e, w);
        j := j + 1;
      }
      assert ModeColumn(e, modes, w)[..|modes|] == ModeColumn(e, modes, w);
    }

    /** getDampingRatioVector(tag): the sum for −1, otherwise row tag. */
    function DampingRatioVector(tag: int): (r: seq<real>)
      reads this
      requires tag == -1 || 0 <= tag < |zeta|
      ensures tag == -1 ==> r == zetaSum
      ensures tag != -1 ==> r == zeta[tag]
    {
      if tag == -1 then zetaSum else zeta[tag]
    }

    function MinFrequency(): (r: real)
      reads this
      requires |omega| > 0
      ensures (exists k :: 0 <= k < |omega| && omega[k] == r) && forall k :: 0 <= k < |omega| ==> r <= omega[k]
    {
      MinOf(omega)
    }

    function MaxFrequency(): (r: real)
      reads this
      requires |omega| > 0
      ensures (exists k :: 0 <= k < |omega| && omega[k] == r) && forall k :: 0 <= k < |omega| ==> r >= omega[k]
    {
      MaxOf(omega)
    }

    /**
     * minDampingRatio: the smallest of 0, every cached entry and every sum, but never below −1.
     * Every row and the sum must be non-empty, as min_element is dereferenced.
     */
    method MinDampingRatio() returns (r: real)
      requires |zetaSum| > 0 && forall j :: 0 <= j < |zeta| ==> |zeta[j]| > 0
      ensures -1.0 <= r <= 0.0
      ensures r > -1.0 ==>
        (forall j, i :: 0 <= j < |zeta| && 0 <= i < |zeta[j]| ==> r <= zeta[j][i])
        && forall i :: 0 <= i < |zetaSum| ==> r <= zetaSum[i]
      ensures r == 0.0 || r == -1.0 || (exists i :: 0 <= i < |zetaSum| && zetaSum[i] == r)
        || exists j, i :: 0 <= j < |zeta| && 0 <= i < |zeta[j]| && zeta[j][i] == r
      ensures r == -1.0 <==>
        (exists j, i :: 0 <= j < |zeta| && 0 <= i < |zeta[j]| && zeta[j][i] <= -1.0)
        || exists i :: 0 <= i < |zetaSum| && zetaSum[i] <= -1.0
    {
      var m := 0.0;
      var j := 0;
      while j < |zeta|
        invariant 0 <= j <= |zeta| && m <= 0.0
        invariant forall k, i :: 0 <= k < j && 0 <= i < |zeta[k]| ==> m <= zeta[k][i]
        invariant m == 0.0 || exists k, i :: 0 <= k < j && 0 <= i < |zeta[k]| && zeta[k][i] == m
      {
        var low := MinOf(zeta[j]);
        if low < m {
          m := low;
        }
        j := j + 1;
      }
      var low := MinOf(zetaSum);
      if low < m {
        m := low;
      }
      r := if m > -1.0 then m else -1.0;
    }

    /** maxDampingRatio: the largest of 0, every cached entry and every sum, but never above 1. */
    method MaxDampingRatio() returns (r: real)
      requires |zetaSum| > 0 && forall j :: 0 <= j < |zeta| ==> |zeta[j]| > 0
      ensures 0.0 <= r <= 1.0
      ensures r < 1.0 ==>
        (forall j, i :: 0 <= j < |zeta| && 0 <= i < |zeta[j]| ==> r >= zeta[j][i])
        && forall i :: 0 <= i < |zetaSum| ==> r >= zetaSum[i]
      ensures r == 0.0 || r == 1.0 || (exists i :: 0 <= i < |zetaSum| && zetaSum[i] == r)
        || exists j, i :: 0 <= j < |zeta| && 0 <= i < |zeta[j]| && zeta[j][i] == r
      ensures r == 1.0 <==>
        (exists j, i :: 0 <= j < |zeta| && 0 <= i < |zeta[j]| && zeta[j][i] >= 1.0)
        || exists i :: 0 <= i < |zetaSum| && zetaSum[i] >= 1.0
    {
      var m := 0.0;
      var j := 0;
      while j < |zeta|
        invariant 0 <= j <= |zeta| && m >= 0.0
        invariant forall k, i :: 0 <= k < j && 0 <= i < |zeta[k]| ==> m >= zeta[k][i]
        invariant m == 0.0 || exists k, i :: 0 <= k < j && 0 <= i < |zeta[k]| && zeta[k][i] == m
      {
        var high := MaxOf(zeta[j]);
        if high > m {
          m := high;
        }
        j := j + 1;
      }
      var high := MaxOf(zetaSum);
      if high > m {
        m := high;
      }
      r := if m < 1.0 then m else 1.0;
    }

    /** tidyUp: every mode tidies its own parameters; nothing else changes. */
    method TidyUp()
      requires Valid()
      modifies set j | 0 <= j < |modes| :: modes[j]
      ensures Valid()
      ensures forall j :: 0 <= j < |modes| ==> modes[j].p == Tidy(modes[j].kind, old(modes[j].p))
    {
      var i := 0;
      while i < |modes|
        invariant 0 <= i <= |modes| && Valid()
        invariant forall j :: 0 <= j < i ==> modes[j].p == Tidy(modes[j].kind, old(modes[j].p))
        invariant forall j :: i <= j < |modes| ==> modes[j].p == old(modes[j].p)
      {
        modes[i].TidyUp();
        i := i + 1;
      }
    }
  }

  /** One row of the sampling: a frequency and its damping ratio. */
  type Sample = (real, real)

  /** The rows are ordered by nondecreasing frequency. */
  predicate SortedByFrequency(s: seq<Sample>) {
    forall i, j :: 0 <= i < j < |s| ==> s[i].0 <= s[j].0
  }

  /** x placed before the first row of the sorted s with a larger-or-equal frequency. */
  function Insert(x: Sample, s: seq<Sample>): (r: seq<Sample>)
    requires SortedByFrequency(s)
    ensures |r| == |s| + 1 && multiset(r) == multiset(s) + multiset{x} && SortedByFrequency(r)
  {
    if |s| == 0 || x.0 <= s[0].0 then
      [x] + s
    else
      var t := Insert(x, s[1..]);
      assert s == [s[0]] + s[1..];
      forall k | 0 <= k < |t|
        ensures s[0].0 <= t[k].0
      {
        assert t[k] in multiset(s[1..]) + multiset{x};
      }
      [s[0]] + t
  }

  /** The rows of s ordered by frequency: what sampling.rows(sort_index(sampling.col(0))) gives. */
  function SortByFrequency(s: seq<Sample>): (r: seq<Sample>)
    ensures |r| == |s| && multiset(r) == multiset(s) && SortedByFrequency(r)
  {
    if |s| == 0 then []
    else
      assert s == [s[0]] + s[1..];
      Insert(s[0], SortByFrequency(s[1..]))
  }

  /** The user's control points: two parallel lists of frequencies and damping ratios. */
  class ControlPoint {
    var omega: seq<real>
    var zeta: seq<real>

    constructor()
      ensures omega == [] && zeta == []
    {
      omega, zeta := [], [];
    }

    /** The two lists have the same length. */
    predicate Valid()
      reads this
    {
      |omega| == |zeta|
    }

    /** addPoint: the pair goes to the end of both lists. */
    method AddPoint(w: real, z: real)
      modifies this
      ensures omega == old(omega) + [w] && zeta == old(zeta) + [z]
      ensures old(Valid()) ==> Valid()
    {
      omega := omega + [w];
      zeta := zeta + [z];
    }

    /** removePoint(tag): −1 clears both lists, an index in range is erased from both. */
    method RemovePoint(tag: int)
      requires Valid() && (tag == -1 || 0 <= tag < |omega|)
      modifies this
      ensures omega == RemoveTag(old(omega), tag) && zeta == RemoveTag(old(zeta), tag) && Valid()
    {
      if tag == -1 {
        omega := [];
        zeta := [];
      } else {
        omega := omega[..tag] + omega[tag + 1..];
        zeta := zeta[..tag] + zeta[tag + 1..];
      }
    }

    function Count(): (n: int)
      reads this
      ensures n == |omega|
    {
      |omega|
    }

    function MinFrequency(): (r: real)
      reads this
      requires |omega| > 0
      ensures (exists k :: 0 <= k < |omega| && omega[k] == r) && forall k :: 0 <= k < |omega| ==> r <= omega[k]
    {
      MinOf(omega)
    }

    function MaxFrequency(): (r: real)
      reads this
      requires |omega| > 0
      ensures (exists k :: 0 <= k < |omega| && omega[k] == r) && forall k :: 0 <= k < |omega| ==> r >= omega[k]
    {
      MaxOf(omega)
    }

    /**
     * minDampingRatio: *min_element over the ratios. On an empty list that dereferences end(),
     * which has no defined value; the model answers None there.
     */
    function MinDampingRatio(): (r: Option<real>)
      reads this
      ensures r.None? <==> |zeta| == 0
      ensures r.Some? ==> (exists k :: 0 <= k < |zeta| && zeta[k] == r.value) && forall k :: 0 <= k < |zeta| ==> r.value <= zeta[k]
    {
      if |zeta| == 0 then None else Some(MinOf(zeta))
    }

    /** maxDampingRatio: *max_element over the ratios, None (undefined) on an empty list. */
    function MaxDampingRatio(): (r: Option<real>)
      reads this
      ensures r.None? <==> |zeta| == 0
      ensures r.Some? ==> (exists k :: 0 <= k < |zeta| && zeta[k] == r.value) && forall k :: 0 <= k < |zeta| ==> r.value >= zeta[k]
    {
      if |zeta| == 0 then None else Some(MaxOf(zeta))
    }

    /** The (ω_i, ζ_i) pairs in entry order. */
    function Pairs(): (s: seq<Sample>)
      reads this
      requires Valid()
      ensures |s| == |omega| && forall i :: 0 <= i < |omega| ==> s[i] == (omega[i], zeta[i])
    {
      var w, z := omega, zeta;
      seq(|w|, i requires 0 <= i < |w| => (w[i], z[i]))
    }

    /**
     * getSampling: a count×2 table of the points, ordered by nondecreasing frequency; its rows
     * are the (ω_i, ζ_i) pairs, each as often as it was entered.
     */
    method GetSampling() returns (rows: seq<Sample>)
      requires Valid()
      ensures |rows| == |omega| && SortedByFrequency(rows) && multiset(rows) == multiset(Pairs())
    {
      var sampling: seq<Sample> := [];
      var i := 0;
      while i < |omega|
        invariant 0 <= i <= |omega| && sampling == Pairs()[..i]
      {
        sampling := sampling + [(omega[i], zeta[i])];
        i := i + 1;
      }
      assert sampling == Pairs();
      rows := SortByFrequency(sampling);
    }
  }
}
