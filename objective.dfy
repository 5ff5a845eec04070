/**
 * The objective object every fit drives: the sampling it was initialised with, the response
 * cache, the bounds derived from the data, the penalty weight and max order, and the mode index
 * list `base`. `EvaluateWithGradient` runs in phases over the cache and a local chain-rule
 * matrix `dg`, each phase a loop proved against the functions of `ObjectiveSpec`.
 */
module Objective {
  import opened RealMath
  import opened Reparam
  import opened Family
  import opened ObjectiveSpec

  /** Row 0 of the sampling matrix. */
  function Omegas(t: seq<Sample>): (w: seq<real>)
    ensures |w| == |t|
    ensures forall I :: 0 <= I < |t| ==> w[I] == t[I].omega
  {
    seq(|t|, I requires 0 <= I < |t| => t[I].omega)
  }

  /** Row 1 of the sampling matrix. */
  function Zetas(t: seq<Sample>): (z: seq<real>)
    ensures |z| == |t|
    ensures forall I :: 0 <= I < |t| ==> z[I] == t[I].zeta
  {
    seq(|t|, I requires 0 <= I < |t| => t[I].zeta)
  }

  /** The smallest frequency is positive and no larger than the largest. */
  lemma MinMaxOmega(t: seq<Sample>)
    requires |t| >= 1 && PositiveFrequencies(t)
    ensures 0.0 < MinOf(Omegas(t)) <= MaxOf(Omegas(t))
  {
    var w := Omegas(t);
    var i :| 0 <= i < |w| && w[i] == MinOf(w);
    assert w[i] == t[i].omega;
    assert MaxOf(w) >= w[0];
  }

  /** log10(max ω) + 0.1 − (log10(min ω) − 0.1) ≥ 0.2: the widened range is never empty. */
  lemma RangeOmegaAtLeast(e: Elementary, t: seq<Sample>)
    requires Sound(e) && |t| >= 1 && PositiveFrequencies(t)
    ensures (e.log10(MaxOf(Omegas(t))) + 0.1) - (e.log10(MinOf(Omegas(t))) - 0.1) >= 0.2
  {
    MinMaxOmega(t);
    Log10Monotone(e, MinOf(Omegas(t)), MaxOf(Omegas(t)));
  }

  /** The bounds initializeSampling derives from the data: the log-frequency band widened by 0.1 and the extreme ratios. */
  method SamplingBounds(e: Elementary, t: seq<Sample>) returns (minOmega: real, maxOmega: real, minZeta: real, maxZeta: real)
    requires Sound(e) && |t| >= 1 && PositiveFrequencies(t)
    ensures minOmega == e.log10(MinOf(Omegas(t))) - 0.1 && maxOmega == e.log10(MaxOf(Omegas(t))) + 0.1
    ensures minZeta == MinOf(Zetas(t)) && maxZeta == MaxOf(Zetas(t))
    ensures maxOmega - minOmega >= 0.2
  {
    RangeOmegaAtLeast(e, t);
    minOmega, maxOmega := e.log10(MinOf(Omegas(t))) - 0.1, e.log10(MaxOf(Omegas(t))) + 0.1;
    minZeta, maxZeta := MinOf(Zetas(t)), MaxOf(Zetas(t));
  }

  /** One column of sampling.cols(ordering): column I of the result is column ordering(I). */
  function Permute<T>(s: seq<T>, ordering: seq<nat>): (r: seq<T>)
    requires forall I :: 0 <= I < |ordering| ==> ordering[I] < |s|
    ensures |r| == |ordering|
    ensures forall I :: 0 <= I < |ordering| ==> r[I] == s[ordering[I]]
  {
    seq(|ordering|, I requires 0 <= I < |ordering| => s[ordering[I]])
  }

  /** randperm(n): every index below n exactly once. */
  predicate IsPermutation(ordering: seq<nat>, n: nat) {
    |ordering| == n && multiset(ordering) == multiset(Range(n))
  }

  lemma PermutationInRange(ordering: seq<nat>, n: nat)
    requires IsPermutation(ordering, n)
    ensures forall I :: 0 <= I < |ordering| ==> ordering[I] < n
  {
    forall I | 0 <= I < |ordering|
      ensures ordering[I] < n
    {
      assert ordering[I] in multiset(Range(n));
      var i :| 0 <= i < n && Range(n)[i] == ordering[I];
    }
  }

  /** The first k + 1 elements are the first k followed by element k. */
  lemma TakeOneMore<T>(s: seq<T>, k: nat)
    requires k < |s|
    ensures s[..k + 1] == s[..k] + [s[k]]
  {
  }

  /** Removing index k from a sequence removes one occurrence of its element. */
  lemma MultisetRemove<T>(s: seq<T>, k: nat)
    requires k < |s|
    ensures multiset(s[..k] + s[k + 1..]) == multiset(s) - multiset{s[k]}
  {
    assert s == s[..k] + [s[k]] + s[k + 1..];
  }

  /**
   * Taking out the position k that holds the last column: the permuted sequence is the
   * permutation of the shorter sequence with the last column put back at k.
   */
  lemma PermuteRemoveTop<T>(s: seq<T>, ordering: seq<nat>, k: nat, rest: seq<nat>)
    requires |s| >= 1 && k < |ordering| && ordering[k] == |s| - 1
    requires forall I :: 0 <= I < |ordering| ==> ordering[I] < |s|
    requires rest == ordering[..k] + ordering[k + 1..]
    requires forall I :: 0 <= I < |rest| ==> rest[I] < |s| - 1
    ensures Permute(s, ordering)
         == Permute(s[..|s| - 1], rest)[..k] + [s[|s| - 1]] + Permute(s[..|s| - 1], rest)[k..]
  {
    var p, q := Permute(s, ordering), Permute(s[..|s| - 1], rest);
    var r := q[..k] + [s[|s| - 1]] + q[k..];
    assert |p| == |r|;
    forall I | 0 <= I < |p|
      ensures p[I] == r[I]
    {
      if I < k {
        assert rest[I] == ordering[I];
      } else if I > k {
        assert rest[I - 1] == ordering[I];
      }
    }
  }

  /** Applying a permutation to the columns keeps the multiset of columns. */
  lemma {:induction false} PermutePreservesMultiset<T>(s: seq<T>, ordering: seq<nat>)
    requires IsPermutation(ordering, |s|)
    ensures forall I :: 0 <= I < |ordering| ==> ordering[I] < |s|
    ensures multiset(Permute(s, ordering)) == multiset(s)
    decreases |s|
  {
    PermutationInRange(ordering, |s|);
    if |s| > 0 {
      var top := |s| - 1;
      assert Range(|s|) == Range(top) + [top];
      assert top in multiset(ordering);
      var k :| 0 <= k < |ordering| && ordering[k] == top;
      var rest := ordering[..k] + ordering[k + 1..];
      MultisetRemove(ordering, k);
      assert multiset(rest) == multiset(Range(top));
      PermutationInRange(rest, top);
      PermutePreservesMultiset(s[..top], rest);
      PermuteRemoveTop(s, ordering, k, rest);
      MultisetInsert(Permute(s[..top], rest), k, s[top]);
      MultisetLast(s);
    }
  }

  lemma MultisetInsert<T>(q: seq<T>, k: nat, v: T)
    requires k <= |q|
    ensures multiset(q[..k] + [v] + q[k..]) == multiset(q) + multiset{v}
  {
    assert q == q[..k] + q[k..];
  }

  lemma MultisetLast<T>(s: seq<T>)
    requires |s| > 0
    ensures multiset(s) == multiset(s[..|s| - 1]) + multiset{s[|s| - 1]}
  {
    assert s == s[..|s| - 1] + [s[|s| - 1]];
  }

  /** Row r of a matrix. */
  function Row(dg: array2<real>, r: nat): (row: seq<real>)
    requires r < dg.Length0
    reads dg
    ensures |row| == dg.Length1
    ensures forall I :: 0 <= I < dg.Length1 ==> row[I] == dg[r, I]
  {
    seq(dg.Length1, I requires 0 <= I < dg.Length1 reads dg => dg[r, I])
  }

  /** sum(dg, 1): the row sums of a matrix. */
  function RowSums(dg: array2<real>): (g: seq<real>)
    reads dg
    ensures |g| == dg.Length0
    ensures forall r :: 0 <= r < dg.Length0 ==> g[r] == Sum(Row(dg, r))
  {
    seq(dg.Length0, r requires 0 <= r < dg.Length0 reads dg => Sum(Row(dg, r)))
  }

  /** cols(ordering) of a matrix: a new matrix whose column I is column ordering(I). */
  method PermuteColumns(cache: array2<real>, ordering: seq<nat>) returns (shuffled: array2<real>)
    requires forall I :: 0 <= I < |ordering| ==> ordering[I] < cache.Length1
    ensures fresh(shuffled)
    ensures shuffled.Length0 == cache.Length0 && shuffled.Length1 == |ordering|
    ensures forall J, I :: 0 <= J < cache.Length0 && 0 <= I < |ordering| ==>
      shuffled[J, I] == cache[J, ordering[I]]
  {
    shuffled := new real[cache.Length0, |ordering|];
    var I := 0;
    while I < |ordering|
      invariant 0 <= I <= |ordering|
      invariant forall J, I' :: 0 <= J < cache.Length0 && 0 <= I' < I ==>
        shuffled[J, I'] == cache[J, ordering[I']]
    {
      var J := 0;
      while J < cache.Length0
        invariant 0 <= J <= cache.Length0
        invariant forall J', I' :: 0 <= J' < cache.Length0 && 0 <= I' < I ==>
          shuffled[J', I'] == cache[J', ordering[I']]
        invariant forall J' :: 0 <= J' < J ==> shuffled[J', I] == cache[J', ordering[I]]
      {
        shuffled[J, I] := cache[J, ordering[I]];
        J := J + 1;
      }
      I := I + 1;
    }
  }

  /**
   * gi = grad.tail(np) % dsp on the column view of rows [row0, row0 + np) of column I: the
   * element-wise product of the partials and the jacobian entries; nothing else changes.
   */
  method StoreChain(dg: array2<real>, row0: nat, I: nat, grad: seq<real>, dsp: seq<real>)
    requires row0 + |dsp| <= dg.Length0 && I < dg.Length1 && |grad| == |dsp| + 1
    modifies dg
    ensures forall r, c :: 0 <= r < dg.Length0 && 0 <= c < dg.Length1 ==>
      dg[r, c] == if c == I && row0 <= r < row0 + |dsp| then Mul(grad[r - row0 + 1], dsp[r - row0]) else old(dg[r, c])
  {
    var k := 0;
    while k < |dsp|
      invariant 0 <= k <= |dsp|
      invariant forall r, c :: 0 <= r < dg.Length0 && 0 <= c < dg.Length1 ==>
        dg[r, c] == if c == I && row0 <= r < row0 + k then Mul(grad[r - row0 + 1], dsp[r - row0]) else old(dg[r, c])
    {
      dg[row0 + k, I] := Mul(grad[k + 1], dsp[k]);
      k := k + 1;
    }
  }

  /** dg.col(I) *= 2·fi(I) for every column I. */
  method ScaleColumns(dg: array2<real>, fi: seq<real>)
    requires |fi| == dg.Length1
    modifies dg
    ensures forall r, I :: 0 <= r < dg.Length0 && 0 <= I < dg.Length1 ==>
      dg[r, I] == Mul(old(dg[r, I]), 2.0 * fi[I])
  {
    var I := 0;
    while I < dg.Length1
      invariant 0 <= I <= dg.Length1
      invariant forall r, c :: 0 <= r < dg.Length0 && 0 <= c < dg.Length1 ==>
        dg[r, c] == if c < I then Mul(old(dg[r, c]), 2.0 * fi[c]) else old(dg[r, c])
    {
      var r := 0;
      while r < dg.Length0
        invariant 0 <= r <= dg.Length0
        invariant forall r', c :: 0 <= r' < dg.Length0 && 0 <= c < dg.Length1 ==>
          dg[r', c] == if c < I || (c == I && r' < r) then Mul(old(dg[r', c]), 2.0 * fi[c]) else old(dg[r', c])
      {
        dg[r, I] := Mul(dg[r, I], 2.0 * fi[I]);
        r := r + 1;
      }
      I := I + 1;
    }
  }

  /** The arguments every pass over the cache shares: sizes agree and the closed forms apply. */
  ghost predicate CacheArgs(e: Elementary, f: Scheme, b: Bounds, numModes: nat, samples: seq<Sample>,
                            response: array2<real>, x: seq<real>, lo: nat, count: nat)
    reads {}
  {
    Evaluable(e, f, b, numModes, x) && PositiveFrequencies(samples) && lo + count <= |samples|
    && response.Length0 == numModes && response.Length1 == |samples|
  }

  /** The contents of a matrix, row by row. */
  function Snapshot(a: array2<real>): (m: seq<seq<real>>)
    reads a
    ensures Shaped(m, a.Length0, a.Length1)
    ensures forall J, I :: 0 <= J < a.Length0 && 0 <= I < a.Length1 ==> m[J][I] == a[J, I]
  {
    seq(a.Length0, J requires 0 <= J < a.Length0 reads a =>
      seq(a.Length1, I requires 0 <= I < a.Length1 reads a => a[J, I]))
  }

  /** A table of `rows` rows of `cols` entries. */
  predicate Shaped(t: seq<seq<real>>, rows: nat, cols: nat) {
    |t| == rows && forall J :: 0 <= J < rows ==> |t[J]| == cols
  }

  /**
   * dg after the passes below `row` and `cols` columns of the pass at `row`: every row below
   * `row`, and the first `cols` columns of the np rows from `row` on, hold the entry of the
   * table T at samples lo, lo + 1, ….
   */
  ghost predicate ChainDone(dg: array2<real>, T: seq<seq<real>>, lo: nat, row: nat, np: nat, cols: nat)
    reads dg
  {
    |T| == dg.Length0 && (forall r :: 0 <= r < |T| ==> lo + dg.Length1 <= |T[r]|)
    && forall r, I :: 0 <= r < dg.Length0 && 0 <= I < dg.Length1 && (r < row || (r < row + np && I < cols)) ==>
         dg[r, I] == T[r][lo + I]
  }

  /**
   * The cache after the passes below J and `cols` samples of pass J: those entries of the
   * window [lo, lo + count) hold the entry of the table R, every other entry is what `before`
   * recorded.
   */
  ghost predicate CacheDone(response: array2<real>, R: seq<seq<real>>, before: seq<seq<real>>,
                            lo: nat, count: nat, J: nat, cols: nat)
    reads response
  {
    Shaped(R, response.Length0, response.Length1) && Shaped(before, response.Length0, response.Length1)
    && forall J', I :: 0 <= J' < response.Length0 && 0 <= I < response.Length1 ==>
         response[J', I] == if lo <= I < lo + count && (J' < J || (J' == J && I < lo + cols)) then R[J'][I] else before[J'][I]
  }

  /** A block whose every column is done leaves dg done up to the next block. */
  lemma ChainBlockDone(dg: array2<real>, T: seq<seq<real>>, lo: nat, row: nat, np: nat)
    requires ChainDone(dg, T, lo, row, np, dg.Length1)
    ensures ChainDone(dg, T, lo, row + np, np, 0)
  {
  }

  /** A pass whose every sample is done leaves the cache done up to the next pass. */
  lemma CacheModeDone(response: array2<real>, R: seq<seq<real>>, before: seq<seq<real>>, lo: nat, count: nat, J: nat)
    requires CacheDone(response, R, before, lo, count, J, count)
    ensures CacheDone(response, R, before, lo, count, J + 1, 0)
  {
  }

  /**
   * gi = grad.tail(np) % dsp into column I of the block of rows [row, row + np), where those
   * products are the table's entries for sample lo + I.
   */
  method StoreChainEntries(dg: array2<real>, ghost T: seq<seq<real>>, lo: nat, row: nat, np: nat, I: nat,
                           grad: seq<real>, dsp: seq<real>)
    requires ChainDone(dg, T, lo, row, np, I)
    requires row + np <= dg.Length0 && I < dg.Length1 && |dsp| == np && |grad| == np + 1
    requires forall r :: row <= r < row + np ==> T[r][lo + I] == Mul(grad[r - row + 1], dsp[r - row])
    modifies dg
    ensures ChainDone(dg, T, lo, row, np, I + 1)
  {
    StoreChain(dg, row, I, grad, dsp);
  }

  /** response(J, lo + I) = v, where v is the table's entry there. */
  method StoreResponse(response: array2<real>, ghost R: seq<seq<real>>, ghost before: seq<seq<real>>,
                       lo: nat, count: nat, J: nat, I: nat, v: real)
    requires CacheDone(response, R, before, lo, count, J, I)
    requires J < response.Length0 && I < count && lo + count <= response.Length1 && v == R[J][lo + I]
    modifies response
    ensures CacheDone(response, R, before, lo, count, J, I + 1)
  {
    response[J, lo + I] := v;
  }

  /**
   * The body of the parallel_for over the samples in pass J: out(0) of compute_gradient at
   * sample lo + I into response(J, lo + I), the chain-rule products into column I of mode J's
   * block of dg.
   */
  method FillSample(e: Elementary, f: Scheme, b: Bounds, numModes: nat, samples: seq<Sample>, response: array2<real>,
                    x: seq<real>, lo: nat, count: nat, J: nat, row: nat, sp: seq<real>, dsp: seq<real>,
                    dg: array2<real>, ghost tb: Tables, ghost before: seq<seq<real>>, I: nat)
    requires CacheArgs(e, f, b, numModes, samples, response, x, lo, count) && I < count && J < numModes
    requires tb == WindowTables(e, f, b, x, numModes, samples)
    requires row == NumPara(f) * J && row + NumPara(f) <= |x|
    requires sp == Params(e, f, b, x, J) && dsp == Jacobian(e, f, b, x, J)
    requires dg.Length0 == |x| && dg.Length1 == count && dg != response
    requires ChainDone(dg, tb.chain, lo, row, NumPara(f), I)
    requires CacheDone(response, tb.response, before, lo, count, J, I)
    modifies response, dg
    ensures ChainDone(dg, tb.chain, lo, row, NumPara(f), I + 1)
    ensures CacheDone(response, tb.response, before, lo, count, J, I + 1)
  {
    var grad := Gradient(e, f, samples[lo + I].omega, sp);
    ModeColumn(e, f, b, x, numModes, samples, J, lo + I, row, grad, dsp);
    StoreResponse(response, tb.response, before, lo, count, J, I, grad[0]);
    StoreChainEntries(dg, tb.chain, lo, row, NumPara(f), I, grad, dsp);
  }

  /**
   * The state of FillCache before pass J, whose rows of dg start at `row`: the passes below J
   * are done in both the cache and dg.
   */
  ghost predicate PassesDone(e: Elementary, f: Scheme, b: Bounds, numModes: nat, samples: seq<Sample>, response: array2<real>,
                             x: seq<real>, lo: nat, count: nat, dg: array2<real>, tb: Tables, before: seq<seq<real>>,
                             J: nat, row: nat)
    reads response, dg
  {
    CacheArgs(e, f, b, numModes, samples, response, x, lo, count) && tb == WindowTables(e, f, b, x, numModes, samples)
    && J <= numModes && row == NumPara(f) * J && dg.Length0 == |x| && dg.Length1 == count && dg != response
    && ChainDone(dg, tb.chain, lo, row, NumPara(f), 0) && CacheDone(response, tb.response, before, lo, count, J, 0)
  }

  /**
   * One pass of the J loop over the samples [lo, lo + count): s and ds of mode J's slice, then
   * the responses of mode J into row J of the cache and the chain-rule entries of its slots
   * into its block of rows of dg.
   */
  method FillMode(e: Elementary, f: Scheme, b: Bounds, numModes: nat, samples: seq<Sample>, response: array2<real>,
                  x: seq<real>, lo: nat, count: nat, J: nat, row: nat, dg: array2<real>,
                  ghost tb: Tables, ghost before: seq<seq<real>>)
    returns (sp: seq<real>, dsp: seq<real>)
    requires PassesDone(e, f, b, numModes, samples, response, x, lo, count, dg, tb, before, J, row) && J < numModes
    modifies response, dg
    ensures |sp| == |dsp| == NumPara(f) && sp[2..] == tb.tails[J] && dsp[2..] == tb.slopes[J]
    ensures PassesDone(e, f, b, numModes, samples, response, x, lo, count, dg, tb, before, J + 1, row + NumPara(f))
  {
    NextBlock(NumPara(f), J);
    BlockFits(NumPara(f), J, numModes);
    var p := Slice(x, NumPara(f), J);
    sp := S(e, f, b, p);
    dsp := DS(e, f, b, p);
    TailsOfMode(e, f, b, x, numModes, J);
    var I := 0;
    while I < count
      invariant 0 <= I <= count
      invariant ChainDone(dg, tb.chain, lo, row, NumPara(f), I)
      invariant CacheDone(response, tb.response, before, lo, count, J, I)
    {
      FillSample(e, f, b, numModes, samples, response, x, lo, count, J, row, sp, dsp, dg, tb, before, I);
      I := I + 1;
    }
    ChainBlockDone(dg, tb.chain, lo, row, NumPara(f));
    CacheModeDone(response, tb.response, before, lo, count, J);
  }

  /** For a penalised scheme, mode J's orders and order slopes appended to those of the modes below J. */
  method CollectOrders(f: Scheme, n: seq<seq<real>>, dn: seq<seq<real>>, sp: seq<real>, dsp: seq<real>,
                       ghost tails: seq<seq<real>>, ghost slopes: seq<seq<real>>, J: nat)
    returns (n': seq<seq<real>>, dn': seq<seq<real>>)
    requires J < |tails| && J < |slopes| && 2 <= |sp| && 2 <= |dsp|
    requires sp[2..] == tails[J] && dsp[2..] == slopes[J]
    requires n == (if HasPenalty(f) then tails[..J] else [])
    requires dn == (if HasPenalty(f) then slopes[..J] else [])
    ensures n' == (if HasPenalty(f) then tails[..J + 1] else [])
    ensures dn' == (if HasPenalty(f) then slopes[..J + 1] else [])
  {
    n', dn' := n, dn;
    if HasPenalty(f) {
      TakeOneMore(tails, J);
      TakeOneMore(slopes, J);
      n', dn' := n + [sp[2..]], dn + [dsp[2..]];
    }
  }

  /**
   * The J loop of EvaluateWithGradient over the samples [lo, lo + count): afterwards the cache
   * holds every mode's response in that window, dg holds the chain-rule entry of every raw slot
   * and sample, and the penalised schemes have collected their orders and order slopes.
   */
  method FillCache(e: Elementary, f: Scheme, b: Bounds, numModes: nat, samples: seq<Sample>, response: array2<real>,
                   x: seq<real>, lo: nat, count: nat) returns (dg: array2<real>, n: seq<seq<real>>, dn: seq<seq<real>>)
    requires CacheArgs(e, f, b, numModes, samples, response, x, lo, count)
    modifies response
    ensures fresh(dg) && dg.Length0 == |x| && dg.Length1 == count
    ensures ChainDone(dg, WindowTables(e, f, b, x, numModes, samples).chain, lo, |x|, NumPara(f), 0)
    ensures CacheDone(response, WindowTables(e, f, b, x, numModes, samples).response, old(Snapshot(response)), lo, count, numModes, 0)
    ensures HasPenalty(f) ==> n == WindowTables(e, f, b, x, numModes, samples).tails
    ensures HasPenalty(f) ==> dn == WindowTables(e, f, b, x, numModes, samples).slopes
    ensures !HasPenalty(f) ==> n == [] && dn == []
  {
    dg := new real[|x|, count];
    ghost var before := Snapshot(response);
    ghost var tb := WindowTables(e, f, b, x, numModes, samples);
    assert PassesDone(e, f, b, numModes, samples, response, x, lo, count, dg, tb, before, 0, 0);
    n, dn := FillModes(e, f, b, numModes, samples, response, x, lo, count, dg, tb, before);
  }

  /** The passes J = 0, 1, …, numModes − 1 of FillCache, starting from an untouched cache and dg. */
  method FillModes(e: Elementary, f: Scheme, b: Bounds, numModes: nat, samples: seq<Sample>, response: array2<real>,
                   x: seq<real>, lo: nat, count: nat, dg: array2<real>, ghost tb: Tables, ghost before: seq<seq<real>>)
    returns (n: seq<seq<real>>, dn: seq<seq<real>>)
    requires PassesDone(e, f, b, numModes, samples, response, x, lo, count, dg, tb, before, 0, 0)
    requires |tb.tails| == numModes && |tb.slopes| == numModes && |x| == NumPara(f) * numModes
    modifies response, dg
    ensures PassesDone(e, f, b, numModes, samples, response, x, lo, count, dg, tb, before, numModes, |x|)
    ensures n == (if HasPenalty(f) then tb.tails else [])
    ensures dn == (if HasPenalty(f) then tb.slopes else [])
  {
    n, dn := [], [];
    var row: nat := 0;
    for J: nat := 0 to numModes
      invariant row == NumPara(f) * J
      invariant PassesDone(e, f, b, numModes, samples, response, x, lo, count, dg, tb, before, J, row)
      invariant n == (if HasPenalty(f) then tb.tails[..J] else [])
      invariant dn == (if HasPenalty(f) then tb.slopes[..J] else [])
    {
      var sp, dsp := FillMode(e, f, b, numModes, samples, response, x, lo, count, J, row, dg, tb, before);
      n, dn := CollectOrders(f, n, dn, sp, dsp, tb.tails, tb.slopes, J);
      row := row + NumPara(f);
    }
    assert row == |x|;
    assert tb.tails[..numModes] == tb.tails && tb.slopes[..numModes] == tb.slopes;
  }

  /** Column I of a matrix. */
  function CacheColumn(a: array2<real>, I: nat): (col: seq<real>)
    requires I < a.Length1
    reads a
    ensures |col| == a.Length0
    ensures forall J :: 0 <= J < a.Length0 ==> col[J] == a[J, I]
  {
    seq(a.Length0, J requires 0 <= J < a.Length0 reads a => a[J, I])
  }

  /** fi = sum(response.cols(lo, lo + count − 1), 0) − sampling.row(1).cols(lo, lo + count − 1). */
  function WindowResiduals(response: array2<real>, samples: seq<Sample>, lo: nat, count: nat): (fi: seq<real>)
    requires lo + count <= |samples| && lo + count <= response.Length1
    reads response
    ensures |fi| == count
    ensures forall I :: 0 <= I < count ==> fi[I] == Sum(CacheColumn(response, lo + I)) - samples[lo + I].zeta
  {
    seq(count, I requires 0 <= I < count reads response => Sum(CacheColumn(response, lo + I)) - samples[lo + I].zeta)
  }

  /** Once the cache holds a table's window, each of its columns there is the table's column. */
  lemma CacheHoldsTable(response: array2<real>, R: seq<seq<real>>, before: seq<seq<real>>, lo: nat, count: nat,
                        numModes: nat, i: nat)
    requires CacheDone(response, R, before, lo, count, numModes, 0)
    requires response.Length0 == numModes && lo <= i < lo + count <= response.Length1
    ensures CacheColumn(response, i) == TableColumn(R, i)
  {
    assert forall J :: 0 <= J < numModes ==> response[J, i] == R[J][i];
  }

  /** Once the cache holds the window's responses, fi(I) is the residual of sample lo + I. */
  lemma ResidualsFromCache(e: Elementary, f: Scheme, b: Bounds, numModes: nat, samples: seq<Sample>, response: array2<real>,
                           x: seq<real>, lo: nat, count: nat, before: seq<seq<real>>)
    requires CacheArgs(e, f, b, numModes, samples, response, x, lo, count)
    requires CacheDone(response, ResponseTable(e, f, b, x, numModes, samples), before, lo, count, numModes, 0)
    ensures forall I :: 0 <= I < count ==>
      WindowResiduals(response, samples, lo, count)[I] == Residual(e, f, b, x, numModes, samples[lo + I])
  {
    forall I | 0 <= I < count {
      ResidualFromCache(e, f, b, numModes, samples, response, x, lo, count, before, I);
    }
  }

  /** Residual I of the window, read off the filled cache, is the residual of sample lo + I. */
  lemma ResidualFromCache(e: Elementary, f: Scheme, b: Bounds, numModes: nat, samples: seq<Sample>, response: array2<real>,
                          x: seq<real>, lo: nat, count: nat, before: seq<seq<real>>, I: nat)
    requires CacheArgs(e, f, b, numModes, samples, response, x, lo, count)
    requires CacheDone(response, ResponseTable(e, f, b, x, numModes, samples), before, lo, count, numModes, 0)
    requires I < count
    ensures WindowResiduals(response, samples, lo, count)[I] == Residual(e, f, b, x, numModes, samples[lo + I])
  {
    var i := lo + I;
    CacheHoldsTable(response, ResponseTable(e, f, b, x, numModes, samples), before, lo, count, numModes, i);
    ResponseColumn(e, f, b, x, numModes, samples, i);
    assert CacheColumn(response, i) == Column(e, f, b, x, numModes, samples[i].omega);
  }

  /** pow(fi, 2.). */
  function Squares(fi: seq<real>): (q: seq<real>)
    ensures |q| == |fi|
    ensures forall I :: 0 <= I < |fi| ==> q[I] == Sq(fi[I])
  {
    seq(|fi|, I requires 0 <= I < |fi| => Sq(fi[I]))
  }

  /** dg.col(I) *= 2·fi(I) on a dg whose every entry is the table's: entry (r, I) becomes T·2·fi(I). */
  method ScaleChain(dg: array2<real>, ghost T: seq<seq<real>>, lo: nat, np: nat, fi: seq<real>)
    requires ChainDone(dg, T, lo, dg.Length0, np, 0) && |fi| == dg.Length1
    modifies dg
    ensures forall r, I :: 0 <= r < dg.Length0 && 0 <= I < dg.Length1 ==> dg[r, I] == Mul(T[r][lo + I], 2.0 * fi[I])
  {
    ScaleColumns(dg, fi);
  }

  /** The samples a call of `EvaluateWithGradient` fits: columns [lo, lo + count). */
  function Window(sampling: seq<Sample>, lo: nat, count: nat): (w: seq<Sample>)
    requires lo + count <= |sampling|
    ensures |w| == count
    ensures forall I :: 0 <= I < count ==> w[I] == sampling[lo + I]
    ensures PositiveFrequencies(sampling) ==> PositiveFrequencies(w)
  {
    sampling[lo..lo + count]
  }

  /** The window of all samples is the whole sampling. */
  lemma WholeWindow(sampling: seq<Sample>)
    ensures Window(sampling, 0, |sampling|) == sampling
  {
  }

  /**
   * dg after scaling has the row sums of G when every scaled chain-rule entry T(r, lo + I)·2·fi(I)
   * is the entry G(r, I).
   */
  lemma ScaledRowSums(dg: array2<real>, T: seq<seq<real>>, G: seq<seq<real>>, lo: nat, fi: seq<real>)
    requires Shaped(G, dg.Length0, dg.Length1) && |fi| == dg.Length1
    requires |T| == dg.Length0 && forall r :: 0 <= r < |T| ==> lo + dg.Length1 <= |T[r]|
    requires forall r, I :: 0 <= r < dg.Length0 && 0 <= I < dg.Length1 ==> dg[r, I] == Mul(T[r][lo + I], 2.0 * fi[I])
    requires forall r, I :: 0 <= r < dg.Length0 && 0 <= I < dg.Length1 ==> Mul(T[r][lo + I], 2.0 * fi[I]) == G[r][I]
    ensures forall r :: 0 <= r < dg.Length0 ==> RowSums(dg)[r] == Sum(G[r])
  {
    forall r | 0 <= r < dg.Length0
      ensures RowSums(dg)[r] == Sum(G[r])
    {
      assert Row(dg, r) == G[r];
    }
  }

  /** A scaled chain-rule entry of sample lo + I is term I of the window's gradient entry r. */
  lemma EntryIsGradientTerm(e: Elementary, f: Scheme, b: Bounds, numModes: nat, samples: seq<Sample>,
                            x: seq<real>, lo: nat, count: nat, r: nat, I: nat, fi: real)
    requires Evaluable(e, f, b, numModes, x) && PositiveFrequencies(samples) && lo + count <= |samples|
    requires r < |x| && I < count && fi == Residual(e, f, b, x, numModes, samples[lo + I])
    ensures Mul(ChainTable(e, f, b, x, numModes, samples)[r][lo + I], 2.0 * fi)
         == GradientTable(e, f, b, x, numModes, Window(samples, lo, count))[r][I]
  {
    var w := Window(samples, lo, count);
    GradientTermAt(e, f, b, x, numModes, r, w, I);
    var ce := ChainEntry(e, f, b, x, numModes, r, w[I].omega);
    MulCongruent(ChainTable(e, f, b, x, numModes, samples)[r][lo + I], fi, ce, Residual(e, f, b, x, numModes, w[I]));
  }

  /** With fi the window's residuals, the scaled chain-rule table is the window's gradient table. */
  lemma ScaledChainIsGradientTable(e: Elementary, f: Scheme, b: Bounds, numModes: nat, samples: seq<Sample>,
                                   x: seq<real>, lo: nat, count: nat, fi: seq<real>)
    requires Evaluable(e, f, b, numModes, x) && PositiveFrequencies(samples) && lo + count <= |samples|
    requires |fi| == count && forall I :: 0 <= I < count ==> fi[I] == Residual(e, f, b, x, numModes, samples[lo + I])
    ensures forall r, I :: 0 <= r < |x| && 0 <= I < count ==>
      Mul(ChainTable(e, f, b, x, numModes, samples)[r][lo + I], 2.0 * fi[I])
      == GradientTable(e, f, b, x, numModes, Window(samples, lo, count))[r][I]
  {
    forall r, I | 0 <= r < |x| && 0 <= I < count {
      EntryIsGradientTerm(e, f, b, numModes, samples, x, lo, count, r, I, fi[I]);
    }
  }

  /** Σ fi², plus weight·Σ decimal(n)² for the penalised schemes, is the loss of the window. */
  lemma WindowLoss(e: Elementary, f: Scheme, b: Bounds, weight: real, x: seq<real>, numModes: nat,
                   samples: seq<Sample>, lo: nat, count: nat, fi: seq<real>, n: seq<seq<real>>)
    requires Evaluable(e, f, b, numModes, x) && PositiveFrequencies(samples) && lo + count <= |samples|
    requires |fi| == count && forall I :: 0 <= I < count ==> fi[I] == Residual(e, f, b, x, numModes, samples[lo + I])
    requires HasPenalty(f) ==> n == OrderTails(e, f, b, x, numModes)
    ensures HasPenalty(f) ==>
      Sum(Squares(fi)) + Mul(weight, Sum(AllFloorSquares(n))) == Loss(e, f, b, weight, x, numModes, Window(samples, lo, count))
    ensures !HasPenalty(f) ==> Sum(Squares(fi)) == Loss(e, f, b, weight, x, numModes, Window(samples, lo, count))
  {
    assert Squares(fi) == SquaredResiduals(e, f, b, x, numModes, Window(samples, lo, count));
    if HasPenalty(f) {
      FloorSquaresArePenalties(e, f, b, x, numModes);
    }
  }

  /**
   * Row sums that are the least-squares gradient, with the penalty slopes scattered in for the
   * penalised schemes, are the gradient of the window.
   */
  lemma WindowGradient(e: Elementary, f: Scheme, b: Bounds, weight: real, x: seq<real>, numModes: nat,
                       samples: seq<Sample>, lo: nat, count: nat, ls: seq<real>, n: seq<seq<real>>, dn: seq<seq<real>>)
    requires Evaluable(e, f, b, numModes, x) && PositiveFrequencies(samples) && lo + count <= |samples| && |ls| == |x|
    requires forall r :: 0 <= r < |x| ==> ls[r] == Sum(GradientTable(e, f, b, x, numModes, Window(samples, lo, count))[r])
    requires HasPenalty(f) ==> n == OrderTails(e, f, b, x, numModes) && dn == SlopeTails(e, f, b, x, numModes)
    ensures HasPenalty(f) ==> forall r :: 0 <= r < |x| ==>
      AddPenaltySlopes(f, weight, Range(numModes), numModes, n, dn, ls)[r]
      == TotalGradient(e, f, b, weight, x, numModes, r, Window(samples, lo, count))
    ensures !HasPenalty(f) ==> forall r :: 0 <= r < |x| ==>
      ls[r] == TotalGradient(e, f, b, weight, x, numModes, r, Window(samples, lo, count))
  {
    forall r | 0 <= r < |x|
      ensures HasPenalty(f) ==>
        AddPenaltySlopes(f, weight, Range(numModes), numModes, n, dn, ls)[r]
        == TotalGradient(e, f, b, weight, x, numModes, r, Window(samples, lo, count))
      ensures !HasPenalty(f) ==> ls[r] == TotalGradient(e, f, b, weight, x, numModes, r, Window(samples, lo, count))
    {
      if HasPenalty(f) {
        PenaltySlopesArePenaltyGradient(e, f, b, weight, x, numModes, ls, r);
      }
    }
  }

  /**
   * EvaluateWithGradient over the samples [lo, lo + count): fills the cache and dg, forms the
   * residuals, scales and sums dg, adds the penalty slopes for Unicorn and Two Cities, and
   * returns the loss of that window with its gradient.
   */
  method EvaluateWindow(e: Elementary, f: Scheme, b: Bounds, weight: real, numModes: nat, base: seq<nat>,
                        samples: seq<Sample>, response: array2<real>, x: seq<real>, lo: nat, count: nat)
    returns (loss: real, g: seq<real>)
    requires CacheArgs(e, f, b, numModes, samples, response, x, lo, count) && base == Range(numModes)
    modifies response
    ensures loss == Loss(e, f, b, weight, x, numModes, Window(samples, lo, count))
    ensures |g| == |x|
    ensures forall r :: 0 <= r < |x| ==>
      g[r] == TotalGradient(e, f, b, weight, x, numModes, r, Window(samples, lo, count))
    ensures CacheDone(response, ResponseTable(e, f, b, x, numModes, samples), old(Snapshot(response)), lo, count, numModes, 0)
  {
    ghost var before := Snapshot(response);
    var dg, n, dn := FillCache(e, f, b, numModes, samples, response, x, lo, count);
    loss, g := GradientFromCache(e, f, b, weight, numModes, base, samples, response, x, lo, count, dg, n, dn, before);
  }

  /** fi from the cache, then dg.col(I) *= 2·fi(I) and g = sum(dg, 1): the data part of the gradient. */
  method ScaledRows(e: Elementary, f: Scheme, b: Bounds, numModes: nat, samples: seq<Sample>, response: array2<real>,
                    x: seq<real>, lo: nat, count: nat, dg: array2<real>, ghost before: seq<seq<real>>)
    returns (fi: seq<real>, ls: seq<real>)
    requires CacheArgs(e, f, b, numModes, samples, response, x, lo, count)
    requires dg.Length0 == |x| && dg.Length1 == count && dg != response
    requires ChainDone(dg, ChainTable(e, f, b, x, numModes, samples), lo, |x|, NumPara(f), 0)
    requires CacheDone(response, ResponseTable(e, f, b, x, numModes, samples), before, lo, count, numModes, 0)
    modifies dg
    ensures |fi| == count && forall I :: 0 <= I < count ==> fi[I] == Residual(e, f, b, x, numModes, samples[lo + I])
    ensures |ls| == |x|
    ensures forall r :: 0 <= r < |x| ==> ls[r] == Sum(GradientTable(e, f, b, x, numModes, Window(samples, lo, count))[r])
  {
    ResidualsFromCache(e, f, b, numModes, samples, response, x, lo, count, before);
    fi := WindowResiduals(response, samples, lo, count);
    ScaleChain(dg, ChainTable(e, f, b, x, numModes, samples), lo, NumPara(f), fi);
    ScaledChainIsGradientTable(e, f, b, numModes, samples, x, lo, count, fi);
    ScaledRowSums(dg, ChainTable(e, f, b, x, numModes, samples), GradientTable(e, f, b, x, numModes, Window(samples, lo, count)), lo, fi);
    ls := RowSums(dg);
  }

  /**
   * The rest of EvaluateWithGradient once the J loop has filled the cache and dg: the residuals
   * fi, dg scaled column by column by 2·fi, its row sums, and for the penalised schemes the
   * order penalty added to both the loss and the gradient.
   */
  method GradientFromCache(e: Elementary, f: Scheme, b: Bounds, weight: real, numModes: nat, base: seq<nat>,
                           samples: seq<Sample>, response: array2<real>, x: seq<real>, lo: nat, count: nat,
                           dg: array2<real>, n: seq<seq<real>>, dn: seq<seq<real>>, ghost before: seq<seq<real>>)
    returns (loss: real, g: seq<real>)
    requires CacheArgs(e, f, b, numModes, samples, response, x, lo, count) && base == Range(numModes)
    requires dg.Length0 == |x| && dg.Length1 == count && dg != response
    requires ChainDone(dg, ChainTable(e, f, b, x, numModes, samples), lo, |x|, NumPara(f), 0)
    requires CacheDone(response, ResponseTable(e, f, b, x, numModes, samples), before, lo, count, numModes, 0)
    requires HasPenalty(f) ==> n == OrderTails(e, f, b, x, numModes) && dn == SlopeTails(e, f, b, x, numModes)
    modifies dg
    ensures loss == Loss(e, f, b, weight, x, numModes, Window(samples, lo, count))
    ensures |g| == |x|
    ensures forall r :: 0 <= r < |x| ==>
      g[r] == TotalGradient(e, f, b, weight, x, numModes, r, Window(samples, lo, count))
  {
    var fi, ls := ScaledRows(e, f, b, numModes, samples, response, x, lo, count, dg, before);
    if HasPenalty(f) {
      WindowGradient(e, f, b, weight, x, numModes, samples, lo, count, ls, n, dn);
      WindowLoss(e, f, b, weight, x, numModes, samples, lo, count, fi, n);
      g := AddPenaltySlopes(f, weight, base, numModes, n, dn, ls);
      loss := Sum(Squares(fi)) + Mul(weight, Sum(AllFloorSquares(n)));
    } else {
      WindowGradient(e, f, b, weight, x, numModes, samples, lo, count, ls, n, dn);
      WindowLoss(e, f, b, weight, x, numModes, samples, lo, count, fi, n);
      g := ls;
      loss := Sum(Squares(fi));
    }
  }

  class ObjectiveFunction {
    /** Which of the four schemes this objective is. */
    const scheme: Scheme
    const numModes: nat
    /** The elementary functions the closed forms call. */
    const e: Elementary

    /** Row 0 (frequency) and row 1 (target damping ratio) of each column. */
    var sampling: seq<Sample>
    /** response(J, I): out(0) of mode J at sample I, as last computed. */
    var response: array2<real>
    var minOmega: real
    var maxOmega: real
    var minZeta: real
    var maxZeta: real
    var rangeOmega: real
    var base: seq<nat>
    var weight: real
    var maxOrder: int

    /** The cache has one column per sample, and every frequency is positive. */
    ghost predicate Valid()
      reads this
    {
      Sound(e) && response.Length1 == |sampling| && PositiveFrequencies(sampling)
    }

    /** initializeSampling has run: data present, cache num_modes × N, base = 0 … M − 1. */
    predicate Ready()
      reads this
    {
      |sampling| >= 1 && response.Length0 == numModes && base == Range(numModes)
    }

    /** The fields `s` and `ds` read. */
    function BoundsOf(): Bounds
      reads this
    {
      Bounds(minOmega, rangeOmega, maxZeta, maxOrder)
    }

    /** The math laws, one block of raw slots per mode, admissible orders. */
    ghost predicate Evaluates(x: seq<real>)
      reads this
    {
      Evaluable(e, scheme, BoundsOf(), numModes, x)
    }

    constructor(elementary: Elementary, f: Scheme, modes: nat)
      requires Sound(elementary)
      ensures Valid() && e == elementary && scheme == f && numModes == modes
      ensures sampling == [] && base == []
      ensures minOmega == 0.0 && maxOmega == 0.0 && minZeta == 0.0 && maxZeta == 0.0
      ensures rangeOmega == 0.0 && weight == 0.0 && maxOrder == 10
    {
      e, scheme, numModes := elementary, f, modes;
      sampling := [];
      response := new real[0, 0];
      minOmega, maxOmega, minZeta, maxZeta, rangeOmega := 0.0, 0.0, 0.0, 0.0, 0.0;
      base := [];
      weight := 0.0;
      maxOrder := 10;
    }

    /**
     * initializeSampling: takes the data, sizes the cache, widens the log-frequency range by
     * 0.1 at each end and records the extreme damping ratios.
     */
    method InitializeSampling(t: seq<Sample>)
      requires Valid() && |t| >= 1 && PositiveFrequencies(t)
      modifies this
      ensures Valid() && Ready() && fresh(response)
      ensures sampling == t
      ensures minOmega == e.log10(MinOf(Omegas(t))) - 0.1
      ensures maxOmega == e.log10(MaxOf(Omegas(t))) + 0.1
      ensures minZeta == MinOf(Zetas(t)) && maxZeta == MaxOf(Zetas(t))
      ensures rangeOmega == maxOmega - minOmega && rangeOmega >= 0.2
      ensures weight == old(weight) && maxOrder == old(maxOrder)
    {
      var low, high, zLow, zHigh := SamplingBounds(e, t);
      sampling := t;
      response := new real[numModes, |t|];
      minOmega, maxOmega := low, high;
      minZeta, maxZeta := zLow, zHigh;
      rangeOmega := high - low;
      base := Range(numModes);
    }

    method SetWeight(w: real)
      modifies this`weight
      ensures weight == w
    {
      weight := w;
    }

    method SetMaxOrder(m: int)
      modifies this`maxOrder
      ensures maxOrder == m
    {
      maxOrder := m;
    }

    function GetNumberModes(): (n: nat)
      reads this
      ensures n == numModes
    {
      numModes
    }

    /** One function per sample column. */
    function NumFunctions(): (n: nat)
      reads this
      ensures n == |sampling|
    {
      |sampling|
    }

    /** Shuffle: one permutation applied to the columns of the sampling and of the cache. */
    method Shuffle(ordering: seq<nat>)
      requires Valid() && IsPermutation(ordering, |sampling|)
      modifies this
      ensures Valid() && fresh(response)
      ensures response.Length0 == old(response.Length0)
      ensures forall I :: 0 <= I < |ordering| ==> ordering[I] < |old(sampling)|
      ensures sampling == Permute(old(sampling), ordering)
      ensures multiset(sampling) == multiset(old(sampling))
      ensures forall J, I :: 0 <= J < response.Length0 && 0 <= I < |sampling| ==>
        response[J, I] == old(response[J, ordering[I]])
      ensures base == old(base) && weight == old(weight) && maxOrder == old(maxOrder)
      ensures BoundsOf() == old(BoundsOf())
    {
      PermutePreservesMultiset(sampling, ordering);
      var shuffled := PermuteColumns(response, ordering);
      sampling := Permute(sampling, ordering);
      response := shuffled;
    }

    /**
     * EvaluateWithGradient(x, g) of every scheme: refills the whole cache and returns the loss
     * over all samples together with its gradient.
     */
    method EvaluateWithGradient(x: seq<real>) returns (loss: real, g: seq<real>)
      requires Valid() && Ready() && Evaluates(x)
      modifies response
      ensures loss == Loss(e, scheme, BoundsOf(), weight, x, numModes, sampling)
      ensures |g| == |x|
      ensures forall r :: 0 <= r < |x| ==> g[r] == TotalGradient(e, scheme, BoundsOf(), weight, x, numModes, r, sampling)
      ensures forall J, I :: 0 <= J < numModes && 0 <= I < |sampling| ==>
        response[J, I] == ResponseTable(e, scheme, BoundsOf(), x, numModes, sampling)[J][I]
    {
      WholeWindow(sampling);
      loss, g := EvaluateWindow(e, scheme, BoundsOf(), weight, numModes, base, sampling, response, x, 0, |sampling|);
    }

    /**
     * The batch EvaluateWithGradient(x, i, g, batchSize), defined by Zero Day and Two Cities only:
     * refills cache columns [i, i + batchSize), leaves every other column as it was, and returns
     * the loss of those samples (plus the whole penalty for Two Cities) with its gradient.
     */
    method EvaluateWithGradientBatch(x: seq<real>, i: nat, batchSize: nat) returns (loss: real, g: seq<real>)
      requires Valid() && Ready() && Evaluates(x)
      requires scheme == ZeroDayScheme || scheme == TwoCitiesScheme
      requires 1 <= batchSize && i + batchSize <= |sampling|
      modifies response
      ensures loss == Loss(e, scheme, BoundsOf(), weight, x, numModes, Window(sampling, i, batchSize))
      ensures |g| == |x|
      ensures forall r :: 0 <= r < |x| ==>
        g[r] == TotalGradient(e, scheme, BoundsOf(), weight, x, numModes, r, Window(sampling, i, batchSize))
      ensures CacheDone(response, ResponseTable(e, scheme, BoundsOf(), x, numModes, sampling), old(Snapshot(response)),
                        i, batchSize, numModes, 0)
    {
      loss, g := EvaluateWindow(e, scheme, BoundsOf(), weight, numModes, base, sampling, response, x, i, batchSize);
    }

    /** Evaluate(x): the loss of EvaluateWithGradient(x, g), its gradient discarded. */
    method Evaluate(x: seq<real>) returns (loss: real)
      requires Valid() && Ready() && Evaluates(x)
      modifies response
      ensures loss == Loss(e, scheme, BoundsOf(), weight, x, numModes, sampling)
    {
      var g;
      loss, g := EvaluateWithGradient(x);
    }

    /** Gradient(x, g): the gradient of EvaluateWithGradient(x, g). */
    method Gradient(x: seq<real>) returns (g: seq<real>)
      requires Valid() && Ready() && Evaluates(x)
      modifies response
      ensures |g| == |x|
      ensures forall r :: 0 <= r < |x| ==> g[r] == TotalGradient(e, scheme, BoundsOf(), weight, x, numModes, r, sampling)
    {
      var loss;
      loss, g := EvaluateWithGradient(x);
    }

    /** Evaluate(x, i, batchSize): the loss of the batch EvaluateWithGradient. */
    method EvaluateBatch(x: seq<real>, i: nat, batchSize: nat) returns (loss: real)
      requires Valid() && Ready() && Evaluates(x)
      requires scheme == ZeroDayScheme || scheme == TwoCitiesScheme
      requires 1 <= batchSize && i + batchSize <= |sampling|
      modifies response
      ensures loss == Loss(e, scheme, BoundsOf(), weight, x, numModes, Window(sampling, i, batchSize))
    {
      var g;
      loss, g := EvaluateWithGradientBatch(x, i, batchSize);
    }

    /** Gradient(x, i, g, batchSize): the gradient of the batch EvaluateWithGradient. */
    method GradientBatch(x: seq<real>, i: nat, batchSize: nat) returns (g: seq<real>)
      requires Valid() && Ready() && Evaluates(x)
      requires scheme == ZeroDayScheme || scheme == TwoCitiesScheme
      requires 1 <= batchSize && i + batchSize <= |sampling|
      modifies response
      ensures |g| == |x|
      ensures forall r :: 0 <= r < |x| ==>
        g[r] == TotalGradient(e, scheme, BoundsOf(), weight, x, numModes, r, Window(sampling, i, batchSize))
    {
      var loss;
      loss, g := EvaluateWithGradientBatch(x, i, batchSize);
    }
  }
}
