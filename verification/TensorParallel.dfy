/**
  Tensor-parallel sharding of Linear layers over the reals: column-wise layers keep a slice of
  the output features, row-wise layers a slice of the input features, and the pair of them
  around an elementwise step computes the dense block, forward and backward.
 */
module TensorParallel {
  import opened Sequences
  import opened Arithmetic

  type Vector = seq<real>

  type Matrix = seq<Vector>

  ghost predicate Shaped(w: Matrix, rows: nat, cols: nat) {
    |w| == rows && forall i :: 0 <= i < rows ==> |w[i]| == cols
  }

  function Dot(a: Vector, b: Vector): real
    requires |a| == |b|
  {
    if a == [] then 0.0 else Dot(a[..|a| - 1], b[..|b| - 1]) + a[|a| - 1] * b[|b| - 1]
  }

  function MatVec(w: Matrix, x: Vector): (r: Vector)
    requires forall i :: 0 <= i < |w| ==> |w[i]| == |x|
    ensures |r| == |w| && forall i :: 0 <= i < |r| ==> r[i] == Dot(w[i], x)
  {
    seq(|w|, i requires 0 <= i < |w| => Dot(w[i], x))
  }

  function Add(a: Vector, b: Vector): (r: Vector)
    requires |a| == |b|
    ensures |r| == |a| && forall i :: 0 <= i < |r| ==> r[i] == a[i] + b[i]
  {
    seq(|a|, i requires 0 <= i < |a| => a[i] + b[i])
  }

  function Scale(a: Vector, k: real): (r: Vector)
    ensures |r| == |a| && forall i :: 0 <= i < |r| ==> r[i] == a[i] * k
  {
    seq(|a|, i requires 0 <= i < |a| => a[i] * k)
  }

  /** F.linear on one input vector. */
  function Apply(w: Matrix, bias: Option<Vector>, x: Vector): (r: Vector)
    requires Shaped(w, |w|, |x|) && (bias.Some? ==> |bias.value| == |w|)
    ensures |r| == |w|
  {
    match bias case None => MatVec(w, x) case Some(b) => Add(MatVec(w, x), b)
  }

  function Column(w: Matrix, j: nat): (r: Vector)
    requires forall i :: 0 <= i < |w| ==> j < |w[i]|
    ensures |r| == |w| && forall i :: 0 <= i < |r| ==> r[i] == w[i][j]
  {
    seq(|w|, i requires 0 <= i < |w| => w[i][j])
  }

  /** The gradient a linear layer sends back to its input: the transpose applied to the output gradient. */
  function BackInput(w: Matrix, cols: nat, g: Vector): (r: Vector)
    requires Shaped(w, |g|, cols)
    ensures |r| == cols && forall j :: 0 <= j < cols ==> r[j] == Dot(Column(w, j), g)
  {
    seq(cols, j requires 0 <= j < cols => Dot(Column(w, j), g))
  }

  /** Rank r's part of a vector cut into parts of k. */
  function Part<T>(v: seq<T>, r: nat, k: nat): (p: seq<T>)
    requires (r + 1) * k <= |v|
    ensures |p| == k
    ensures r * k >= 0 && forall i :: 0 <= i < k ==> r * k + i < |v| && p[i] == v[r * k + i]
  {
    MulStep(r, k);
    MulNonNegative(r, k);
    v[r * k..(r + 1) * k]
  }

  function PartColumns(w: Matrix, r: nat, k: nat): (p: Matrix)
    requires forall i :: 0 <= i < |w| ==> (r + 1) * k <= |w[i]|
    ensures |p| == |w| && forall i :: 0 <= i < |p| ==> p[i] == Part(w[i], r, k)
  {
    seq(|w|, i requires 0 <= i < |w| => Part(w[i], r, k))
  }

  lemma PartInside(r: nat, size: nat, k: nat)
    requires r < size
    ensures (r + 1) * k <= size * k
  {
    MulMonotone(r + 1, size, k);
  }

  // ---------- Sums over ranks ----------

  function SumAt(parts: seq<Vector>, i: nat, n: nat): real
    requires n <= |parts| && forall r :: 0 <= r < |parts| ==> i < |parts[r]|
  {
    if n == 0 then 0.0 else SumAt(parts, i, n - 1) + parts[n - 1][i]
  }

  /** The all-reduce: every rank receives the elementwise sum. */
  function AllReduce(parts: seq<Vector>, dim: nat): (r: Vector)
    requires forall q :: 0 <= q < |parts| ==> |parts[q]| == dim
    ensures |r| == dim && forall i :: 0 <= i < dim ==> r[i] == SumAt(parts, i, |parts|)
  {
    seq(dim, i requires 0 <= i < dim => SumAt(parts, i, |parts|))
  }

  lemma {:induction false} DotConcat(a: Vector, b: Vector, c: Vector, d: Vector)
    requires |a| == |c| && |b| == |d|
    ensures Dot(a + b, c + d) == Dot(a, c) + Dot(b, d)
  {
    if b == [] {
      assert a + b == a && c + d == c;
    } else {
      var n := |b| - 1;
      DotConcat(a, b[..n], c, d[..n]);
      assert (a + b)[..|a + b| - 1] == a + b[..n] && (c + d)[..|c + d| - 1] == c + d[..n];
    }
  }

  lemma DotParts(a: Vector, b: Vector, k: nat, n: nat)
    requires |a| == |b| && (n + 1) * k <= |a|
    ensures 0 <= n * k <= (n + 1) * k
    ensures Dot(a[..(n + 1) * k], b[..(n + 1) * k]) == Dot(a[..n * k], b[..n * k]) + Dot(Part(a, n, k), Part(b, n, k))
  {
    MulStep(n, k);
    MulNonNegative(n, k);
    DotConcat(a[..n * k], Part(a, n, k), b[..n * k], Part(b, n, k));
    assert a[..n * k] + Part(a, n, k) == a[..(n + 1) * k];
    assert b[..n * k] + Part(b, n, k) == b[..(n + 1) * k];
  }

  function Total(s: seq<real>, n: nat): real
    requires n <= |s|
  {
    if n == 0 then 0.0 else Total(s, n - 1) + s[n - 1]
  }

  /** The ranks' partial dot products. */
  function PartialDots(a: Vector, b: Vector, k: nat, size: nat): (r: seq<real>)
    requires |a| == |b| == size * k
    ensures |r| == size
  {
    seq(size, r requires 0 <= r < size => PartInside(r, size, k); Dot(Part(a, r, k), Part(b, r, k)))
  }

  lemma PartialDotIs(a: Vector, b: Vector, k: nat, size: nat, r: nat)
    requires |a| == |b| == size * k && r < size
    ensures (r + 1) * k <= size * k && PartialDots(a, b, k, size)[r] == Dot(Part(a, r, k), Part(b, r, k))
  {
    PartInside(r, size, k);
  }

  lemma {:induction false} DotPrefix(a: Vector, b: Vector, k: nat, size: nat, n: nat)
    requires |a| == |b| == size * k && n <= size
    ensures 0 <= n * k <= size * k && Dot(a[..n * k], b[..n * k]) == Total(PartialDots(a, b, k, size), n)
  {
    MulNonNegative(n, k);
    MulMonotone(n, size, k);
    if n > 0 {
      DotPrefix(a, b, k, size, n - 1);
      DotParts(a, b, k, n - 1);
      PartialDotIs(a, b, k, size, n - 1);
    }
  }

  /** A dot product is the sum of the ranks' partial dot products. */
  lemma DotOverRanks(a: Vector, b: Vector, k: nat, size: nat)
    requires |a| == |b| == size * k
    ensures Dot(a, b) == Total(PartialDots(a, b, k, size), size)
  {
    DotPrefix(a, b, k, size, size);
    assert a[..size * k] == a && b[..size * k] == b;
  }

  /** n equal shares. */
  function Shares(share: real, n: nat): real {
    if n == 0 then 0.0 else Shares(share, n - 1) + share
  }

  lemma {:induction false} SharesAre(share: real, n: nat)
    ensures Shares(share, n) == share * n as real
  {
    if n > 0 {
      SharesAre(share, n - 1);
      assert n as real == (n - 1) as real + 1.0;
      assert share * ((n - 1) as real + 1.0) == share * (n - 1) as real + share;
    }
  }

  /** Each rank's element is a partial sum plus an equal share. */
  lemma {:induction false} SumWithShare(parts: seq<Vector>, i: nat, partial: seq<real>, share: real, n: nat)
    requires n <= |parts| == |partial|
    requires forall r :: 0 <= r < |parts| ==> i < |parts[r]| && parts[r][i] == partial[r] + share
    ensures SumAt(parts, i, n) == Total(partial, n) + Shares(share, n)
  {
    if n > 0 { SumWithShare(parts, i, partial, share, n - 1); }
  }

  // ---------- The sharded module ----------

  function PartBias(b: Option<Vector>, r: nat, k: nat): Option<Vector>
    requires b.Some? ==> (r + 1) * k <= |b.value|
  {
    match b case None => None case Some(v) => Some(Part(v, r, k))
  }

  /** A share of the bias for every rank, so that the sum over the ranks holds it once. */
  function ScaledBias(b: Option<Vector>, size: nat): Option<Vector>
    requires size > 0
  {
    match b case None => None case Some(v) => Some(Scale(v, 1.0 / size as real))
  }

  lemma ShardWidth(dim: nat, rank: nat, size: nat) returns (k: nat)
    requires rank < size && dim % size == 0
    ensures k == dim / size && dim == size * k && (rank + 1) * k <= dim
  {
    FloorBounds(dim, size);
    assert dim == dim / size * size + dim % size;
    k := dim / size;
    PartInside(rank, size, k);
  }

  datatype Split = Colwise | Rowwise

  /** One Linear layer; sharding replaces its parameters in place. */
  class Linear {
    var weight: Matrix
    var bias: Option<Vector>
    ghost var cols: nat

    ghost predicate Valid()
      reads this
    {
      Shaped(weight, |weight|, cols) && (bias.Some? ==> |bias.value| == |weight|)
    }

    constructor (weight: Matrix, bias: Option<Vector>, ghost cols: nat)
      requires Shaped(weight, |weight|, cols) && (bias.Some? ==> |bias.value| == |weight|)
      ensures Valid() && this.weight == weight && this.bias == bias && this.cols == cols
    {
      this.weight, this.bias, this.cols := weight, bias, cols;
    }

    /** Take the leader's parameters, then keep this rank's chunk, of width `k`; an uneven split is refused. */
    method ShardParameter(leader: Linear, rank: nat, size: nat, split: Split) returns (ok: bool, ghost k: nat)
      requires leader.Valid() && rank < size && |leader.weight| > 0
      modifies this
      ensures ok <==> (if split == Colwise then old(|leader.weight|) else old(leader.cols)) % size == 0
      ensures !ok ==> unchanged(this)
      ensures ok ==> Valid() && (rank + 1) * k <= size * k
      ensures ok && split == Colwise ==>
                && old(|leader.weight|) == size * k && cols == old(leader.cols)
                && weight == Part(old(leader.weight), rank, k) && bias == PartBias(old(leader.bias), rank, k)
      ensures ok && split == Rowwise ==>
                && old(leader.cols) == size * k && cols == k
                && weight == PartColumns(old(leader.weight), rank, k) && bias == ScaledBias(old(leader.bias), size)
    {
      var w, b := leader.weight, leader.bias;
      var dim := if split == Colwise then |w| else |w[0]|;
      if dim % size != 0 { return false, 0; }
      ok := true;
      ghost var width := leader.cols;
      k := ShardWidth(dim, rank, size);
      if split == Colwise {
        weight, bias := Part(w, rank, dim / size), PartBias(b, rank, dim / size);
        cols := width;
      } else {
        weight, bias := PartColumns(w, rank, dim / size), ScaledBias(b, size);
        cols := k;
      }
    }
  }

  // ---------- Column-wise layers ----------

  function BiasAt(b: Option<Vector>, i: nat): real
    requires b.Some? ==> i < |b.value|
  {
    match b case None => 0.0 case Some(v) => v[i]
  }

  lemma ApplyAt(w: Matrix, b: Option<Vector>, x: Vector, i: nat)
    requires Shaped(w, |w|, |x|) && (b.Some? ==> |b.value| == |w|) && i < |w|
    ensures Apply(w, b, x)[i] == Dot(w[i], x) + BiasAt(b, i)
  {
  }

  lemma ColwiseRow(w: Matrix, b: Option<Vector>, x: Vector, k: nat, size: nat, r: nat, i: nat)
    requires Shaped(w, size * k, |x|) && (b.Some? ==> |b.value| == size * k) && (r + 1) * k <= size * k && i < k
    ensures Shaped(Part(w, r, k), k, |x|)
    ensures Apply(Part(w, r, k), PartBias(b, r, k), x)[i] == Part(Apply(w, b, x), r, k)[i]
  {
    MulStep(r, k);
    MulNonNegative(r, k);
    var row := r * k + i;
    assert Part(w, r, k)[i] == w[row];
    ApplyAt(Part(w, r, k), PartBias(b, r, k), x, i);
    ApplyAt(w, b, x, row);
  }

  /** A column-wise shard computes its slice of the dense output. */
  lemma ColwiseIsSlice(w: Matrix, b: Option<Vector>, x: Vector, k: nat, size: nat, r: nat)
    requires Shaped(w, size * k, |x|) && (b.Some? ==> |b.value| == size * k) && r < size
    ensures (r + 1) * k <= size * k
    ensures Apply(Part(w, r, k), PartBias(b, r, k), x) == Part(Apply(w, b, x), r, k)
  {
    PartInside(r, size, k);
    forall i | 0 <= i < k
      ensures Apply(Part(w, r, k), PartBias(b, r, k), x)[i] == Part(Apply(w, b, x), r, k)[i]
    {
      ColwiseRow(w, b, x, k, size, r, i);
    }
  }

  lemma ColumnOfPart(w: Matrix, j: nat, r: nat, k: nat)
    requires (r + 1) * k <= |w| && forall i :: 0 <= i < |w| ==> j < |w[i]|
    ensures Column(Part(w, r, k), j) == Part(Column(w, j), r, k)
  {
  }

  /** The input gradients the ranks compute from their slices. */
  ghost function ColwiseGradients(w: Matrix, cols: nat, g: Vector, k: nat, size: nat): (parts: seq<Vector>)
    requires Shaped(w, size * k, cols) && |g| == size * k
    ensures |parts| == size && forall r :: 0 <= r < size ==> |parts[r]| == cols
  {
    seq(size, r requires 0 <= r < size => PartInside(r, size, k); BackInput(Part(w, r, k), cols, Part(g, r, k)))
  }

  lemma ColwisePartial(w: Matrix, cols: nat, g: Vector, k: nat, size: nat, j: nat, r: nat)
    requires Shaped(w, size * k, cols) && |g| == size * k && j < cols && r < size
    ensures ColwiseGradients(w, cols, g, k, size)[r][j] == PartialDots(Column(w, j), g, k, size)[r]
  {
    PartInside(r, size, k);
    ColumnOfPart(w, j, r, k);
  }

  lemma NoShares(n: nat)
    ensures Shares(0.0, n) == 0.0
  {
    SharesAre(0.0, n);
  }

  lemma ColwiseElement(w: Matrix, cols: nat, g: Vector, k: nat, size: nat, j: nat)
    requires Shaped(w, size * k, cols) && |g| == size * k && j < cols
    ensures SumAt(ColwiseGradients(w, cols, g, k, size), j, size) == Dot(Column(w, j), g)
  {
    var parts, partial := ColwiseGradients(w, cols, g, k, size), PartialDots(Column(w, j), g, k, size);
    forall r | 0 <= r < size
      ensures parts[r][j] == partial[r] + 0.0
    {
      ColwisePartial(w, cols, g, k, size, j, r);
    }
    DotOverRanks(Column(w, j), g, k, size);
    SumWithShare(parts, j, partial, 0.0, size);
    NoShares(size);
  }

  /** The all-reduced input gradients of the shards are the dense input gradient. */
  lemma ColwiseBackward(w: Matrix, cols: nat, g: Vector, k: nat, size: nat)
    requires Shaped(w, size * k, cols) && |g| == size * k
    ensures AllReduce(ColwiseGradients(w, cols, g, k, size), cols) == BackInput(w, cols, g)
  {
    forall j | 0 <= j < cols
      ensures SumAt(ColwiseGradients(w, cols, g, k, size), j, size) == Dot(Column(w, j), g)
    {
      ColwiseElement(w, cols, g, k, size, j);
    }
  }

  // ---------- Row-wise layers ----------

  lemma DividedBias(b: real, size: nat)
    requires size > 0
    ensures b * (1.0 / size as real) * size as real == b
  {
    var inverse := 1.0 / size as real;
    assert inverse * size as real == 1.0;
  }

  /** The partial outputs of the ranks, each on its slice of the input. */
  ghost function RowwisePartials(w: Matrix, b: Option<Vector>, x: Vector, k: nat, size: nat): (parts: seq<Vector>)
    requires size > 0 && |x| == size * k && Shaped(w, |w|, size * k) && (b.Some? ==> |b.value| == |w|)
    ensures |parts| == size && forall r :: 0 <= r < size ==> |parts[r]| == |w|
  {
    seq(size, r requires 0 <= r < size =>
      PartInside(r, size, k); Apply(PartColumns(w, r, k), ScaledBias(b, size), Part(x, r, k)))
  }

  function BiasShare(b: Option<Vector>, i: nat, size: nat): real
    requires size > 0 && (b.Some? ==> i < |b.value|)
  {
    match b case None => 0.0 case Some(v) => v[i] * (1.0 / size as real)
  }

  lemma {:induction false} RowwisePartial(w: Matrix, b: Option<Vector>, x: Vector, k: nat, size: nat, i: nat, r: nat)
    requires size > 0 && |x| == size * k && Shaped(w, |w|, size * k) && (b.Some? ==> |b.value| == |w|)
    requires i < |w| && r < size
    ensures RowwisePartials(w, b, x, k, size)[r][i] == PartialDots(w[i], x, k, size)[r] + BiasShare(b, i, size)
  {
    PartInside(r, size, k);
    ApplyAt(PartColumns(w, r, k), ScaledBias(b, size), Part(x, r, k), i);
    PartialDotIs(w[i], x, k, size, r);
  }

  lemma RowwiseShares(w: Matrix, b: Option<Vector>, x: Vector, k: nat, size: nat, i: nat)
    requires size > 0 && |x| == size * k && Shaped(w, |w|, size * k) && (b.Some? ==> |b.value| == |w|) && i < |w|
    ensures SumAt(RowwisePartials(w, b, x, k, size), i, size)
        == Total(PartialDots(w[i], x, k, size), size) + Shares(BiasShare(b, i, size), size)
  {
    var parts, partial := RowwisePartials(w, b, x, k, size), PartialDots(w[i], x, k, size);
    var share := BiasShare(b, i, size);
    forall r | 0 <= r < size
      ensures parts[r][i] == partial[r] + share
    {
      RowwisePartial(w, b, x, k, size, i, r);
    }
    SumWithShare(parts, i, partial, share, size);
  }

  lemma ShareTotal(b: Option<Vector>, i: nat, size: nat)
    requires size > 0 && (b.Some? ==> i < |b.value|)
    ensures Shares(BiasShare(b, i, size), size) == BiasAt(b, i)
  {
    SharesAre(BiasShare(b, i, size), size);
    if b.Some? { DividedBias(b.value[i], size); }
  }

  lemma RowwiseElement(w: Matrix, b: Option<Vector>, x: Vector, k: nat, size: nat, i: nat)
    requires size > 0 && |x| == size * k && Shaped(w, |w|, size * k) && (b.Some? ==> |b.value| == |w|) && i < |w|
    ensures SumAt(RowwisePartials(w, b, x, k, size), i, size) == Apply(w, b, x)[i]
  {
    RowwiseShares(w, b, x, k, size, i);
    DotOverRanks(w[i], x, k, size);
    ShareTotal(b, i, size);
    ApplyAt(w, b, x, i);
  }

  /** Partial outputs on slices of the input, all-reduced, are the dense output with one bias. */
  lemma RowwiseIsSum(w: Matrix, b: Option<Vector>, x: Vector, k: nat, size: nat)
    requires size > 0 && |x| == size * k && Shaped(w, |w|, size * k) && (b.Some? ==> |b.value| == |w|)
    ensures AllReduce(RowwisePartials(w, b, x, k, size), |w|) == Apply(w, b, x)
  {
    forall i | 0 <= i < |w|
      ensures SumAt(RowwisePartials(w, b, x, k, size), i, size) == Apply(w, b, x)[i]
    {
      RowwiseElement(w, b, x, k, size, i);
    }
  }

  /** A row-wise shard sends back its slice of the dense input gradient: no communication needed. */
  lemma RowwiseBackward(w: Matrix, g: Vector, k: nat, size: nat, r: nat)
    requires Shaped(w, |g|, size * k) && r < size
    ensures (r + 1) * k <= size * k
    ensures Shaped(PartColumns(w, r, k), |g|, k)
    ensures BackInput(PartColumns(w, r, k), k, g) == Part(BackInput(w, size * k, g), r, k)
  {
    PartInside(r, size, k);
    forall j | 0 <= j < k
      ensures BackInput(PartColumns(w, r, k), k, g)[j] == Part(BackInput(w, size * k, g), r, k)[j]
    {
      assert Column(PartColumns(w, r, k), j) == Column(w, r * k + j);
    }
  }

  // ---------- The gated block ----------

  /** The elementwise step between the projections. */
  function Gated(f: (real, real) -> real, gate: Vector, up: Vector): (r: Vector)
    requires |gate| == |up|
    ensures |r| == |gate| && forall i :: 0 <= i < |r| ==> r[i] == f(gate[i], up[i])
  {
    seq(|gate|, i requires 0 <= i < |gate| => f(gate[i], up[i]))
  }

  datatype Block = Block(gate: Matrix, gateBias: Option<Vector>, up: Matrix, upBias: Option<Vector>, down: Matrix,
      downBias: Option<Vector>)

  ghost predicate ValidBlock(m: Block, dim: nat, ffn: nat, outDim: nat) {
    && Shaped(m.gate, ffn, dim) && Shaped(m.up, ffn, dim) && Shaped(m.down, outDim, ffn)
    && (m.gateBias.Some? ==> |m.gateBias.value| == ffn) && (m.upBias.Some? ==> |m.upBias.value| == ffn)
    && (m.downBias.Some? ==> |m.downBias.value| == outDim)
  }

  ghost function Dense(m: Block, f: (real, real) -> real, x: Vector, ffn: nat, outDim: nat): Vector
    requires ValidBlock(m, |x|, ffn, outDim)
  {
    Apply(m.down, m.downBias, Gated(f, Apply(m.gate, m.gateBias, x), Apply(m.up, m.upBias, x)))
  }

  /** What rank r computes before the all-reduce: gate and up column-wise, down row-wise. */
  ghost function RankOutput(m: Block, f: (real, real) -> real, x: Vector, k: nat, size: nat, outDim: nat,
          r: nat): (v: Vector)
    requires ValidBlock(m, |x|, size * k, outDim) && r < size
    ensures |v| == outDim
  {
    PartInside(r, size, k);
    var hidden := Gated(f, Apply(Part(m.gate, r, k), PartBias(m.gateBias, r, k), x),
      Apply(Part(m.up, r, k), PartBias(m.upBias, r, k), x));
    Apply(PartColumns(m.down, r, k), ScaledBias(m.downBias, size), hidden)
  }

  ghost function RankOutputs(m: Block, f: (real, real) -> real, x: Vector, k: nat, size: nat,
          outDim: nat): (parts: seq<Vector>)
    requires ValidBlock(m, |x|, size * k, outDim)
    ensures |parts| == size && forall r :: 0 <= r < size ==> |parts[r]| == outDim
  {
    seq(size, r requires 0 <= r < size => RankOutput(m, f, x, k, size, outDim, r))
  }

  lemma RankOutputIs(m: Block, f: (real, real) -> real, x: Vector, k: nat, size: nat, outDim: nat, r: nat)
    requires ValidBlock(m, |x|, size * k, outDim) && r < size
    ensures var hidden := Gated(f, Apply(m.gate, m.gateBias, x), Apply(m.up, m.upBias, x));
            RankOutput(m, f, x, k, size, outDim, r) == RowwisePartials(m.down, m.downBias, hidden, k, size)[r]
  {
    PartInside(r, size, k);
    ColwiseIsSlice(m.gate, m.gateBias, x, k, size, r);
    ColwiseIsSlice(m.up, m.upBias, x, k, size, r);
    var gate, up := Apply(m.gate, m.gateBias, x), Apply(m.up, m.upBias, x);
    assert Gated(f, Part(gate, r, k), Part(up, r, k)) == Part(Gated(f, gate, up), r, k);
  }

  /** The sharded block computes the dense block, for any elementwise step and any rank count. */
  lemma BlockForward(m: Block, f: (real, real) -> real, x: Vector, k: nat, size: nat, outDim: nat)
    requires size > 0 && ValidBlock(m, |x|, size * k, outDim)
    ensures AllReduce(RankOutputs(m, f, x, k, size, outDim), outDim) == Dense(m, f, x, size * k, outDim)
  {
    var hidden := Gated(f, Apply(m.gate, m.gateBias, x), Apply(m.up, m.upBias, x));
    forall r | 0 <= r < size
      ensures RankOutputs(m, f, x, k, size, outDim)[r] == RowwisePartials(m.down, m.downBias, hidden, k, size)[r]
    {
      RankOutputIs(m, f, x, k, size, outDim, r);
    }
    assert RankOutputs(m, f, x, k, size, outDim) == RowwisePartials(m.down, m.downBias, hidden, k, size);
    RowwiseIsSum(m.down, m.downBias, hidden, k, size);
  }

  /** Elementwise backward: the incoming gradient times a local derivative. */
  function Times(a: Vector, b: Vector): (r: Vector)
    requires |a| == |b|
    ensures |r| == |a| && forall i :: 0 <= i < |r| ==> r[i] == a[i] * b[i]
  {
    seq(|a|, i requires 0 <= i < |a| => a[i] * b[i])
  }

  /**
    One projection's share of the block's input gradient, dense: back through down, the elementwise step, the
    projection.
   */
  ghost function DenseInputGradient(projection: Matrix, down: Matrix, derivative: Vector, g: Vector, dim: nat): Vector
    requires Shaped(projection, |derivative|, dim) && Shaped(down, |g|, |derivative|)
  {
    BackInput(projection, dim, Times(BackInput(down, |derivative|, g), derivative))
  }

  /** The same on rank r, with its own slices and its own local derivatives. */
  ghost function RankInputGradient(projection: Matrix, down: Matrix, derivative: Vector, g: Vector, dim: nat,
        k: nat, size: nat, r: nat): (v: Vector)
    requires |derivative| == size * k && Shaped(projection, size * k, dim) && Shaped(down, |g|, size * k) && r < size
    ensures |v| == dim
  {
    PartInside(r, size, k);
    BackInput(Part(projection, r, k), dim, Times(BackInput(PartColumns(down, r, k), k, g), Part(derivative, r, k)))
  }

  ghost function RankInputGradients(projection: Matrix, down: Matrix, derivative: Vector, g: Vector, dim: nat,
        k: nat, size: nat): (parts: seq<Vector>)
    requires |derivative| == size * k && Shaped(projection, size * k, dim) && Shaped(down, |g|, size * k)
    ensures |parts| == size && forall r :: 0 <= r < size ==> |parts[r]| == dim
  {
    seq(size, r requires 0 <= r < size => RankInputGradient(projection, down, derivative, g, dim, k, size, r))
  }

  lemma PartAt(v: Vector, r: nat, k: nat, i: nat)
    requires (r + 1) * k <= |v| && i < k
    ensures 0 <= r * k + i < |v| && Part(v, r, k)[i] == v[r * k + i]
  {
  }

  lemma TimesAt(a: Vector, b: Vector, r: nat, k: nat, i: nat)
    requires |a| == |b| && (r + 1) * k <= |a| && i < k
    ensures Times(Part(a, r, k), Part(b, r, k))[i] == Part(Times(a, b), r, k)[i]
  {
    PartAt(a, r, k, i);
    PartAt(b, r, k, i);
    PartAt(Times(a, b), r, k, i);
  }

  lemma PartOfTimes(a: Vector, b: Vector, r: nat, k: nat)
    requires |a| == |b| && (r + 1) * k <= |a|
    ensures Times(Part(a, r, k), Part(b, r, k)) == Part(Times(a, b), r, k)
  {
    forall i | 0 <= i < k
      ensures Times(Part(a, r, k), Part(b, r, k))[i] == Part(Times(a, b), r, k)[i]
    {
      TimesAt(a, b, r, k, i);
    }
  }

  lemma RankInputGradientIs(projection: Matrix, down: Matrix, derivative: Vector, g: Vector, dim: nat, k: nat,
        size: nat, r: nat)
    requires |derivative| == size * k && Shaped(projection, size * k, dim) && Shaped(down, |g|, size * k) && r < size
    ensures var through := Times(BackInput(down, size * k, g), derivative);
            RankInputGradient(projection, down, derivative, g, dim, k, size, r)
              == ColwiseGradients(projection, dim, through, k, size)[r]
  {
    RowwiseBackward(down, g, k, size, r);
    PartOfTimes(BackInput(down, size * k, g), derivative, r, k);
  }

  /** The all-reduced share of one projection is the dense one. */
  lemma ProjectionBackward(projection: Matrix, down: Matrix, derivative: Vector, g: Vector, dim: nat, k: nat, size: nat)
    requires |derivative| == size * k && Shaped(projection, size * k, dim) && Shaped(down, |g|, size * k)
    ensures AllReduce(RankInputGradients(projection, down, derivative, g, dim, k, size), dim)
            == DenseInputGradient(projection, down, derivative, g, dim)
  {
    var through := Times(BackInput(down, size * k, g), derivative);
    forall r | 0 <= r < size
      ensures RankInputGradients(projection, down, derivative, g, dim, k, size)[r]
          == ColwiseGradients(projection, dim, through, k, size)[r]
    {
      RankInputGradientIs(projection, down, derivative, g, dim, k, size, r);
    }
    assert RankInputGradients(projection, down, derivative, g, dim, k, size)
      == ColwiseGradients(projection, dim, through, k, size);
    ColwiseBackward(projection, dim, through, k, size);
  }

  /** A local derivative of the elementwise step, at the block's activations. */
  ghost function DerivativeAt(m: Block, d: (real, real) -> real, x: Vector, ffn: nat, outDim: nat): (v: Vector)
    requires ValidBlock(m, |x|, ffn, outDim)
    ensures |v| == ffn
  {
    Gated(d, Apply(m.gate, m.gateBias, x), Apply(m.up, m.upBias, x))
  }

  /** The dense block's input gradient: what comes back through the gate, plus what comes back through up. */
  ghost function DenseBlockGradient(m: Block, dGate: (real, real) -> real, dUp: (real, real) -> real, x: Vector,
        g: Vector, ffn: nat): (v: Vector)
    requires ValidBlock(m, |x|, ffn, |g|)
    ensures |v| == |x|
  {
    Add(DenseInputGradient(m.gate, m.down, DerivativeAt(m, dGate, x, ffn, |g|), g, |x|),
        DenseInputGradient(m.up, m.down, DerivativeAt(m, dUp, x, ffn, |g|), g, |x|))
  }

  /** What rank r sends back through one of its projections, from its own slices and its own activations. */
  ghost function RankGradient(projection: Matrix, m: Block, d: (real, real) -> real, x: Vector, g: Vector, k: nat,
        size: nat, r: nat): (v: Vector)
    requires ValidBlock(m, |x|, size * k, |g|) && Shaped(projection, size * k, |x|) && r < size
    ensures |v| == |x|
  {
    PartInside(r, size, k);
    var derivative := Gated(d, Apply(Part(m.gate, r, k), PartBias(m.gateBias, r, k), x),
                            Apply(Part(m.up, r, k), PartBias(m.upBias, r, k), x));
    BackInput(Part(projection, r, k), |x|, Times(BackInput(PartColumns(m.down, r, k), k, g), derivative))
  }

  ghost function RankGradients(projection: Matrix, m: Block, d: (real, real) -> real, x: Vector, g: Vector, k: nat,
        size: nat): (parts: seq<Vector>)
    requires ValidBlock(m, |x|, size * k, |g|) && Shaped(projection, size * k, |x|)
    ensures |parts| == size && forall r :: 0 <= r < size ==> |parts[r]| == |x|
  {
    seq(size, r requires 0 <= r < size => RankGradient(projection, m, d, x, g, k, size, r))
  }

  lemma RankDerivative(m: Block, d: (real, real) -> real, x: Vector, k: nat, size: nat, outDim: nat, r: nat)
    requires ValidBlock(m, |x|, size * k, outDim) && r < size
    ensures (r + 1) * k <= size * k
    ensures Gated(d, Apply(Part(m.gate, r, k), PartBias(m.gateBias, r, k), x),
                  Apply(Part(m.up, r, k), PartBias(m.upBias, r, k), x))
         == Part(DerivativeAt(m, d, x, size * k, outDim), r, k)
  {
    PartInside(r, size, k);
    ColwiseIsSlice(m.gate, m.gateBias, x, k, size, r);
    ColwiseIsSlice(m.up, m.upBias, x, k, size, r);
  }

  lemma GradientBackward(projection: Matrix, m: Block, d: (real, real) -> real, x: Vector, g: Vector, k: nat, size: nat)
    requires ValidBlock(m, |x|, size * k, |g|) && Shaped(projection, size * k, |x|)
    ensures AllReduce(RankGradients(projection, m, d, x, g, k, size), |x|)
         == DenseInputGradient(projection, m.down, DerivativeAt(m, d, x, size * k, |g|), g, |x|)
  {
    var derivative := DerivativeAt(m, d, x, size * k, |g|);
    forall r | 0 <= r < size
      ensures RankGradients(projection, m, d, x, g, k, size)[r]
           == RankInputGradients(projection, m.down, derivative, g, |x|, k, size)[r]
    {
      RankDerivative(m, d, x, k, size, |g|, r);
    }
    assert RankGradients(projection, m, d, x, g, k, size)
      == RankInputGradients(projection, m.down, derivative, g, |x|, k, size);
    ProjectionBackward(projection, m.down, derivative, g, |x|, k, size);
  }

  /** The sharded block sends back the dense block's input gradient: each projection reduces its own share. */
  lemma BlockBackward(m: Block, dGate: (real, real) -> real, dUp: (real, real) -> real, x: Vector, g: Vector, k: nat,
        size: nat)
    requires ValidBlock(m, |x|, size * k, |g|)
    ensures Add(AllReduce(RankGradients(m.gate, m, dGate, x, g, k, size), |x|),
                AllReduce(RankGradients(m.up, m, dUp, x, g, k, size), |x|))
         == DenseBlockGradient(m, dGate, dUp, x, g, size * k)
  {
    GradientBackward(m.gate, m, dGate, x, g, k, size);
    GradientBackward(m.up, m, dUp, x, g, k, size);
  }

  // ---------- The row-wise bias under training ----------

  lemma {:induction false} ZeroTotal(size: nat, n: nat)
    requires n <= size
    ensures Total(seq(size, _ => 0.0), n) == 0.0
  {
    if n > 0 { ZeroTotal(size, n - 1); }
  }

  /**
    One optimizer step: keep a fraction of the parameter (weight decay) and subtract an update computed from
    gradients alone. Plain descent, momentum and AdamW have this shape.
   */
  function Step(b: Vector, update: Vector, keep: real): (r: Vector)
    requires |b| == |update|
    ensures |r| == |b| && forall i :: 0 <= i < |r| ==> r[i] == b[i] * keep - update[i]
  {
    seq(|b|, i requires 0 <= i < |b| => b[i] * keep - update[i])
  }

  /**
    The bias the group applies after each rank stepped its own share; all see the same gradient, so the same
    update.
   */
  ghost function EffectiveBias(b: Vector, update: Vector, keep: real, size: nat): (r: Vector)
    requires |b| == |update| && size > 0
    ensures |r| == |b|
  {
    AllReduce(seq(size, _ => Step(ScaledBias(Some(b), size).value, update, keep)), |b|)
  }

  lemma Distribute(share: real, keep: real, update: real, n: real, whole: real)
    requires share * n == whole
    ensures (share * keep - update) * n == whole * keep - n * update
  {
    assert share * keep * n == share * n * keep;
  }

  /** One step moves the effective bias of the group by the update `size` times, the dense layer's by it once. */
  lemma RowwiseBiasStep(b: Vector, update: Vector, keep: real, size: nat, i: nat)
    requires |b| == |update| && size > 0 && i < |b|
    ensures EffectiveBias(b, update, keep, size)[i] == b[i] * keep - size as real * update[i]
  {
    var share := b[i] * (1.0 / size as real);
    var copies := seq(size, _ => Step(ScaledBias(Some(b), size).value, update, keep));
    var each := share * keep - update[i];
    SumWithShare(copies, i, seq(size, _ => 0.0), each, size);
    SharesAre(each, size);
    ZeroTotal(size, size);
    DividedBias(b[i], size);
    Distribute(share, keep, update[i], size as real, b[i]);
  }

  lemma StepDiffers(step: real, size: nat)
    requires size > 0
    ensures size as real * step == step <==> size == 1 || step == 0.0
  {
    if step != 0.0 && size != 1 {
      var excess := size as real - 1.0;
      assert excess > 0.0;
      assert excess * step != 0.0;
      assert size as real * step - step == excess * step;
    }
  }

  lemma BiasStepAgrees(b: Vector, update: Vector, keep: real, size: nat, i: nat)
    requires |b| == |update| && size > 0 && i < |b|
    ensures EffectiveBias(b, update, keep, size)[i] == Step(b, update, keep)[i] <==> size == 1 || update[i] == 0.0
  {
    RowwiseBiasStep(b, update, keep, size, i);
    StepDiffers(update[i], size);
  }

  /** So a row-wise bias trains like the dense one exactly when the group is trivial or there is nothing to learn. */
  lemma RowwiseBiasExact(b: Vector, update: Vector, keep: real, size: nat)
    requires |b| == |update| && size > 0
    ensures EffectiveBias(b, update, keep, size) == Step(b, update, keep)
       <==> size == 1 || forall i :: 0 <= i < |update| ==> update[i] == 0.0
  {
    var sharded, dense := EffectiveBias(b, update, keep, size), Step(b, update, keep);
    forall i | 0 <= i < |b|
      ensures sharded[i] == dense[i] <==> size == 1 || update[i] == 0.0
    {
      BiasStepAgrees(b, update, keep, size, i);
    }
    if sharded == dense && size != 1 {
      assert forall i :: 0 <= i < |update| ==> sharded[i] == dense[i];
    }
  }

  /** Two ranks, a bias at zero, and one step of descent at rate one on a gradient of one. */
  lemma RowwiseBiasExample()
    ensures Step([0.0], [1.0], 1.0) == [-1.0]
    ensures EffectiveBias([0.0], [1.0], 1.0, 2) == [-2.0]
  {
    RowwiseBiasStep([0.0], [1.0], 1.0, 2, 0);
  }

  // ---------- Attention heads ----------

  /** With head counts divisible by the group, a rank's local heads attend to the kv heads they had globally. */
  lemma KvHeadPreserved(kvHeads: nat, rep: nat, size: nat, rank: nat, head: nat)
    requires size > 0 && rank < size && kvHeads % size == 0 && rep > 0
    requires head < kvHeads / size * rep
    ensures kvHeads / size >= 0
    ensures (rank * (kvHeads / size * rep) + head) / rep == rank * (kvHeads / size) + head / rep
  {
    var local := kvHeads / size;
    FloorBounds(kvHeads, size);
    assert rank * (local * rep) == rank * local * rep;
    var q, m := head / rep, head % rep;
    assert head == q * rep + m;
    assert rank * local * rep + head == (rank * local + q) * rep + m;
    DivUnique(rank * local * rep + head, rep, rank * local + q, m);
  }
}
