/**
  Loading Hugging Face attention weights: the rows of the query and key projections (and their
  norms) are reordered from half-split rotary pairs to interleaved pairs, and a fused
  query/gate projection is split per head. Attention scores must not notice.
 */
module Rope {
  import opened Sequences
  import opened Arithmetic
  import opened TensorParallel

  // ---------- The permutation ----------

  /** Interleaved channel 2i takes half-split channel i, channel 2i + 1 takes i + rd / 2; channels past rd stay. */
  function Source(rd: nat, c: nat): nat {
    if c >= rd then c else if c % 2 == 0 then c / 2 else rd / 2 + c / 2
  }

  /** The order of one head's channels. */
  function HeadOrder(hd: nat, rd: nat): (r: seq<nat>)
    ensures |r| == hd && forall c :: 0 <= c < hd ==> r[c] == Source(rd, c)
  {
    seq(hd, c requires 0 <= c < hd => Source(rd, c))
  }

  /** Where half-split channel i ends up. */
  function HeadOrderBack(hd: nat, rd: nat): (r: seq<nat>)
    requires rd <= hd && rd % 2 == 0
    ensures |r| == hd
  {
    seq(hd, i requires 0 <= i < hd => if i < rd / 2 then 2 * i else if i < rd then 2 * (i - rd / 2) + 1 else i)
  }

  lemma {:induction false} DistinctCounts<T>(s: seq<T>, x: T)
    requires forall i, j :: 0 <= i < j < |s| ==> s[i] != s[j]
    ensures multiset(s)[x] == if x in s then 1 else 0
  {
    if s != [] {
      var n := |s| - 1;
      assert s == s[..n] + [s[n]];
      DistinctCounts(s[..n], x);
    }
  }

  /** A list of indices with a two-sided inverse holds every index once. */
  lemma InverseMakesPermutation(p: seq<nat>, q: seq<nat>)
    requires |p| == |q|
    requires forall i :: 0 <= i < |p| ==> p[i] < |p| && q[p[i]] == i
    requires forall i :: 0 <= i < |q| ==> q[i] < |p| && p[q[i]] == i
    ensures multiset(p) == multiset(Range(|p|))
  {
    forall x: nat
      ensures multiset(p)[x] == multiset(Range(|p|))[x]
    {
      DistinctCounts(p, x);
      DistinctCounts(Range(|p|), x);
      if x < |p| {
        assert p[q[x]] == x && Range(|p|)[x] == x;
      }
    }
  }

  predicate Within(order: seq<nat>, n: nat) {
    forall i :: 0 <= i < |order| ==> order[i] < n
  }

  lemma HeadOrderIsPermutation(hd: nat, rd: nat)
    requires rd <= hd && rd % 2 == 0
    ensures multiset(HeadOrder(hd, rd)) == multiset(Range(hd))
    ensures Within(HeadOrder(hd, rd), hd)
  {
    InverseMakesPermutation(HeadOrder(hd, rd), HeadOrderBack(hd, rd));
  }

  // ---------- Scores do not see a permutation ----------

  /** The sum of some terms, taken in a given order. */
  function SumOver(order: seq<nat>, terms: Vector): real
    requires Within(order, |terms|)
  {
    if order == [] then 0.0 else var n := |order| - 1; SumOver(order[..n], terms) + terms[order[n]]
  }

  lemma {:induction false} DotIsSum(order: seq<nat>, a: Vector, b: Vector)
    requires |a| == |b| && Within(order, |a|)
    ensures Dot(Gather(a, order), Gather(b, order)) == SumOver(order, Times(a, b))
  {
    if order != [] {
      var n := |order| - 1;
      DotIsSum(order[..n], a, b);
      assert Gather(a, order)[..n] == Gather(a, order[..n]) && Gather(b, order)[..n] == Gather(b, order[..n]);
      assert Times(a, b)[order[n]] == Gather(a, order)[n] * Gather(b, order)[n];
    }
  }

  lemma {:induction false} SumOverConcat(p: seq<nat>, q: seq<nat>, terms: Vector)
    requires Within(p, |terms|) && Within(q, |terms|)
    ensures SumOver(p + q, terms) == SumOver(p, terms) + SumOver(q, terms)
  {
    if q == [] {
      assert p + q == p;
    } else {
      SumOverConcat(p, q[..|q| - 1], terms);
      assert (p + q)[..|p + q| - 1] == p + q[..|q| - 1];
    }
  }

  lemma SumOverMiddle(l: seq<nat>, x: nat, r: seq<nat>, terms: Vector)
    requires Within(l, |terms|) && Within(r, |terms|) && x < |terms|
    ensures SumOver(l + [x] + r, terms) == SumOver(l + r, terms) + terms[x]
  {
    SumOverConcat(l + [x], r, terms);
    SumOverConcat(l, r, terms);
    assert (l + [x])[..|l|] == l;
  }

  lemma {:induction false} SumReordered(p: seq<nat>, q: seq<nat>, terms: Vector)
    requires multiset(p) == multiset(q) && Within(p, |terms|) && Within(q, |terms|)
    ensures SumOver(p, terms) == SumOver(q, terms)
    decreases |p|
  {
    if p == [] {
      assert |multiset(q)| == 0;
    } else {
      var k := MatchLast(p, q);
      SumReordered(p[..|p| - 1], q[..k] + q[k + 1..], terms);
      SumOverMiddle(q[..k], q[k], q[k + 1..], terms);
      assert q == q[..k] + [q[k]] + q[k + 1..];
    }
  }

  /** Reordering both vectors the same way keeps their product. */
  lemma DotPermuted(a: Vector, b: Vector, p: seq<nat>)
    requires |a| == |b| == |p| && multiset(p) == multiset(Range(|p|)) && Within(p, |a|)
    ensures Dot(Gather(a, p), Gather(b, p)) == Dot(a, b)
  {
    DotIsSum(p, a, b);
    DotIsSum(Range(|p|), a, b);
    SumReordered(p, Range(|p|), Times(a, b));
    assert Gather(a, Range(|p|)) == a && Gather(b, Range(|p|)) == b;
  }

  // ---------- Rotary embedding in both layouts ----------

  function Re(x: real, y: real, cos: real, sin: real): real {
    x * cos - y * sin
  }

  function Im(x: real, y: real, cos: real, sin: real): real {
    x * sin + y * cos
  }

  predicate Rotary(v: Vector, rd: nat, cos: Vector, sin: Vector) {
    rd <= |v| && rd % 2 == 0 && |cos| == |sin| == rd / 2
  }

  /** Half-split layout: channel i is rotated with channel i + rd / 2. */
  function HalfChannel(v: Vector, rd: nat, cos: Vector, sin: Vector, i: nat): real
    requires Rotary(v, rd, cos, sin) && i < |v|
  {
    if i < rd / 2 then Re(v[i], v[i + rd / 2], cos[i], sin[i])
    else if i < rd then Im(v[i - rd / 2], v[i], cos[i - rd / 2], sin[i - rd / 2])
    else v[i]
  }

  /** Interleaved layout: the pair (2i, 2i + 1) is a complex number times cos + i sin. */
  function PairChannel(v: Vector, rd: nat, cos: Vector, sin: Vector, c: nat): real
    requires Rotary(v, rd, cos, sin) && c < |v|
  {
    if c >= rd then v[c]
    else if c % 2 == 0 then Re(v[c], v[c + 1], cos[c / 2], sin[c / 2])
    else Im(v[c - 1], v[c], cos[c / 2], sin[c / 2])
  }

  function RotateHalves(v: Vector, rd: nat, cos: Vector, sin: Vector): (r: Vector)
    requires Rotary(v, rd, cos, sin)
    ensures |r| == |v| && forall i :: 0 <= i < |v| ==> r[i] == HalfChannel(v, rd, cos, sin, i)
  {
    seq(|v|, i requires 0 <= i < |v| => HalfChannel(v, rd, cos, sin, i))
  }

  function RotatePairs(v: Vector, rd: nat, cos: Vector, sin: Vector): (r: Vector)
    requires Rotary(v, rd, cos, sin)
    ensures |r| == |v| && forall c :: 0 <= c < |v| ==> r[c] == PairChannel(v, rd, cos, sin, c)
  {
    seq(|v|, c requires 0 <= c < |v| => PairChannel(v, rd, cos, sin, c))
  }

  lemma ChannelCommutes(v: Vector, w: Vector, rd: nat, cos: Vector, sin: Vector, c: nat)
    requires Rotary(v, rd, cos, sin) && |w| == |v| && c < |v| && Source(rd, c) < |v|
    requires forall i :: 0 <= i < |w| ==> Source(rd, i) < |v| && w[i] == v[Source(rd, i)]
    ensures PairChannel(w, rd, cos, sin, c) == HalfChannel(v, rd, cos, sin, Source(rd, c))
  {
    if c < rd && c % 2 == 0 {
      assert Source(rd, c + 1) == c / 2 + rd / 2;
    } else if c < rd {
      assert Source(rd, c - 1) == c / 2;
    }
  }

  /** Rotating interleaved pairs of the reordered head is reordering the half-split rotation. */
  lemma RotationCommutes(v: Vector, rd: nat, cos: Vector, sin: Vector)
    requires Rotary(v, rd, cos, sin)
    ensures Within(HeadOrder(|v|, rd), |v|)
    ensures RotatePairs(Gather(v, HeadOrder(|v|, rd)), rd, cos, sin)
        == Gather(RotateHalves(v, rd, cos, sin), HeadOrder(|v|, rd))
  {
    HeadOrderIsPermutation(|v|, rd);
    var w := Gather(v, HeadOrder(|v|, rd));
    forall c | 0 <= c < |v|
      ensures PairChannel(w, rd, cos, sin, c) == HalfChannel(v, rd, cos, sin, Source(rd, c))
    {
      ChannelCommutes(v, w, rd, cos, sin, c);
    }
  }

  /** Root-mean-square norm: a gain computed from the sum of squares, then a weight per channel. */
  function Norm(v: Vector, weight: Option<Vector>, gain: real -> real): (r: Vector)
    requires weight.Some? ==> |weight.value| == |v|
    ensures |r| == |v|
  {
    match weight case None => v case Some(w) => Times(Scale(v, gain(Dot(v, v))), w)
  }

  function GatherSome<T>(t: Option<seq<T>>, p: seq<nat>): (r: Option<seq<T>>)
    requires t.Some? ==> forall i :: 0 <= i < |p| ==> p[i] < |t.value|
    ensures r.Some? == t.Some? && (r.Some? ==> |r.value| == |p|)
  {
    match t case None => None case Some(s) => Some(Gather(s, p))
  }

  lemma ScaleCommutes(v: Vector, k: real, p: seq<nat>)
    requires Within(p, |v|)
    ensures Scale(Gather(v, p), k) == Gather(Scale(v, k), p)
  {
    assert forall i :: 0 <= i < |p| ==> Scale(Gather(v, p), k)[i] == Scale(v, k)[p[i]];
  }

  lemma TimesCommutes(a: Vector, b: Vector, p: seq<nat>)
    requires |a| == |b| && Within(p, |a|)
    ensures Times(Gather(a, p), Gather(b, p)) == Gather(Times(a, b), p)
  {
    assert forall i :: 0 <= i < |p| ==> Times(Gather(a, p), Gather(b, p))[i] == Times(a, b)[p[i]];
  }

  /** The norm commutes with a permutation: its gain does not see the order. */
  lemma NormCommutes(v: Vector, weight: Option<Vector>, gain: real -> real, p: seq<nat>)
    requires |p| == |v| && multiset(p) == multiset(Range(|p|)) && Within(p, |v|)
    requires weight.Some? ==> |weight.value| == |v|
    ensures Norm(Gather(v, p), GatherSome(weight, p), gain) == Gather(Norm(v, weight, gain), p)
  {
    if weight.Some? {
      DotPermuted(v, v, p);
      var k := gain(Dot(v, v));
      ScaleCommutes(v, k, p);
      TimesCommutes(Scale(v, k), weight.value, p);
    }
  }

  // ---------- Projections ----------

  datatype Projection = Projection(weight: Matrix, bias: Option<Vector>)

  ghost predicate Projects(p: Projection, rows: nat, dim: nat) {
    Shaped(p.weight, rows, dim) && (p.bias.Some? ==> |p.bias.value| == rows)
  }

  function SourceRow(hd: nat, rd: nat, i: nat): nat
    requires 0 < hd
  {
    FloorBounds(i, hd);
    i / hd * hd + Source(rd, i % hd)
  }

  /** The order of all rows: every head reordered in place. */
  function RowOrder(rows: nat, hd: nat, rd: nat): (r: seq<nat>)
    requires 0 < hd
    ensures |r| == rows && forall i :: 0 <= i < rows ==> r[i] == SourceRow(hd, rd, i)
  {
    seq(rows, i requires 0 <= i < rows => SourceRow(hd, rd, i))
  }

  lemma SourceInside(heads: nat, hd: nat, rd: nat, h: nat, c: nat)
    requires rd <= hd && rd % 2 == 0 && h < heads && c < hd
    ensures Source(rd, c) < hd
    ensures 0 <= h * hd && h * hd + c < heads * hd && h * hd + Source(rd, c) < heads * hd
    ensures SourceRow(hd, rd, h * hd + c) == h * hd + Source(rd, c)
  {
    MulNonNegative(h, hd);
    MulStep(h, hd);
    MulMonotone(h + 1, heads, hd);
    DivUnique(h * hd + c, hd, h, c);
  }

  lemma RowsInside(heads: nat, hd: nat, rd: nat, rows: nat)
    requires 0 < hd && rd <= hd && rd % 2 == 0 && rows == heads * hd
    ensures forall i :: 0 <= i < rows ==> RowOrder(rows, hd, rd)[i] < rows
  {
    forall i | 0 <= i < rows
      ensures SourceRow(hd, rd, i) < rows
    {
      FloorBounds(i, hd);
      if i / hd >= heads { MulMonotone(heads, i / hd, hd); }
      SourceInside(heads, hd, rd, i / hd, i % hd);
    }
  }

  lemma RowOfReordered(y: Vector, order: seq<nat>, heads: nat, hd: nat, rd: nat, h: nat, c: nat)
    requires rd <= hd && rd % 2 == 0 && h < heads && c < hd && |y| == heads * hd == |order| && (h + 1) * hd <= |y|
    requires Within(order, |y|) && forall i :: 0 <= i < |y| ==> order[i] == SourceRow(hd, rd, i)
    ensures Source(rd, c) < hd
    ensures Part(Gather(y, order), h, hd)[c] == Part(y, h, hd)[Source(rd, c)]
  {
    SourceInside(heads, hd, rd, h, c);
    var i := h * hd + c;
    assert order[i] == h * hd + Source(rd, c);
  }

  /** Reordering rows reorders each head of the output by the head order. */
  lemma HeadOfReordered(y: Vector, heads: nat, hd: nat, rd: nat, h: nat)
    requires 0 < hd && rd <= hd && rd % 2 == 0 && h < heads && |y| == heads * hd && (h + 1) * hd <= |y|
    requires Within(RowOrder(|y|, hd, rd), |y|) && Within(HeadOrder(hd, rd), hd)
    ensures Part(Gather(y, RowOrder(|y|, hd, rd)), h, hd) == Gather(Part(y, h, hd), HeadOrder(hd, rd))
  {
    forall c | 0 <= c < hd
      ensures Part(Gather(y, RowOrder(|y|, hd, rd)), h, hd)[c] == Gather(Part(y, h, hd), HeadOrder(hd, rd))[c]
    {
      RowOfReordered(y, RowOrder(|y|, hd, rd), heads, hd, rd, h, c);
    }
  }

  lemma OutputReordered(p: Projection, x: Vector, order: seq<nat>)
    requires Projects(p, |p.weight|, |x|) && |order| == |p.weight|
    requires Within(order, |p.weight|)
    ensures Apply(Gather(p.weight, order), GatherSome(p.bias, order), x) == Gather(Apply(p.weight, p.bias, x), order)
  {
  }

  // ---------- Conversion ----------

  /** Strided slice assignments fill the even and the odd positions. */
  method HalfToInterleaved(headDim: nat) returns (perm: array<nat>)
    requires headDim % 2 == 0
    ensures fresh(perm) && perm[..] == HeadOrder(headDim, headDim)
  {
    var half := headDim / 2;
    perm := new nat[headDim];
    forall j | 0 <= j < headDim && j % 2 == 0 { perm[j] := j / 2; }
    forall j | 0 <= j < headDim && j % 2 == 1 { perm[j] := half + j / 2; }
  }

  lemma BlockOf(i: nat, hd: nat, rows: nat)
    requires 0 < hd && rows % hd == 0 && i < rows
    ensures 0 <= i / hd < rows / hd && 0 <= i % hd < hd && rows / hd * hd == rows
  {
    FloorBounds(i, hd);
    FloorBounds(rows, hd);
    if i / hd >= rows / hd { MulMonotone(rows / hd, i / hd, hd); }
  }

  function FlatIndex(indices: array2<nat>, rows: nat, i: nat): nat
    requires 0 < indices.Length1 && rows % indices.Length1 == 0 && indices.Length0 == rows / indices.Length1 && i < rows
    reads indices
  {
    BlockOf(i, indices.Length1, rows);
    indices[i / indices.Length1, i % indices.Length1]
  }

  function Row(h: nat, hd: nat, c: nat): (r: nat)
    ensures r == h * hd + c
  {
    MulNonNegative(h, hd);
    h * hd + c
  }

  /** All row indices as a table of blocks, whose first rd columns are overwritten by the head order. */
  method RowIndices(rows: nat, hd: nat, rd: nat) returns (order: seq<nat>)
    requires 0 < hd && rd <= hd && rd % 2 == 0 && rows % hd == 0
    ensures order == RowOrder(rows, hd, rd)
  {
    FloorBounds(rows, hd);
    var base := HalfToInterleaved(rd);
    var indices := new nat[rows / hd, hd]((h: nat, c: nat) => Row(h, hd, c));
    forall h, c | 0 <= h < indices.Length0 && 0 <= c < rd {
      indices[h, c] := Row(h, hd, base[c]);
    }
    assert forall c :: 0 <= c < rd ==> base[..][c] == Source(rd, c);
    assert forall h, c :: 0 <= h < indices.Length0 && 0 <= c < hd ==> indices[h, c] == Row(h, hd, Source(rd, c));
    order := seq(rows, i requires 0 <= i < rows reads indices => FlatIndex(indices, rows, i));
    forall i | 0 <= i < rows
      ensures order[i] == SourceRow(hd, rd, i)
    {
      BlockOf(i, hd, rows);
    }
  }

  /** The stored row behind row i of the queries (half 0) or of the gates (half 1). */
  function PairedRow(hd: nat, rows: nat, half: nat, i: nat): (k: nat)
    requires 0 < hd && rows % hd == 0 && half < 2 && i < rows
    ensures i / hd >= 0 && k == (2 * (i / hd) + half) * hd + i % hd < 2 * rows
  {
    BlockOf(i, hd, rows);
    var b := i / hd;
    MulMonotone(2 * b + half + 1, 2 * (rows / hd), hd);
    MulStep(2 * b + half, hd);
    assert 2 * (rows / hd) * hd == 2 * (rows / hd * hd);
    Row(2 * b + half, hd, i % hd)
  }

  /** One half of a projection that stores a query block and a gate block per head. */
  function Paired<T>(t: seq<T>, hd: nat, rows: nat, half: nat): (r: seq<T>)
    requires 0 < hd && rows % hd == 0 && half < 2 && |t| == 2 * rows
    ensures |r| == rows && forall i :: 0 <= i < rows ==> r[i] == t[PairedRow(hd, rows, half, i)]
  {
    seq(rows, i requires 0 <= i < rows => t[PairedRow(hd, rows, half, i)])
  }

  /** Head h of the queries is block 2h of the stored projection, head h of the gates block 2h + 1. */
  lemma SplitPerHead<T>(t: seq<T>, heads: nat, hd: nat, rows: nat, half: nat, h: nat)
    requires 0 < hd && rows == heads * hd && rows % hd == 0 && half < 2 && |t| == 2 * rows && h < heads
    ensures (h + 1) * hd <= rows && (2 * h + half + 1) * hd <= |t|
    ensures Part(Paired(t, hd, rows, half), h, hd) == Part(t, 2 * h + half, hd)
  {
    MulMonotone(h + 1, heads, hd);
    MulMonotone(2 * h + half + 1, 2 * heads, hd);
    assert 2 * heads * hd == 2 * rows;
    forall c | 0 <= c < hd
      ensures Part(Paired(t, hd, rows, half), h, hd)[c] == Part(t, 2 * h + half, hd)[c]
    {
      SourceInside(heads, hd, 0, h, c);
      DivUnique(h * hd + c, hd, h, c);
    }
  }

  datatype Converted<T> = Converted(rows: seq<T>, gate: Option<seq<T>>)

  /** What the conversion refuses: a fused bias, an unexpected row count, rows that are not whole heads. */
  predicate Refused(rows: nat, isWeight: bool, gatedQuery: bool, permute: bool, heads: nat, hd: nat)
    requires 0 < hd
  {
    if gatedQuery then (rows == 2 * (heads * hd) && !isWeight) || (rows != 2 * (heads * hd) && rows != heads * hd)
    else permute && rows % hd != 0
  }

  lemma WholeHeads(heads: nat, hd: nat)
    requires 0 < hd
    ensures heads * hd >= 0 && (heads * hd) % hd == 0
    ensures heads > 0 ==> heads * hd > 0
  {
    MulNonNegative(heads, hd);
    DivUnique(heads * hd, hd, heads, 0);
    if heads > 0 { MulMonotone(1, heads, hd); }
  }

  lemma BlocksInside(rows: nat, hd: nat, rd: nat)
    requires 0 < hd && rd <= hd && rd % 2 == 0 && rows % hd == 0
    ensures Within(RowOrder(rows, hd, rd), rows)
  {
    FloorBounds(rows, hd);
    RowsInside(rows / hd, hd, rd, rows);
  }

  function Reordered<T>(t: seq<T>, hd: nat, rd: nat): (r: seq<T>)
    requires 0 < hd && rd <= hd && rd % 2 == 0
    ensures |r| == |t|
  {
    if |t| % hd != 0 then t else BlocksInside(|t|, hd, rd); Gather(t, RowOrder(|t|, hd, rd))
  }

  function ConvertedRows<T>(t: seq<T>, gatedQuery: bool, permute: bool, heads: nat, hd: nat, rd: nat): Converted<T>
    requires 0 < hd && rd <= hd && rd % 2 == 0
  {
    WholeHeads(heads, hd);
    var expected := heads * hd;
    var fused := gatedQuery && |t| == 2 * expected;
    var rows := if fused then Paired(t, hd, expected, 0) else t;
    Converted(if permute then Reordered(rows, hd, rd) else rows,
              if fused then Some(Paired(t, hd, expected, 1)) else None)
  }

  /** Split off the gate of a fused query projection, then reorder the rows. */
  method ConvertProjection<T>(t: seq<T>, isWeight: bool, gatedQuery: bool, permute: bool, heads: nat, hd: nat, rd: nat)
    returns (r: Result<Converted<T>>)
    requires 0 < heads && 0 < hd && rd <= hd && rd % 2 == 0
    ensures r.Failure? <==> Refused(|t|, isWeight, gatedQuery, permute, heads, hd)
    ensures r.Success? ==> r.value == ConvertedRows(t, gatedQuery, permute, heads, hd, rd)
  {
    var rows, gate := t, None;
    WholeHeads(heads, hd);
    if gatedQuery {
      var expected := heads * hd;
      if |t| == 2 * expected {
        if !isWeight { return Failure; }
        gate := Some(Paired(t, hd, expected, 1));
        rows := Paired(t, hd, expected, 0);
      } else if |t| != expected {
        return Failure;
      }
    }
    if permute {
      if |rows| % hd != 0 { return Failure; }
      var order := RowIndices(|rows|, hd, rd);
      BlocksInside(|rows|, hd, rd);
      rows := Gather(rows, order);
    }
    return Success(Converted(rows, gate));
  }

  // ---------- Attention before and after ----------

  function ReorderedSome<T>(t: Option<seq<T>>, hd: nat, rd: nat): (r: Option<seq<T>>)
    requires 0 < hd && rd <= hd && rd % 2 == 0
    ensures r.Some? == t.Some? && (r.Some? ==> |r.value| == |t.value|)
  {
    match t case None => None case Some(s) => Some(Reordered(s, hd, rd))
  }

  ghost predicate HeadShaped(norm: Option<Vector>, hd: nat, rd: nat, cos: Vector, sin: Vector) {
    0 < hd && rd <= hd && rd % 2 == 0 && |cos| == |sin| == rd / 2 && (norm.Some? ==> |norm.value| == hd)
  }

  /** One block of a projection's output, normed and rotated in the half-split layout. */
  ghost function HalfSplitHead(p: Projection, norm: Option<Vector>, gain: real -> real, x: Vector, block: nat,
        hd: nat, rd: nat, cos: Vector, sin: Vector): (r: Vector)
    requires HeadShaped(norm, hd, rd, cos, sin) && Projects(p, |p.weight|, |x|) && (block + 1) * hd <= |p.weight|
    ensures |r| == hd
  {
    RotateHalves(Norm(Part(Apply(p.weight, p.bias, x), block, hd), norm, gain), rd, cos, sin)
  }

  /** The same in the interleaved layout. */
  ghost function InterleavedHead(p: Projection, norm: Option<Vector>, gain: real -> real, x: Vector, block: nat,
        hd: nat, rd: nat, cos: Vector, sin: Vector): (r: Vector)
    requires HeadShaped(norm, hd, rd, cos, sin) && Projects(p, |p.weight|, |x|) && (block + 1) * hd <= |p.weight|
    ensures |r| == hd
  {
    RotatePairs(Norm(Part(Apply(p.weight, p.bias, x), block, hd), norm, gain), rd, cos, sin)
  }

  ghost function ReorderedProjection(p: Projection, hd: nat, rd: nat): (r: Projection)
    requires 0 < hd && rd <= hd && rd % 2 == 0
  {
    Projection(Reordered(p.weight, hd, rd), ReorderedSome(p.bias, hd, rd))
  }

  lemma ReorderedProjects(p: Projection, heads: nat, hd: nat, rd: nat, dim: nat)
    requires 0 < hd && rd <= hd && rd % 2 == 0 && Projects(p, heads * hd, dim)
    ensures Projects(ReorderedProjection(p, hd, rd), heads * hd, dim)
    ensures Within(RowOrder(heads * hd, hd, rd), heads * hd)
    ensures ReorderedProjection(p, hd, rd)
         == Projection(Gather(p.weight, RowOrder(heads * hd, hd, rd)), GatherSome(p.bias, RowOrder(heads * hd, hd, rd)))
  {
    WholeHeads(heads, hd);
    BlocksInside(heads * hd, hd, rd);
  }

  /** A norm over one head is reordered like the head. */
  lemma NormReordered(norm: Option<Vector>, hd: nat, rd: nat)
    requires 0 < hd && rd <= hd && rd % 2 == 0 && (norm.Some? ==> |norm.value| == hd)
    requires Within(HeadOrder(hd, rd), hd)
    ensures ReorderedSome(norm, hd, rd) == GatherSome(norm, HeadOrder(hd, rd))
  {
    if norm.Some? {
      DivUnique(hd, hd, 1, 0);
      forall i | 0 <= i < hd
        ensures RowOrder(hd, hd, rd)[i] == HeadOrder(hd, rd)[i]
      {
        DivBelow(i, hd);
      }
      BlocksInside(hd, hd, rd);
      assert RowOrder(hd, hd, rd) == HeadOrder(hd, rd);
    }
  }

  /** Each converted head is the original head, reordered. */
  lemma HeadConverted(p: Projection, norm: Option<Vector>, gain: real -> real, x: Vector, heads: nat, h: nat,
        hd: nat, rd: nat, cos: Vector, sin: Vector)
    requires HeadShaped(norm, hd, rd, cos, sin) && Projects(p, heads * hd, |x|) && h < heads
    ensures (h + 1) * hd <= heads * hd && Projects(ReorderedProjection(p, hd, rd), heads * hd, |x|)
    ensures Within(HeadOrder(hd, rd), hd)
    ensures InterleavedHead(ReorderedProjection(p, hd, rd), ReorderedSome(norm, hd, rd), gain, x, h, hd, rd, cos, sin)
         == Gather(HalfSplitHead(p, norm, gain, x, h, hd, rd, cos, sin), HeadOrder(hd, rd))
  {
    MulMonotone(h + 1, heads, hd);
    ReorderedProjects(p, heads, hd, rd, |x|);
    HeadOrderIsPermutation(hd, rd);
    OutputReordered(p, x, RowOrder(heads * hd, hd, rd));
    var y := Apply(p.weight, p.bias, x);
    HeadOfReordered(y, heads, hd, rd, h);
    var v := Part(y, h, hd);
    NormReordered(norm, hd, rd);
    NormCommutes(v, norm, gain, HeadOrder(hd, rd));
    RotationCommutes(Norm(v, norm, gain), rd, cos, sin);
  }

  /**
    Attention is preserved: for any inputs, norms and angles at the two positions, the score of
    any query head against any key head is the same after conversion.
   */
  lemma ScoresPreserved(q: Projection, k: Projection, qNorm: Option<Vector>, kNorm: Option<Vector>,
        gain: real -> real, x: Vector, y: Vector, qHeads: nat, kHeads: nat, i: nat, j: nat, hd: nat, rd: nat,
        cosQ: Vector, sinQ: Vector, cosK: Vector, sinK: Vector)
    requires HeadShaped(qNorm, hd, rd, cosQ, sinQ) && HeadShaped(kNorm, hd, rd, cosK, sinK)
    requires Projects(q, qHeads * hd, |x|) && Projects(k, kHeads * hd, |y|) && i < qHeads && j < kHeads
    ensures (i + 1) * hd <= qHeads * hd && (j + 1) * hd <= kHeads * hd
    ensures Projects(ReorderedProjection(q, hd, rd), qHeads * hd, |x|)
    ensures Projects(ReorderedProjection(k, hd, rd), kHeads * hd, |y|)
    ensures var q', k' := ReorderedProjection(q, hd, rd), ReorderedProjection(k, hd, rd);
            var qNorm', kNorm' := ReorderedSome(qNorm, hd, rd), ReorderedSome(kNorm, hd, rd);
            Dot(InterleavedHead(q', qNorm', gain, x, i, hd, rd, cosQ, sinQ),
                InterleavedHead(k', kNorm', gain, y, j, hd, rd, cosK, sinK))
            == Dot(HalfSplitHead(q, qNorm, gain, x, i, hd, rd, cosQ, sinQ),
                   HalfSplitHead(k, kNorm, gain, y, j, hd, rd, cosK, sinK))
  {
    HeadConverted(q, qNorm, gain, x, qHeads, i, hd, rd, cosQ, sinQ);
    HeadConverted(k, kNorm, gain, y, kHeads, j, hd, rd, cosK, sinK);
    HeadOrderIsPermutation(hd, rd);
    DotPermuted(HalfSplitHead(q, qNorm, gain, x, i, hd, rd, cosQ, sinQ),
      HalfSplitHead(k, kNorm, gain, y, j, hd, rd, cosK, sinK), HeadOrder(hd, rd));
  }

  /** A fused projection split in two computes, head by head, what its query and gate blocks computed. */
  lemma FusedSplit(w: Matrix, x: Vector, heads: nat, hd: nat, h: nat, half: nat)
    requires 0 < hd && Shaped(w, 2 * (heads * hd), |x|) && h < heads && half < 2
    ensures (heads * hd) % hd == 0 && Shaped(Paired(w, hd, heads * hd, half), heads * hd, |x|)
    ensures (h + 1) * hd <= heads * hd && (2 * h + half + 1) * hd <= |w|
    ensures Part(Apply(Paired(w, hd, heads * hd, half), None, x), h, hd) == Part(Apply(w, None, x), 2 * h + half, hd)
  {
    WholeHeads(heads, hd);
    var y := Apply(w, None, x);
    assert Apply(Paired(w, hd, heads * hd, half), None, x) == Paired(y, hd, heads * hd, half);
    SplitPerHead(y, heads, hd, heads * hd, half, h);
  }

  // ---------- What the conversion returns ----------

  /** The projection stores a gate block after each query block. */
  predicate Fused(rows: nat, gatedQuery: bool, heads: nat, hd: nat) {
    gatedQuery && rows == 2 * (heads * hd)
  }

  lemma BlockRow(heads: nat, hd: nat, h: nat, c: nat)
    requires h < heads && c < hd
    ensures 0 <= h * hd && h * hd + c < heads * hd
  {
    SourceInside(heads, hd, 0, h, c);
  }

  lemma ReorderedRow<T>(t: seq<T>, heads: nat, hd: nat, rd: nat, h: nat, c: nat)
    requires rd <= hd && rd % 2 == 0 && |t| == heads * hd && h < heads && c < hd
    ensures Source(rd, c) < hd && 0 <= h * hd && h * hd + c < |t| && h * hd + Source(rd, c) < |t|
    ensures Reordered(t, hd, rd)[h * hd + c] == t[h * hd + Source(rd, c)]
  {
    WholeHeads(heads, hd);
    SourceInside(heads, hd, rd, h, c);
    BlocksInside(|t|, hd, rd);
  }

  lemma PairedAt<T>(t: seq<T>, heads: nat, hd: nat, half: nat, h: nat, c: nat)
    requires half < 2 && |t| == 2 * (heads * hd) && h < heads && c < hd && (heads * hd) % hd == 0
    ensures 0 <= h * hd && h * hd + c < heads * hd && 0 <= (2 * h + half) * hd && (2 * h + half) * hd + c < |t|
    ensures Paired(t, hd, heads * hd, half)[h * hd + c] == t[(2 * h + half) * hd + c]
  {
    BlockRow(heads, hd, h, c);
    DivUnique(h * hd + c, hd, h, c);
    MulNonNegative(2 * h + half, hd);
    assert PairedRow(hd, heads * hd, half, h * hd + c) == (2 * h + half) * hd + c;
  }

  /**
    What an accepted conversion returns, row by row: head h of the queries comes from block 2h of a fused projection
    and from block h of any other, its channels reordered if asked; head h of the gate is block 2h + 1, as stored.
   */
  lemma ConvertedRow<T>(t: seq<T>, gatedQuery: bool, permute: bool, heads: nat, hd: nat, rd: nat, h: nat, c: nat)
    requires rd <= hd && rd % 2 == 0 && h < heads && c < hd
    requires |t| == heads * hd || Fused(|t|, gatedQuery, heads, hd)
    ensures var r, fused := ConvertedRows(t, gatedQuery, permute, heads, hd, rd), Fused(|t|, gatedQuery, heads, hd);
            var block, channel := if fused then 2 * h else h, if permute then Source(rd, c) else c;
            && |r.rows| == heads * hd && (r.gate.Some? <==> fused) && (fused ==> |r.gate.value| == heads * hd)
            && 0 <= h * hd && h * hd + c < heads * hd && 0 <= block * hd && block * hd + channel < |t|
            && r.rows[h * hd + c] == t[block * hd + channel]
            && (fused ==>
                  && 0 <= (2 * h + 1) * hd && (2 * h + 1) * hd + c < |t|
                  && r.gate.value[h * hd + c] == t[(2 * h + 1) * hd + c])
  {
    WholeHeads(heads, hd);
    BlockRow(heads, hd, h, c);
    SourceInside(heads, hd, rd, h, c);
    var fused := Fused(|t|, gatedQuery, heads, hd);
    if fused {
      PairedAt(t, heads, hd, 0, h, c);
      PairedAt(t, heads, hd, 0, h, Source(rd, c));
      PairedAt(t, heads, hd, 1, h, c);
    }
    if permute { ReorderedRow(if fused then Paired(t, hd, heads * hd, 0) else t, heads, hd, rd, h, c); }
  }

  /** A projection after conversion: its rows, and its bias if it has one. */
  ghost function ConvertedProjection(p: Projection, gatedQuery: bool, heads: nat, hd: nat, rd: nat): Projection
    requires 0 < hd && rd <= hd && rd % 2 == 0
  {
    Projection(ConvertedRows(p.weight, gatedQuery, true, heads, hd, rd).rows,
               match p.bias case None => None
               case Some(b) => Some(ConvertedRows(b, gatedQuery, true, heads, hd, rd).rows))
  }

  /** What a conversion accepts: whole heads, or whole heads with their gates and no bias. */
  ghost predicate Convertible(p: Projection, gatedQuery: bool, heads: nat, hd: nat, dim: nat) {
    if Fused(|p.weight|, gatedQuery, heads, hd) then Shaped(p.weight, |p.weight|, dim) && p.bias.None?
    else Projects(p, heads * hd, dim)
  }

  /** The block of the stored projection that head h comes from. */
  function StoredBlock(rows: nat, gatedQuery: bool, heads: nat, hd: nat, h: nat): nat {
    if Fused(rows, gatedQuery, heads, hd) then 2 * h else h
  }

  lemma StoredBlockInside(rows: nat, gatedQuery: bool, heads: nat, hd: nat, h: nat)
    requires h < heads && 0 < hd && (rows == heads * hd || Fused(rows, gatedQuery, heads, hd))
    ensures (StoredBlock(rows, gatedQuery, heads, hd, h) + 1) * hd <= rows
  {
    MulMonotone(h + 1, heads, hd);
    MulMonotone(2 * h + 1, 2 * heads, hd);
    assert 2 * heads * hd == 2 * (heads * hd);
  }

  /** A block of a projection that takes this input. */
  ghost predicate HeadOf(p: Projection, x: Vector, block: nat, hd: nat) {
    Projects(p, |p.weight|, |x|) && (block + 1) * hd <= |p.weight|
  }

  /** The query half of a fused projection, as a projection of its own. */
  ghost function QueryHalf(p: Projection, gatedQuery: bool, heads: nat, hd: nat): Projection
    requires 0 < hd
  {
    WholeHeads(heads, hd);
    if Fused(|p.weight|, gatedQuery, heads, hd) then Projection(Paired(p.weight, hd, heads * hd, 0), None) else p
  }

  lemma QueryHalfIs(p: Projection, gatedQuery: bool, x: Vector, heads: nat, hd: nat, rd: nat, h: nat)
    requires 0 < hd && rd <= hd && rd % 2 == 0 && h < heads && 0 < heads
    requires Convertible(p, gatedQuery, heads, hd, |x|)
    ensures var q := QueryHalf(p, gatedQuery, heads, hd);
            var block := StoredBlock(|p.weight|, gatedQuery, heads, hd, h);
            && Projects(q, heads * hd, |x|) && Projects(p, |p.weight|, |x|)
            && (h + 1) * hd <= heads * hd && (block + 1) * hd <= |p.weight|
            && ConvertedProjection(p, gatedQuery, heads, hd, rd) == ReorderedProjection(q, hd, rd)
            && Part(Apply(q.weight, q.bias, x), h, hd) == Part(Apply(p.weight, p.bias, x), block, hd)
  {
    WholeHeads(heads, hd);
    StoredBlockInside(|p.weight|, gatedQuery, heads, hd, h);
    MulMonotone(h + 1, heads, hd);
    if Fused(|p.weight|, gatedQuery, heads, hd) { FusedSplit(p.weight, x, heads, hd, h, 0); }
  }

  /** Each head of what the conversion returns is the stored head, reordered. */
  lemma ConvertedHead(p: Projection, gatedQuery: bool, norm: Option<Vector>, gain: real -> real, x: Vector,
        heads: nat, h: nat, hd: nat, rd: nat, cos: Vector, sin: Vector)
    requires HeadShaped(norm, hd, rd, cos, sin) && h < heads && Convertible(p, gatedQuery, heads, hd, |x|)
    ensures var block := StoredBlock(|p.weight|, gatedQuery, heads, hd, h);
            && Projects(ConvertedProjection(p, gatedQuery, heads, hd, rd), heads * hd, |x|)
            && Projects(p, |p.weight|, |x|)
            && (h + 1) * hd <= heads * hd && (block + 1) * hd <= |p.weight| && Within(HeadOrder(hd, rd), hd)
            && InterleavedHead(ConvertedProjection(p, gatedQuery, heads, hd, rd), ReorderedSome(norm, hd, rd), gain, x,
                               h, hd, rd, cos, sin)
               == Gather(HalfSplitHead(p, norm, gain, x, block, hd, rd, cos, sin), HeadOrder(hd, rd))
  {
    QueryHalfIs(p, gatedQuery, x, heads, hd, rd, h);
    HeadConverted(QueryHalf(p, gatedQuery, heads, hd), norm, gain, x, heads, h, hd, rd, cos, sin);
  }

  /** Two interleaved heads score like two half-split ones. */
  ghost predicate SameScore(q': Projection, qNorm': Option<Vector>, i': nat, k': Projection, kNorm': Option<Vector>,
        j': nat, q: Projection, qNorm: Option<Vector>, i: nat, k: Projection, kNorm: Option<Vector>, j: nat,
        gain: real -> real, x: Vector, y: Vector, hd: nat, rd: nat, cosQ: Vector, sinQ: Vector, cosK: Vector,
        sinK: Vector)
  {
    && HeadShaped(qNorm', hd, rd, cosQ, sinQ) && HeadShaped(kNorm', hd, rd, cosK, sinK)
    && HeadShaped(qNorm, hd, rd, cosQ, sinQ) && HeadShaped(kNorm, hd, rd, cosK, sinK)
    && HeadOf(q', x, i', hd) && HeadOf(k', y, j', hd) && HeadOf(q, x, i, hd) && HeadOf(k, y, j, hd)
    && Dot(InterleavedHead(q', qNorm', gain, x, i', hd, rd, cosQ, sinQ),
           InterleavedHead(k', kNorm', gain, y, j', hd, rd, cosK, sinK))
       == Dot(HalfSplitHead(q, qNorm, gain, x, i, hd, rd, cosQ, sinQ),
              HalfSplitHead(k, kNorm, gain, y, j, hd, rd, cosK, sinK))
  }

  /**
    Attention is preserved by what the conversion returns: for any inputs, norms and angles at the two positions, the
    score of any converted query head against any converted key head is that of the stored blocks they come from.
   */
  lemma ConversionKeepsScores(q: Projection, k: Projection, gatedQuery: bool, qNorm: Option<Vector>,
        kNorm: Option<Vector>, gain: real -> real, x: Vector, y: Vector, qHeads: nat, kHeads: nat, i: nat, j: nat,
        hd: nat, rd: nat, cosQ: Vector, sinQ: Vector, cosK: Vector, sinK: Vector)
    requires HeadShaped(qNorm, hd, rd, cosQ, sinQ) && HeadShaped(kNorm, hd, rd, cosK, sinK)
    requires Convertible(q, gatedQuery, qHeads, hd, |x|) && Projects(k, kHeads * hd, |y|) && i < qHeads && j < kHeads
    ensures SameScore(ConvertedProjection(q, gatedQuery, qHeads, hd, rd), ReorderedSome(qNorm, hd, rd), i,
                      ConvertedProjection(k, false, kHeads, hd, rd), ReorderedSome(kNorm, hd, rd), j,
                      q, qNorm, StoredBlock(|q.weight|, gatedQuery, qHeads, hd, i), k, kNorm, j,
                      gain, x, y, hd, rd, cosQ, sinQ, cosK, sinK)
  {
    ConvertedHead(q, gatedQuery, qNorm, gain, x, qHeads, i, hd, rd, cosQ, sinQ);
    ConvertedHead(k, false, kNorm, gain, y, kHeads, j, hd, rd, cosK, sinK);
    HeadOrderIsPermutation(hd, rd);
    var block := StoredBlock(|q.weight|, gatedQuery, qHeads, hd, i);
    DotPermuted(HalfSplitHead(q, qNorm, gain, x, block, hd, rd, cosQ, sinQ),
      HalfSplitHead(k, kNorm, gain, y, j, hd, rd, cosK, sinK), HeadOrder(hd, rd));
  }

  /** The gate that the conversion returns computes, head by head, what the gate blocks computed. */
  lemma ConvertedGate(w: Matrix, permute: bool, x: Vector, heads: nat, hd: nat, rd: nat, h: nat)
    requires 0 < hd && rd <= hd && rd % 2 == 0 && h < heads && Shaped(w, 2 * (heads * hd), |x|)
    ensures var r := ConvertedRows(w, true, permute, heads, hd, rd);
            && r.gate.Some? && Shaped(r.gate.value, heads * hd, |x|)
            && (h + 1) * hd <= heads * hd && (2 * h + 2) * hd <= |w|
            && Part(Apply(r.gate.value, None, x), h, hd) == Part(Apply(w, None, x), 2 * h + 1, hd)
  {
    WholeHeads(heads, hd);
    FusedSplit(w, x, heads, hd, h, 1);
  }
}
