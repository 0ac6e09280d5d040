/**
  From packs to training examples: the label shift, the masking of segment
  ends, batch padding, and the conservation of next-token pairs end to end.
 */
module Collate {
  import opened Sequences
  import opened Arithmetic
  import opened BestFit
  import opened Packing
  import opened PackContents

  const IGNORE := -100

  datatype Example = Example(inputIds: Row, targetIds: Row, lossMask: seq<bool>, positionIds: Row)

  /** What the batch loader hands over: a pack with its segment lengths, or a ready-made window. */
  datatype Sample = Pack(tokens: Row, mask: Row, lengths: Row) | Window(example: Example)

  datatype Pair = Pair(token: int, target: int, position: int)

  function Sum(s: seq<int>): int {
    if s == [] then 0 else Sum(s[..|s| - 1]) + s[|s| - 1]
  }

  ghost predicate WellFormed(e: Example) {
    |e.targetIds| == |e.lossMask| == |e.positionIds| == |e.inputIds|
  }

  /** What the dataset checks of a stored pack before collation. */
  ghost predicate ValidPack(tokens: Row, mask: Row, lengths: Row) {
    && |mask| == |tokens| && Sum(lengths) == |tokens|
    && forall i :: 0 <= i < |lengths| ==> lengths[i] > 0
  }

  lemma {:induction false} SumNonNegative(lengths: Row)
    requires forall i :: 0 <= i < |lengths| ==> lengths[i] > 0
    ensures Sum(lengths) >= |lengths|
  {
    if lengths != [] { SumNonNegative(lengths[..|lengths| - 1]); }
  }

  lemma {:induction false} SumPrefix(lengths: Row, k: nat)
    requires k <= |lengths| && forall i :: 0 <= i < |lengths| ==> lengths[i] > 0
    ensures 0 <= Sum(lengths[..k]) <= Sum(lengths)
  {
    SumNonNegative(lengths[..k]);
    if k == |lengths| {
      assert lengths[..k] == lengths;
    } else {
      SumPrefix(lengths[..|lengths| - 1], k);
      assert lengths[..|lengths| - 1][..k] == lengths[..k];
    }
  }

  function ToBools(mask: Row): (r: seq<bool>)
    ensures |r| == |mask| && forall i :: 0 <= i < |r| ==> r[i] == (mask[i] != 0)
  {
    seq(|mask|, i requires 0 <= i < |mask| => mask[i] != 0)
  }

  function Join(a: Example, b: Example): Example {
    Example(a.inputIds + b.inputIds, a.targetIds + b.targetIds, a.lossMask + b.lossMask, a.positionIds + b.positionIds)
  }

  /** One segment on its own: predict the next token, except at the end. */
  function CollateSegment(tokens: Row, mask: Row): (e: Example)
    requires |tokens| == |mask| > 0
    ensures WellFormed(e)
  {
    Example(tokens, tokens[1..] + [IGNORE], ToBools(mask[1..]) + [false], seq(|tokens|, i => i))
  }

  /** A pack is the join of its segments, each collated on its own. */
  ghost function CollateSegments(tokens: Row, mask: Row, lengths: Row): (e: Example)
    requires ValidPack(tokens, mask, lengths)
    ensures WellFormed(e) && e.inputIds == tokens
    decreases |lengths|
  {
    if lengths == [] then Example([], [], [], [])
    else
      var m := |lengths| - 1;
      SumPrefix(lengths, m);
      var k := |tokens| - lengths[m];
      assert tokens == tokens[..k] + tokens[k..];
      Join(CollateSegments(tokens[..k], mask[..k], lengths[..m]), CollateSegment(tokens[k..], mask[k..]))
  }

  /** The first `end` labels are those of the collated segments; the rest are still plainly shifted. */
  ghost predicate EndsMasked(tokens: Row, mask: Row, targets: Row, out: seq<bool>, prefix: Example, end: nat) {
    && end <= |tokens| == |mask| == |targets| == |out|
    && targets[..end] == prefix.targetIds && out[..end] == prefix.lossMask
    && forall i :: end <= i < |tokens| - 1 ==> targets[i] == tokens[i + 1] && out[i] == (mask[i + 1] != 0)
  }

  /** Overwriting the last slot of a stretch completes the stretch. */
  lemma Blank<T>(s: seq<T>, stretch: seq<T>, end: nat, next: nat)
    requires end < next <= |s| && |stretch| == next - end
    requires forall i :: end <= i < next - 1 ==> s[i] == stretch[i - end]
    ensures s[next - 1 := stretch[next - end - 1]][..next] == s[..end] + stretch
  {
  }

  lemma EndMasked(tokens: Row, mask: Row, targets: Row, out: seq<bool>, prefix: Example, end: nat, next: nat)
    requires EndsMasked(tokens, mask, targets, out, prefix, end) && end < next <= |tokens|
    ensures EndsMasked(tokens, mask, targets[next - 1 := IGNORE], out[next - 1 := false],
                       Join(prefix, CollateSegment(tokens[end..next], mask[end..next])), next)
  {
    var segment := CollateSegment(tokens[end..next], mask[end..next]);
    Blank(targets, segment.targetIds, end, next);
    Blank(out, segment.lossMask, end, next);
  }

  /** One more segment at the end of a pack. */
  lemma {:induction false} CollateAppend(tokens: Row, mask: Row, lengths: Row, more: Row, moreMask: Row)
    requires ValidPack(tokens, mask, lengths) && |more| == |moreMask| > 0
    ensures ValidPack(tokens + more, mask + moreMask, lengths + [|more|])
    ensures CollateSegments(tokens + more, mask + moreMask, lengths + [|more|])
         == Join(CollateSegments(tokens, mask, lengths), CollateSegment(more, moreMask))
  {
    assert (lengths + [|more|])[..|lengths|] == lengths;
    assert (tokens + more)[..|tokens|] == tokens && (tokens + more)[|tokens|..] == more;
    assert (mask + moreMask)[..|tokens|] == mask && (mask + moreMask)[|tokens|..] == moreMask;
  }

  lemma {:induction false} CollateNext(tokens: Row, mask: Row, lengths: Row, j: nat, end: nat)
    requires j < |lengths| && |mask| == |tokens| && lengths[j] > 0 && end + lengths[j] <= |tokens|
    requires ValidPack(tokens[..end], mask[..end], lengths[..j])
    ensures var next := end + lengths[j];
            && ValidPack(tokens[..next], mask[..next], lengths[..j + 1])
            && CollateSegments(tokens[..next], mask[..next], lengths[..j + 1])
               == Join(CollateSegments(tokens[..end], mask[..end], lengths[..j]),
                  CollateSegment(tokens[end..next], mask[end..next]))
  {
    var next := end + lengths[j];
    assert lengths[..j + 1] == lengths[..j] + [lengths[j]];
    assert tokens[..next] == tokens[..end] + tokens[end..next] && mask[..next] == mask[..end] + mask[end..next];
    CollateAppend(tokens[..end], mask[..end], lengths[..j], tokens[end..next], mask[end..next]);
  }

  /** Zero-based positions of each segment. */
  function Positions(lengths: Row): (r: seq<Row>)
    ensures |r| == |lengths|
    ensures forall i :: 0 <= i < |r| ==> r[i] == seq(if lengths[i] > 0 then lengths[i] else 0, j => j)
  {
    seq(|lengths|, i requires 0 <= i < |lengths| => seq(if lengths[i] > 0 then lengths[i] else 0, j => j))
  }

  lemma {:induction false} PositionsRestart(tokens: Row, mask: Row, lengths: Row)
    requires ValidPack(tokens, mask, lengths)
    ensures CollateSegments(tokens, mask, lengths).positionIds == Flatten(Positions(lengths))
    decreases |lengths|
  {
    if lengths != [] {
      var m := |lengths| - 1;
      SumPrefix(lengths, m);
      var k := |tokens| - lengths[m];
      PositionsRestart(tokens[..k], mask[..k], lengths[..m]);
      assert Positions(lengths)[..m] == Positions(lengths[..m]);
    }
  }

  /** Labels and mask of the whole pack shifted by one, as if it were a single segment. */
  method ShiftLabels(tokens: Row, mask: Row) returns (targets: array<int>, out: array<bool>)
    requires |mask| == |tokens|
    ensures fresh(targets) && fresh(out) && targets.Length == out.Length == |tokens|
    ensures EndsMasked(tokens, mask, targets[..], out[..], Example([], [], [], []), 0)
  {
    var n := |tokens|;
    targets := new int[n](_ => IGNORE);
    out := new bool[n](_ => false);
    for i := 0 to if n > 0 then n - 1 else 0
      invariant forall k :: 0 <= k < i ==> targets[k] == tokens[k + 1] && out[k] == (mask[k + 1] != 0)
    {
      targets[i] := tokens[i + 1];
      out[i] := mask[i + 1] != 0;
    }
  }

  lemma NextEnd(lengths: Row, j: nat, n: nat)
    requires j < |lengths| && Sum(lengths) == n && forall i :: 0 <= i < |lengths| ==> lengths[i] > 0
    ensures lengths[j] > 0 && Sum(lengths[..j]) + lengths[j] == Sum(lengths[..j + 1]) <= n
  {
    SumPrefix(lengths, j + 1);
    assert lengths[..j + 1][..j] == lengths[..j];
  }

  /** Segment j, collated on its own. */
  ghost function SegmentOf(tokens: Row, mask: Row, lengths: Row, j: nat): (e: Example)
    requires ValidPack(tokens, mask, lengths) && j < |lengths|
    ensures WellFormed(e)
  {
    NextEnd(lengths, j, |tokens|);
    SumPrefix(lengths, j);
    var end := Sum(lengths[..j]);
    CollateSegment(tokens[end..end + lengths[j]], mask[end..end + lengths[j]])
  }

  /** The first j segments, collated one after the other. */
  ghost function CollateUpTo(tokens: Row, mask: Row, lengths: Row, j: nat): (e: Example)
    requires ValidPack(tokens, mask, lengths) && j <= |lengths|
  {
    if j == 0 then Example([], [], [], [])
    else Join(CollateUpTo(tokens, mask, lengths, j - 1), SegmentOf(tokens, mask, lengths, j - 1))
  }

  /** Blank the last label of the segment that ends at `next`. */
  method BlankEnd(tokens: Row, mask: Row, targets: array<int>, out: array<bool>, ghost prefix: Example, end: nat,
        next: nat)
    requires EndsMasked(tokens, mask, targets[..], out[..], prefix, end) && end < next <= |tokens|
    modifies targets, out
    ensures EndsMasked(tokens, mask, targets[..], out[..],
        Join(prefix, CollateSegment(tokens[end..next], mask[end..next])), next)
  {
    EndMasked(tokens, mask, targets[..], out[..], prefix, end, next);
    ghost var labels, flags := targets[..], out[..];
    targets[next - 1] := IGNORE;
    out[next - 1] := false;
    assert targets[..] == labels[next - 1 := IGNORE] && out[..] == flags[next - 1 := false];
  }

  /** Blank the last label of every segment. */
  method BlankEnds(tokens: Row, mask: Row, lengths: Row, targets: array<int>, out: array<bool>)
    requires ValidPack(tokens, mask, lengths) && targets.Length == out.Length == |tokens|
    requires EndsMasked(tokens, mask, targets[..], out[..], Example([], [], [], []), 0)
    modifies targets, out
    ensures EndsMasked(tokens, mask, targets[..], out[..], CollateUpTo(tokens, mask, lengths, |lengths|), |tokens|)
  {
    var end := 0;
    assert lengths[..0] == [];
    for j := 0 to |lengths|
      invariant 0 <= end <= |tokens| && end == Sum(lengths[..j])
      invariant EndsMasked(tokens, mask, targets[..], out[..], CollateUpTo(tokens, mask, lengths, j), end)
    {
      NextEnd(lengths, j, |tokens|);
      BlankEnd(tokens, mask, targets, out, CollateUpTo(tokens, mask, lengths, j), end, end + lengths[j]);
      end := end + lengths[j];
    }
    assert lengths[..|lengths|] == lengths;
  }

  lemma WholePack(tokens: Row, mask: Row, lengths: Row)
    requires |mask| == |tokens|
    ensures lengths[..|lengths|] == lengths && tokens[..|tokens|] == tokens && mask[..|tokens|] == mask
  {
  }

  lemma PrefixPack(tokens: Row, mask: Row, lengths: Row, j: nat)
    requires ValidPack(tokens, mask, lengths) && j <= |lengths|
    ensures 0 <= Sum(lengths[..j]) <= |tokens|
    ensures ValidPack(tokens[..Sum(lengths[..j])], mask[..Sum(lengths[..j])], lengths[..j])
  {
    SumPrefix(lengths, j);
  }

  ghost function PrefixSegments(tokens: Row, mask: Row, lengths: Row, j: nat): Example
    requires ValidPack(tokens, mask, lengths) && j <= |lengths|
  {
    PrefixPack(tokens, mask, lengths, j);
    CollateSegments(tokens[..Sum(lengths[..j])], mask[..Sum(lengths[..j])], lengths[..j])
  }

  lemma SegmentIs(tokens: Row, mask: Row, lengths: Row, j: nat, end: nat, next: nat)
    requires ValidPack(tokens, mask, lengths) && j < |lengths| && end == Sum(lengths[..j])
    requires end + lengths[j] == next <= |tokens| && lengths[j] > 0
    ensures SegmentOf(tokens, mask, lengths, j) == CollateSegment(tokens[end..next], mask[end..next])
  {
  }

  lemma PrefixNextAt(tokens: Row, mask: Row, lengths: Row, j: nat, end: nat, next: nat)
    requires ValidPack(tokens, mask, lengths) && j < |lengths| && end == Sum(lengths[..j])
    requires next == Sum(lengths[..j + 1])
    requires end + lengths[j] == next <= |tokens| && lengths[j] > 0
    requires ValidPack(tokens[..end], mask[..end], lengths[..j])
    ensures PrefixSegments(tokens, mask, lengths, j + 1)
         == Join(PrefixSegments(tokens, mask, lengths, j), SegmentOf(tokens, mask, lengths, j))
  {
    CollateNext(tokens, mask, lengths, j, end);
    SegmentIs(tokens, mask, lengths, j, end, next);
  }

  lemma PrefixNext(tokens: Row, mask: Row, lengths: Row, j: nat)
    requires ValidPack(tokens, mask, lengths) && j < |lengths|
    ensures PrefixSegments(tokens, mask, lengths, j + 1)
         == Join(PrefixSegments(tokens, mask, lengths, j), SegmentOf(tokens, mask, lengths, j))
  {
    PrefixPack(tokens, mask, lengths, j);
    NextEnd(lengths, j, |tokens|);
    PrefixNextAt(tokens, mask, lengths, j, Sum(lengths[..j]), Sum(lengths[..j + 1]));
  }

  lemma NoSegments(tokens: Row, mask: Row, lengths: Row)
    requires ValidPack(tokens, mask, lengths)
    ensures PrefixSegments(tokens, mask, lengths, 0) == Example([], [], [], [])
  {
    assert lengths[..0] == [];
  }

  lemma {:induction false} UpToIsSegments(tokens: Row, mask: Row, lengths: Row, j: nat)
    requires ValidPack(tokens, mask, lengths) && j <= |lengths|
    ensures CollateUpTo(tokens, mask, lengths, j) == PrefixSegments(tokens, mask, lengths, j)
  {
    if j > 0 {
      UpToIsSegments(tokens, mask, lengths, j - 1);
      PrefixNext(tokens, mask, lengths, j - 1);
    } else {
      NoSegments(tokens, mask, lengths);
    }
  }

  lemma UpToWhole(tokens: Row, mask: Row, lengths: Row)
    requires ValidPack(tokens, mask, lengths)
    ensures CollateUpTo(tokens, mask, lengths, |lengths|) == CollateSegments(tokens, mask, lengths)
  {
    WholePack(tokens, mask, lengths);
    UpToIsSegments(tokens, mask, lengths, |lengths|);
  }

  /** Shift the whole pack by one, then blank the last label of every segment. */
  method CollatePack(tokens: Row, mask: Row, lengths: Row) returns (e: Example)
    requires ValidPack(tokens, mask, lengths)
    ensures e == CollateSegments(tokens, mask, lengths)
  {
    var targets, out := ShiftLabels(tokens, mask);
    BlankEnds(tokens, mask, lengths, targets, out);
    PositionsRestart(tokens, mask, lengths);
    UpToWhole(tokens, mask, lengths);
    e := Example(tokens, targets[..], out[..], Flatten(Positions(lengths)));
    assert targets[..|tokens|] == targets[..] && out[..|tokens|] == out[..];
  }

  // ---------- Padding ----------

  function Fill<T>(x: T, n: nat): (r: seq<T>)
    ensures |r| == n && forall i :: 0 <= i < n ==> r[i] == x
  {
    seq(n, _ => x)
  }

  function Padding(n: nat): (e: Example)
    ensures WellFormed(e) && |e.inputIds| == n && forall i :: 0 <= i < n ==> !e.lossMask[i]
  {
    Example(Fill(0, n), Fill(IGNORE, n), Fill(false, n), Fill(0, n))
  }

  function PadExample(e: Example, width: nat): Example
    requires |e.inputIds| <= width && WellFormed(e)
  {
    Join(e, Padding(width - |e.inputIds|))
  }

  /** A padded row: the example first, then token 0, label -100, no weight and position 0. */
  lemma PaddedRow(e: Example, width: nat, p: nat)
    requires |e.inputIds| <= width && WellFormed(e) && p < width
    ensures var row, n := PadExample(e, width), |e.inputIds|;
            && WellFormed(row) && |row.inputIds| == width
            && if p < n then
                 && row.inputIds[p] == e.inputIds[p] && row.targetIds[p] == e.targetIds[p]
                 && row.lossMask[p] == e.lossMask[p] && row.positionIds[p] == e.positionIds[p]
               else
                 row.inputIds[p] == 0 && row.targetIds[p] == -100 && !row.lossMask[p] && row.positionIds[p] == 0
  {
  }

  ghost predicate ValidSample(s: Sample) {
    match s
    case Pack(tokens, mask, lengths) => ValidPack(tokens, mask, lengths)
    case Window(e) => WellFormed(e)
  }

  ghost function CollateOne(s: Sample): (e: Example)
    requires ValidSample(s)
    ensures WellFormed(e)
  {
    match s
    case Pack(tokens, mask, lengths) => CollateSegments(tokens, mask, lengths)
    case Window(e) => e
  }

  ghost predicate CollatedEach(batch: seq<Sample>, collated: seq<Example>) {
    && |collated| <= |batch|
    && forall i :: 0 <= i < |collated| ==> ValidSample(batch[i]) && collated[i] == CollateOne(batch[i])
  }

  method CollateEach(batch: seq<Sample>) returns (collated: seq<Example>)
    requires forall i :: 0 <= i < |batch| ==> ValidSample(batch[i])
    ensures |collated| == |batch| && CollatedEach(batch, collated)
  {
    collated := [];
    for i := 0 to |batch|
      invariant |collated| == i && CollatedEach(batch, collated)
    {
      var e: Example;
      match batch[i] {
        case Pack(tokens, mask, lengths) => e := CollatePack(tokens, mask, lengths);
        case Window(example) => e := example;
      }
      assert e == CollateOne(batch[i]);
      collated := collated + [e];
    }
  }

  method Longest(rows: seq<Example>) returns (width: nat)
    requires rows != []
    ensures (forall i :: 0 <= i < |rows| ==> |rows[i].inputIds| <= width)
    ensures exists i :: 0 <= i < |rows| && |rows[i].inputIds| == width
  {
    width := |rows[0].inputIds|;
    for i := 1 to |rows|
      invariant forall k :: 0 <= k < i ==> |rows[k].inputIds| <= width
      invariant exists k :: 0 <= k < i && |rows[k].inputIds| == width
    {
      if |rows[i].inputIds| > width { width := |rows[i].inputIds|; }
    }
  }

  /** Collate a batch and pad every row to the longest; a loader never yields an empty batch. */
  method CollateBatch(batch: seq<Sample>) returns (rows: seq<Example>, width: nat)
    requires batch != [] && forall i :: 0 <= i < |batch| ==> ValidSample(batch[i])
    ensures |rows| == |batch|
    ensures forall i :: 0 <= i < |batch| ==>
        |CollateOne(batch[i]).inputIds| <= width && rows[i] == PadExample(CollateOne(batch[i]), width)
    ensures exists i :: 0 <= i < |batch| && |CollateOne(batch[i]).inputIds| == width
  {
    var collated := CollateEach(batch);
    width := Longest(collated);
    forall i | 0 <= i < |collated|
      ensures WellFormed(collated[i]) && |collated[i].inputIds| <= width
    {
      assert collated[i] == CollateOne(batch[i]);
    }
    rows := seq(|collated|,
      i requires 0 <= i < |collated| && WellFormed(collated[i]) && |collated[i].inputIds| <= width =>
      PadExample(collated[i], width));
  }

  // ---------- Training pairs ----------

  /** An example without its last position. */
  function Front(e: Example): (r: Example)
    requires WellFormed(e) && e.inputIds != []
    ensures WellFormed(r) && |r.inputIds| == |e.inputIds| - 1
  {
    var n := |e.inputIds| - 1;
    Example(e.inputIds[..n], e.targetIds[..n], e.lossMask[..n], e.positionIds[..n])
  }

  lemma JoinFront(a: Example, b: Example)
    requires WellFormed(a) && WellFormed(b) && b.inputIds != []
    ensures WellFormed(Join(a, b)) && Front(Join(a, b)) == Join(a, Front(b))
    ensures var n, m := |Join(a, b).inputIds| - 1, |b.inputIds| - 1;
            && Join(a, b).inputIds[n] == b.inputIds[m] && Join(a, b).targetIds[n] == b.targetIds[m]
            && Join(a, b).lossMask[n] == b.lossMask[m] && Join(a, b).positionIds[n] == b.positionIds[m]
  {
  }

  /** The supervised predictions of an example, in order. */
  ghost function Pairs(e: Example): seq<Pair>
    requires WellFormed(e)
    decreases |e.inputIds|
  {
    var n := |e.inputIds| - 1;
    if n < 0 then []
    else
      Pairs(Front(e)) + (if e.lossMask[n] then [Pair(e.inputIds[n], e.targetIds[n], e.positionIds[n])] else [])
  }

  lemma {:induction false} PairsJoin(a: Example, b: Example)
    requires WellFormed(a) && WellFormed(b)
    ensures Pairs(Join(a, b)) == Pairs(a) + Pairs(b)
    decreases |b.inputIds|
  {
    if b.inputIds == [] {
      assert Join(a, b) == a;
    } else {
      PairsJoin(a, Front(b));
      JoinFront(a, b);
    }
  }

  lemma {:induction false} MaskedHasNoPairs(e: Example)
    requires WellFormed(e) && forall i :: 0 <= i < |e.lossMask| ==> !e.lossMask[i]
    ensures Pairs(e) == []
    decreases |e.inputIds|
  {
    if e.inputIds != [] { MaskedHasNoPairs(Front(e)); }
  }

  /** Padding adds no training pair. */
  lemma PaddingAddsNothing(e: Example, width: nat)
    requires WellFormed(e) && |e.inputIds| <= width
    ensures WellFormed(PadExample(e, width)) && Pairs(PadExample(e, width)) == Pairs(e)
  {
    var padding := Padding(width - |e.inputIds|);
    PairsJoin(e, padding);
    MaskedHasNoPairs(padding);
  }

  /** The next-token pairs of a chunk among its first n + 1 tokens whose target is supervised. */
  ghost function NextTokenPairs(tokens: Row, mask: Row, n: nat): seq<Pair>
    requires |tokens| == |mask| && (n == 0 || n < |tokens|)
  {
    if n == 0 then []
    else NextTokenPairs(tokens, mask, n - 1)
         + (if mask[n] != 0 then [Pair(tokens[n - 1], tokens[n], n - 1)] else [])
  }

  ghost function ChunkPairs(tokens: Row, mask: Row): seq<Pair>
    requires |tokens| == |mask|
  {
    NextTokenPairs(tokens, mask, if tokens == [] then 0 else |tokens| - 1)
  }

  lemma {:induction false} SegmentPairsPrefix(tokens: Row, mask: Row, n: nat)
    requires |tokens| == |mask| > 0 && n < |tokens|
    ensures var e := CollateSegment(tokens, mask);
            Pairs(Example(e.inputIds[..n], e.targetIds[..n], e.lossMask[..n], e.positionIds[..n]))
              == NextTokenPairs(tokens, mask, n)
  {
    if n > 0 {
      SegmentPairsPrefix(tokens, mask, n - 1);
      var e := CollateSegment(tokens, mask);
      var p := Example(e.inputIds[..n], e.targetIds[..n], e.lossMask[..n], e.positionIds[..n]);
      assert p.inputIds[..n - 1] == e.inputIds[..n - 1] && p.targetIds[..n - 1] == e.targetIds[..n - 1];
      assert p.lossMask[..n - 1] == e.lossMask[..n - 1] && p.positionIds[..n - 1] == e.positionIds[..n - 1];
    }
  }

  lemma SegmentPairs(tokens: Row, mask: Row)
    requires |tokens| == |mask| > 0
    ensures Pairs(CollateSegment(tokens, mask)) == ChunkPairs(tokens, mask)
  {
    SegmentPairsPrefix(tokens, mask, |tokens| - 1);
  }

  ghost function PairTable(tokens: seq<Row>, masks: seq<Row>): (r: seq<seq<Pair>>)
    requires Aligned(tokens, masks)
    ensures |r| == |tokens| && forall i :: 0 <= i < |r| ==> r[i] == ChunkPairs(tokens[i], masks[i])
  {
    seq(|tokens|, i requires 0 <= i < |tokens| => ChunkPairs(tokens[i], masks[i]))
  }

  lemma AppendPairs(tokens: Row, mask: Row, lengths: Row, more: Row, moreMask: Row, pairs: seq<Pair>)
    requires ValidPack(tokens, mask, lengths) && |more| == |moreMask| > 0
    requires Pairs(CollateSegments(tokens, mask, lengths)) == pairs
    ensures ValidPack(tokens + more, mask + moreMask, lengths + [|more|])
    ensures Pairs(CollateSegments(tokens + more, mask + moreMask, lengths + [|more|]))
        == pairs + ChunkPairs(more, moreMask)
  {
    CollateAppend(tokens, mask, lengths, more, moreMask);
    PairsJoin(CollateSegments(tokens, mask, lengths), CollateSegment(more, moreMask));
    SegmentPairs(more, moreMask);
  }

  lemma TableNext(tokens: seq<Row>, masks: seq<Row>, m: nat)
    requires Aligned(tokens, masks) && |tokens| == m + 1
    ensures Aligned(tokens[..m], masks[..m]) && |tokens[m]| == |masks[m]|
    ensures PairTable(tokens, masks) == PairTable(tokens[..m], masks[..m]) + [ChunkPairs(tokens[m], masks[m])]
    ensures Lengths(tokens) == Lengths(tokens[..m]) + [|tokens[m]|]
  {
  }

  /** A pack of segments trains on exactly the pairs of its segments. */
  lemma {:induction false} PackPairs(tokens: seq<Row>, masks: seq<Row>)
    requires Aligned(tokens, masks) && forall i :: 0 <= i < |tokens| ==> tokens[i] != []
    ensures ValidPack(Flatten(tokens), Flatten(masks), Lengths(tokens))
    ensures Pairs(CollateSegments(Flatten(tokens), Flatten(masks), Lengths(tokens)))
         == Flatten(PairTable(tokens, masks))
    decreases |tokens|
  {
    if tokens != [] {
      var m := |tokens| - 1;
      TableNext(tokens, masks, m);
      PackPairs(tokens[..m], masks[..m]);
      var pairs := Flatten(PairTable(tokens[..m], masks[..m]));
      AppendPairs(Flatten(tokens[..m]), Flatten(masks[..m]), Lengths(tokens[..m]), tokens[m], masks[m], pairs);
      FlattenPush(PairTable(tokens[..m], masks[..m]), ChunkPairs(tokens[m], masks[m]));
    }
  }

  // ---------- End to end ----------

  /** The pairs of all packs, pack after pack. */
  ghost function PlanPairs(table: seq<seq<Pair>>, bins: seq<seq<nat>>): seq<Pair>
    requires InRange(bins, |table|)
  {
    if bins == [] then []
    else PlanPairs(table, bins[..|bins| - 1]) + Flatten(Gather(table, bins[|bins| - 1]))
  }

  lemma {:induction false} PlanPairsFlat(table: seq<seq<Pair>>, bins: seq<seq<nat>>)
    requires InRange(bins, |table|)
    ensures forall i :: 0 <= i < |Flatten<nat>(bins)| ==> Flatten<nat>(bins)[i] < |table|
    ensures PlanPairs(table, bins) == Flatten(Gather(table, Flatten<nat>(bins)))
  {
    if bins != [] {
      var n := |bins| - 1;
      PlanPairsFlat(table, bins[..n]);
      GatherConcat(table, Flatten<nat>(bins[..n]), bins[n]);
      FlattenConcat(Gather(table, Flatten<nat>(bins[..n])), Gather(table, bins[n]));
    }
  }

  /** The training pairs of the packs b < n of a call, collated. */
  ghost function CollatedPairs(tokens: seq<Row>, masks: seq<Row>, lengths: seq<Row>, n: nat): seq<Pair>
    requires n <= |tokens| && |tokens| == |masks| == |lengths|
    requires forall b :: 0 <= b < |tokens| ==> ValidPack(tokens[b], masks[b], lengths[b])
  {
    if n == 0 then []
    else
      CollatedPairs(tokens, masks, lengths, n - 1)
      + Pairs(CollateSegments(tokens[n - 1], masks[n - 1], lengths[n - 1]))
  }

  lemma OnePack(tokens: seq<Row>, masks: seq<Row>, bin: seq<nat>)
    requires Aligned(tokens, masks) && forall i :: 0 <= i < |tokens| ==> tokens[i] != []
    requires forall i :: 0 <= i < |bin| ==> bin[i] < |tokens|
    ensures ValidPack(Flatten(Gather(tokens, bin)), Flatten(Gather(masks, bin)), Gather(Lengths(tokens), bin))
    ensures Pairs(CollateSegments(Flatten(Gather(tokens, bin)), Flatten(Gather(masks, bin)),
        Gather(Lengths(tokens), bin)))
            == Flatten(Gather(PairTable(tokens, masks), bin))
  {
    PackPairs(Gather(tokens, bin), Gather(masks, bin));
    assert Lengths(Gather(tokens, bin)) == Gather(Lengths(tokens), bin);
    assert PairTable(Gather(tokens, bin), Gather(masks, bin)) == Gather(PairTable(tokens, masks), bin);
  }

  lemma AllPacksValid(tokens: seq<Row>, masks: seq<Row>, bins: seq<seq<nat>>)
    requires Aligned(tokens, masks) && forall i :: 0 <= i < |tokens| ==> tokens[i] != []
    requires InRange(bins, |tokens|)
    ensures forall b :: 0 <= b < |bins| ==>
              ValidPack(Assemble(tokens, bins)[b], Assemble(masks, bins)[b], SegmentLengths(Lengths(tokens), bins)[b])
  {
    forall b | 0 <= b < |bins|
      ensures ValidPack(Assemble(tokens, bins)[b], Assemble(masks, bins)[b], SegmentLengths(Lengths(tokens), bins)[b])
    {
      OnePack(tokens, masks, bins[b]);
    }
  }

  lemma NextPlanPairs(table: seq<seq<Pair>>, bins: seq<seq<nat>>, n: nat)
    requires InRange(bins, |table|) && 0 < n <= |bins|
    ensures PlanPairs(table, bins[..n]) == PlanPairs(table, bins[..n - 1]) + Flatten(Gather(table, bins[n - 1]))
  {
    assert bins[..n][..n - 1] == bins[..n - 1];
  }

  lemma {:induction false} PacksToPlanPairs(tokens: seq<Row>, masks: seq<Row>, bins: seq<seq<nat>>, n: nat)
    requires Aligned(tokens, masks) && forall i :: 0 <= i < |tokens| ==> tokens[i] != []
    requires InRange(bins, |tokens|) && n <= |bins|
    requires forall b :: 0 <= b < |bins| ==>
               ValidPack(Assemble(tokens, bins)[b], Assemble(masks, bins)[b], SegmentLengths(Lengths(tokens), bins)[b])
    ensures CollatedPairs(Assemble(tokens, bins), Assemble(masks, bins), SegmentLengths(Lengths(tokens), bins), n)
            == PlanPairs(PairTable(tokens, masks), bins[..n])
  {
    if n > 0 {
      PacksToPlanPairs(tokens, masks, bins, n - 1);
      OnePack(tokens, masks, bins[n - 1]);
      NextPlanPairs(PairTable(tokens, masks), bins, n);
    }
  }

  /** Any plan that is a partition keeps the multiset of training pairs. */
  lemma PlanKeepsPairs(tokens: seq<Row>, masks: seq<Row>, bins: seq<seq<nat>>)
    requires Aligned(tokens, masks) && Partition(bins, |tokens|) && InRange(bins, |tokens|)
    ensures multiset(PlanPairs(PairTable(tokens, masks), bins)) == multiset(Flatten(PairTable(tokens, masks)))
  {
    var table := PairTable(tokens, masks);
    PlanPairsFlat(table, bins);
    var order := Flatten<nat>(bins);
    ReadInAnyOrder(table, order);
  }

  lemma ChunksAlign(tokens: seq<Row>, masks: seq<Row>, lengths: seq<int>, capacity: int)
    requires lengths == Lengths(tokens) == Lengths(masks) && ValidLengths(lengths, capacity)
    ensures Aligned(tokens, masks) && forall i :: 0 <= i < |tokens| ==> tokens[i] != []
  {
    forall i | 0 <= i < |tokens|
      ensures tokens[i] != [] && |tokens[i]| == |masks[i]|
    {
      assert lengths[i] == |tokens[i]| && Lengths(masks)[i] == |masks[i]|;
    }
  }

  /** The packs of a partition, collated, train on the pairs of its chunks. */
  ghost predicate Conserved(tokens: seq<Row>, masks: seq<Row>, packs: seq<Row>, packMasks: seq<Row>, lengths: seq<Row>)
    requires Aligned(tokens, masks)
  {
    && |packs| == |packMasks| == |lengths|
    && (forall b :: 0 <= b < |packs| ==> ValidPack(packs[b], packMasks[b], lengths[b]))
    && multiset(CollatedPairs(packs, packMasks, lengths, |packs|)) == multiset(Flatten(PairTable(tokens, masks)))
  }

  lemma PartitionConserves(tokens: seq<Row>, masks: seq<Row>, lengths: seq<int>, bins: seq<seq<nat>>)
    requires Aligned(tokens, masks) && forall i :: 0 <= i < |tokens| ==> tokens[i] != []
    requires lengths == Lengths(tokens) && Partition(bins, |tokens|) && InRange(bins, |tokens|)
    ensures Conserved(tokens, masks, Assemble(tokens, bins), Assemble(masks, bins), SegmentLengths(lengths, bins))
  {
    AllPacksValid(tokens, masks, bins);
    PacksToPlanPairs(tokens, masks, bins, |bins|);
    assert bins[..|bins|] == bins;
    PlanKeepsPairs(tokens, masks, bins);
  }

  /**
    Packing and collation neither create nor lose a training pair: over all packs of an
    accepted call, the unmasked (token, target, position) triples are exactly the
    supervised next-token pairs inside the pieces of the input rows.
   */
  lemma TrainingPairsConserved(keys: Fields, maxSeqLen: int, maxPackedLen: int, overflow: string, packing: string,
        mode: string) returns (tokens: seq<Row>, masks: seq<Row>)
    requires !BadArguments(keys, maxSeqLen, maxPackedLen, overflow, packing, mode)
    requires "sequence" in keys && "loss_mask" in keys
    ensures Cuts(keys["sequence"], Min(maxSeqLen, maxPackedLen), overflow, mode, tokens)
    ensures Cuts(keys["loss_mask"], Min(maxSeqLen, maxPackedLen), overflow, mode, masks)
    ensures var packed := Packed(keys, maxSeqLen, maxPackedLen, overflow, packing, mode);
            && "sequence" in packed && "loss_mask" in packed && "seq_lengths" in packed && Aligned(tokens, masks)
            && Conserved(tokens, masks, packed["sequence"], packed["loss_mask"], packed["seq_lengths"])
  {
    var limit := Limit(maxSeqLen, maxPackedLen);
    tokens := FieldChunks(keys, "sequence", limit, overflow, mode);
    masks := FieldChunks(keys, "loss_mask", limit, overflow, mode);
    FieldCuts(keys, "sequence", limit, overflow, mode);
    FieldCuts(keys, "loss_mask", limit, overflow, mode);
    var lengths := Lengths(tokens);
    var bins := BinPlan(lengths, maxPackedLen, packing);
    PackedAre(keys, maxSeqLen, maxPackedLen, overflow, packing, mode, lengths, bins, "sequence");
    PackedAre(keys, maxSeqLen, maxPackedLen, overflow, packing, mode, lengths, bins, "loss_mask");
    ChunksAlign(tokens, masks, lengths, maxPackedLen) by {
      PackReady(keys, maxSeqLen, maxPackedLen, overflow, packing, mode);
    }
    PartitionConserves(tokens, masks, lengths, bins);
  }
}
