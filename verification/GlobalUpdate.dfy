/**
  One optimizer update across data-parallel ranks: every rank sums loss times
  count over its slots, replicas are averaged once, and the result is rescaled.
  Whatever the layout, that is the window's objective over its own samples.
 */
module GlobalUpdate {
  import opened Sequences
  import opened StepPlan
  import opened Sampler

  /** What one slot hands to the loss: its samples, and how many of them are real. */
  datatype Chunk = Chunk(samples: seq<int>, held: nat)

  /**
    A training objective: each sample has a numerator (one gradient coordinate, or its loss) and a
    share of the normalizer, and the strategy reports their quotient for a batch.
   */
  datatype Objective = Objective(numerator: int -> real, share: int -> real, loss: seq<int> -> real)

  function SumOf(f: int -> real, s: seq<int>): real {
    if s == [] then 0.0 else SumOf(f, s[..|s| - 1]) + f(s[|s| - 1])
  }

  /** The strategy's contract: a batch loss times its normalizer is the sum of the numerators. */
  ghost predicate Normalized(o: Objective) {
    forall batch :: o.loss(batch) * SumOf(o.share, batch) == SumOf(o.numerator, batch)
  }

  function Count(o: Objective, c: Chunk): real {
    if c.held > 0 then SumOf(o.share, c.samples) else 0.0
  }

  function LocalCount(o: Objective, chunks: seq<Chunk>, n: nat): real
    requires n <= |chunks|
  {
    if n == 0 then 0.0 else LocalCount(o, chunks, n - 1) + Count(o, chunks[n - 1])
  }

  function LocalNumerator(o: Objective, chunks: seq<Chunk>, n: nat): real
    requires n <= |chunks|
  {
    if n == 0 then 0.0
    else LocalNumerator(o, chunks, n - 1) + o.loss(chunks[n - 1].samples) * Count(o, chunks[n - 1])
  }

  function TotalCount(o: Objective, ranks: seq<seq<Chunk>>, n: nat): real
    requires n <= |ranks|
  {
    if n == 0 then 0.0 else TotalCount(o, ranks, n - 1) + LocalCount(o, ranks[n - 1], |ranks[n - 1]|)
  }

  function TotalNumerator(o: Objective, ranks: seq<seq<Chunk>>, n: nat): real
    requires n <= |ranks|
  {
    if n == 0 then 0.0 else TotalNumerator(o, ranks, n - 1) + LocalNumerator(o, ranks[n - 1], |ranks[n - 1]|)
  }

  /** One rank's slots: accumulate the count and the scaled loss (or its gradient). */
  method Accumulate(o: Objective, chunks: seq<Chunk>) returns (count: real, numerator: real)
    ensures count == LocalCount(o, chunks, |chunks|) && numerator == LocalNumerator(o, chunks, |chunks|)
  {
    count, numerator := 0.0, 0.0;
    for i := 0 to |chunks|
      invariant count == LocalCount(o, chunks, i) && numerator == LocalNumerator(o, chunks, i)
    {
      var c := Count(o, chunks[i]);
      numerator := numerator + o.loss(chunks[i].samples) * c;
      count := count + c;
    }
  }

  lemma RestoreObjective(total: real, replicas: real, denominator: real)
    requires replicas > 0.0 && denominator > 0.0
    ensures total / replicas * (replicas / denominator) == total / denominator
  {
    var mean := total / replicas;
    assert mean * replicas == total;
    var scale := replicas / denominator;
    assert scale * denominator == replicas;
    assert mean * scale * denominator == total;
  }

  /** Sum over ranks, average over replicas, rescale; no valid target anywhere is an error. */
  method RunGlobalUpdate(o: Objective, ranks: seq<seq<Chunk>>) returns (r: Result<real>)
    requires ranks != []
    ensures r.Failure? <==> TotalCount(o, ranks, |ranks|) <= 0.0
    ensures r.Success? ==> r.value == TotalNumerator(o, ranks, |ranks|) / TotalCount(o, ranks, |ranks|)
  {
    var denominator, total := 0.0, 0.0;
    for rank := 0 to |ranks|
      invariant denominator == TotalCount(o, ranks, rank) && total == TotalNumerator(o, ranks, rank)
    {
      var count, numerator := Accumulate(o, ranks[rank]);
      denominator := denominator + count;
      total := total + numerator;
    }
    if denominator <= 0.0 { return Failure; }
    var averaged := total / (|ranks| as real);
    RestoreObjective(total, |ranks| as real, denominator);
    return Success(averaged * ((|ranks| as real) / denominator));
  }

  lemma {:induction false} SumConcat(f: int -> real, a: seq<int>, b: seq<int>)
    ensures SumOf(f, a + b) == SumOf(f, a) + SumOf(f, b)
  {
    if b == [] {
      assert a + b == a;
    } else {
      SumConcat(f, a, b[..|b| - 1]);
      assert (a + b)[..|a + b| - 1] == a + b[..|b| - 1];
    }
  }

  // ---------- Exchanging rank-by-rank for slot-by-slot ----------

  /** Sum of f over the first n parts. */
  function PartSum(f: int -> real, parts: seq<seq<int>>, n: nat): real
    requires n <= |parts|
  {
    if n == 0 then 0.0 else PartSum(f, parts, n - 1) + SumOf(f, parts[n - 1])
  }

  lemma {:induction false} PartSumFlat(f: int -> real, parts: seq<seq<int>>, n: nat)
    requires n <= |parts|
    ensures PartSum(f, parts, n) == SumOf(f, Flatten(parts[..n]))
  {
    if n > 0 {
      PartSumFlat(f, parts, n - 1);
      FlattenUpto(parts, n);
      SumConcat(f, Flatten(parts[..n - 1]), parts[n - 1]);
    }
  }

  lemma WholePartSum(f: int -> real, parts: seq<seq<int>>)
    ensures PartSum(f, parts, |parts|) == SumOf(f, Flatten(parts))
  {
    PartSumFlat(f, parts, |parts|);
    assert parts[..|parts|] == parts;
  }

  /** Sum over slots < s and ranks < r of a grid, slot by slot. */
  function GridSum(f: int -> real, grid: seq<seq<seq<int>>>, s: nat): real
    requires s <= |grid|
  {
    if s == 0 then 0.0 else GridSum(f, grid, s - 1) + PartSum(f, grid[s - 1], |grid[s - 1]|)
  }

  /** One rank's column of the grid. */
  function ColumnSum(f: int -> real, grid: seq<seq<seq<int>>>, rank: nat, s: nat): real
    requires s <= |grid| && forall k :: 0 <= k < |grid| ==> rank < |grid[k]|
  {
    if s == 0 then 0.0 else ColumnSum(f, grid, rank, s - 1) + SumOf(f, grid[s - 1][rank])
  }

  function ColumnsSum(f: int -> real, grid: seq<seq<seq<int>>>, ranks: nat, s: nat): real
    requires s <= |grid| && forall k :: 0 <= k < |grid| ==> ranks <= |grid[k]|
  {
    if ranks == 0 then 0.0 else ColumnsSum(f, grid, ranks - 1, s) + ColumnSum(f, grid, ranks - 1, s)
  }

  lemma {:induction false} ColumnsStep(f: int -> real, grid: seq<seq<seq<int>>>, ranks: nat, s: nat)
    requires s < |grid| && forall k :: 0 <= k < |grid| ==> ranks <= |grid[k]|
    ensures ColumnsSum(f, grid, ranks, s + 1) == ColumnsSum(f, grid, ranks, s) + PartSum(f, grid[s], ranks)
  {
    if ranks > 0 { ColumnsStep(f, grid, ranks - 1, s); }
  }

  lemma {:induction false} ColumnsEmpty(f: int -> real, grid: seq<seq<seq<int>>>, ranks: nat)
    requires forall k :: 0 <= k < |grid| ==> ranks <= |grid[k]|
    ensures ColumnsSum(f, grid, ranks, 0) == 0.0
  {
    if ranks > 0 { ColumnsEmpty(f, grid, ranks - 1); }
  }

  lemma {:induction false} Exchange(f: int -> real, grid: seq<seq<seq<int>>>, ranks: nat, s: nat)
    requires s <= |grid| && forall k :: 0 <= k < |grid| ==> |grid[k]| == ranks
    ensures ColumnsSum(f, grid, ranks, s) == GridSum(f, grid, s)
  {
    if s == 0 {
      ColumnsEmpty(f, grid, ranks);
    } else {
      Exchange(f, grid, ranks, s - 1);
      ColumnsStep(f, grid, ranks, s - 1);
    }
  }

  function FlattenRows(grid: seq<seq<seq<int>>>): (r: seq<seq<int>>)
    ensures |r| == |grid| && forall k :: 0 <= k < |r| ==> r[k] == Flatten(grid[k])
  {
    seq(|grid|, k requires 0 <= k < |grid| => Flatten(grid[k]))
  }

  lemma {:induction false} GridSumFlat(f: int -> real, grid: seq<seq<seq<int>>>, s: nat)
    requires s <= |grid|
    ensures GridSum(f, grid, s) == SumOf(f, Flatten(FlattenRows(grid)[..s]))
  {
    if s > 0 {
      GridSumFlat(f, grid, s - 1);
      WholePartSum(f, grid[s - 1]);
      FlattenUpto(FlattenRows(grid), s);
      SumConcat(f, Flatten(FlattenRows(grid)[..s - 1]), Flatten(grid[s - 1]));
    }
  }

  /** A chunk carries exactly these samples, or is filler with no weight. */
  ghost predicate Carries(c: Chunk, samples: seq<int>) {
    c.held == |samples| && (c.held > 0 ==> c.samples == samples)
  }

  ghost predicate RanksCarry(ranks: seq<seq<Chunk>>, grid: seq<seq<seq<int>>>) {
    && (forall s :: 0 <= s < |grid| ==> |grid[s]| == |ranks|)
    && (forall r :: 0 <= r < |ranks| ==> |ranks[r]| == |grid|)
    && (forall r, s :: 0 <= r < |ranks| && 0 <= s < |grid| ==> Carries(ranks[r][s], grid[s][r]))
  }

  lemma CarriedChunk(o: Objective, c: Chunk, samples: seq<int>)
    requires Normalized(o) && Carries(c, samples)
    ensures Count(o, c) == SumOf(o.share, samples)
    ensures o.loss(c.samples) * Count(o, c) == SumOf(o.numerator, samples)
  {
    if c.held == 0 { assert o.loss(c.samples) * 0.0 == 0.0; }
  }

  lemma {:induction false} OneRank(o: Objective, ranks: seq<seq<Chunk>>, grid: seq<seq<seq<int>>>, rank: nat, s: nat)
    requires Normalized(o) && RanksCarry(ranks, grid) && rank < |ranks| && s <= |grid|
    ensures LocalCount(o, ranks[rank], s) == ColumnSum(o.share, grid, rank, s)
    ensures LocalNumerator(o, ranks[rank], s) == ColumnSum(o.numerator, grid, rank, s)
  {
    if s > 0 {
      OneRank(o, ranks, grid, rank, s - 1);
      CarriedChunk(o, ranks[rank][s - 1], grid[s - 1][rank]);
    }
  }

  lemma {:induction false} AllRanks(o: Objective, ranks: seq<seq<Chunk>>, grid: seq<seq<seq<int>>>, n: nat)
    requires Normalized(o) && RanksCarry(ranks, grid) && n <= |ranks|
    ensures TotalCount(o, ranks, n) == ColumnsSum(o.share, grid, n, |grid|)
    ensures TotalNumerator(o, ranks, n) == ColumnsSum(o.numerator, grid, n, |grid|)
  {
    if n > 0 {
      AllRanks(o, ranks, grid, n - 1);
      OneRank(o, ranks, grid, n - 1, |grid|);
    }
  }

  /** Filler contributes nothing, and the split over ranks and slots does not matter. */
  lemma TotalsAreFlat(o: Objective, ranks: seq<seq<Chunk>>, grid: seq<seq<seq<int>>>)
    requires Normalized(o) && RanksCarry(ranks, grid)
    ensures var samples := Flatten(FlattenRows(grid));
            && TotalCount(o, ranks, |ranks|) == SumOf(o.share, samples)
            && TotalNumerator(o, ranks, |ranks|) == SumOf(o.numerator, samples)
  {
    AllRanks(o, ranks, grid, |ranks|);
    Exchange(o.share, grid, |ranks|, |grid|);
    Exchange(o.numerator, grid, |ranks|, |grid|);
    GridSumFlat(o.share, grid, |grid|);
    GridSumFlat(o.numerator, grid, |grid|);
    assert FlattenRows(grid)[..|grid|] == FlattenRows(grid);
  }

  // ---------- The chunks the training loop builds ----------

  lemma {:induction false} SelectedBelow(n: nat, localFirst: nat, begin: nat, end: nat)
    ensures forall i :: 0 <= i < |Selected(n, localFirst, begin, end)| ==> Selected(n, localFirst, begin, end)[i] < n
  {
    if n > 0 { SelectedBelow(n - 1, localFirst, begin, end); }
  }

  lemma SelectedInBatch(l: Layout, indices: seq<int>, w: Window, rank: nat, slot: nat, begin: nat, end: nat,
        batch: seq<int>, picked: seq<nat>)
    requires |indices| == l.numSamples > 0 && l.batchSize > 0
    requires batch == Microbatch(l, indices, rank, w.start, slot)
    requires picked == Selected(RealCount(l, rank, w.start, slot), LocalFirst(l, rank, slot), begin, end)
    ensures batch != []
    ensures forall i :: 0 <= i < |picked| ==>
        picked[i] < |batch| && batch[picked[i]] == indices[First(l, rank, w.start, slot) + picked[i]]
  {
    RealSliceIs(l, indices, rank, w.start, slot);
    SelectedBelow(RealCount(l, rank, w.start, slot), LocalFirst(l, rank, slot), begin, end);
  }

  /** The online chunk of one slot: the selected part of its batch, or its first sample as filler. */
  function SelectedChunk(l: Layout, indices: seq<int>, w: Window, rank: nat, slot: nat, begin: nat, end: nat): Chunk
    requires |indices| == l.numSamples > 0 && l.batchSize > 0
  {
    var batch := Microbatch(l, indices, rank, w.start, slot);
    var picked := Selected(RealCount(l, rank, w.start, slot), LocalFirst(l, rank, slot), begin, end);
    SelectedInBatch(l, indices, w, rank, slot, begin, end, batch, picked);
    Chunk(if picked == [] then [batch[0]] else Gather(batch, picked), |picked|)
  }

  /** The offline chunk of one slot: the whole batch, weighted by its real count. */
  function WholeChunk(l: Layout, indices: seq<int>, w: Window, rank: nat, slot: nat): Chunk
    requires |indices| == l.numSamples > 0
  {
    Chunk(Microbatch(l, indices, rank, w.start, slot), RealCount(l, rank, w.start, slot))
  }

  /** The samples at window positions, zero where a position is outside the data. */
  function SamplesAt(indices: seq<int>, start: nat, positions: seq<int>): (r: seq<int>)
    ensures |r| == |positions|
    ensures forall i :: 0 <= i < |r| ==> r[i] == At(indices, start + positions[i])
  {
    seq(|positions|, i requires 0 <= i < |positions| => At(indices, start + positions[i]))
  }

  function SampleGrid(l: Layout, indices: seq<int>, w: Window, begin: nat, end: nat): (r: seq<seq<seq<int>>>)
    ensures |r| == w.microbatches
    ensures forall s :: 0 <= s < |r| ==> |r[s]| == l.dpSize
    ensures forall s, k :: 0 <= s < |r| && 0 <= k < l.dpSize ==>
        r[s][k] == SamplesAt(indices, w.start, SelectedPositions(l, w, k, s, begin, end))
  {
    seq(w.microbatches, s requires 0 <= s =>
      seq(l.dpSize, k requires 0 <= k => SamplesAt(indices, w.start, SelectedPositions(l, w, k, s, begin, end))))
  }

  lemma SelectedCarries(l: Layout, indices: seq<int>, w: Window, rank: nat, slot: nat, begin: nat, end: nat)
    requires |indices| == l.numSamples > 0 && l.batchSize > 0
    ensures Carries(SelectedChunk(l, indices, w, rank, slot, begin, end),
                    SamplesAt(indices, w.start, SelectedPositions(l, w, rank, slot, begin, end)))
  {
    SelectedInBatch(l, indices, w, rank, slot, begin, end, Microbatch(l, indices, rank, w.start, slot),
                    Selected(RealCount(l, rank, w.start, slot), LocalFirst(l, rank, slot), begin, end));
    SelectedBelow(RealCount(l, rank, w.start, slot), LocalFirst(l, rank, slot), begin, end);
  }

  lemma WholeCarries(l: Layout, indices: seq<int>, w: Window, rank: nat, slot: nat)
    requires ValidLayout(l) && ValidWindow(l, w) && |indices| == l.numSamples && rank < l.dpSize
    requires slot < w.microbatches
    ensures Carries(WholeChunk(l, indices, w, rank, slot),
        SamplesAt(indices, w.start, SelectedPositions(l, w, rank, slot, 0, w.count)))
  {
    RealSliceIs(l, indices, rank, w.start, slot);
    RealWithinWindow(l, w, rank, slot);
    SelectedIsInterval(RealCount(l, rank, w.start, slot), LocalFirst(l, rank, slot), 0, w.count);
  }

  lemma {:induction false} SamplesConcat(indices: seq<int>, start: nat, parts: seq<seq<int>>, samples: seq<seq<int>>)
    requires |samples| == |parts| && forall i :: 0 <= i < |parts| ==> samples[i] == SamplesAt(indices, start, parts[i])
    ensures Flatten(samples) == SamplesAt(indices, start, Flatten(parts))
  {
    if parts != [] {
      SamplesConcat(indices, start, parts[..|parts| - 1], samples[..|parts| - 1]);
    }
  }

  lemma SamplesOfInterval(indices: seq<int>, start: nat, begin: nat, end: nat)
    requires begin <= end && start + end <= |indices|
    ensures SamplesAt(indices, start, Interval(begin, end)) == indices[start + begin..start + end]
  {
  }

  /** The grid of an update, read slot by slot, is the update's slice of the permuted indices. */
  lemma GridIsSlice(l: Layout, indices: seq<int>, w: Window, begin: nat, end: nat)
    requires ValidLayout(l) && ValidWindow(l, w) && |indices| == l.numSamples && begin <= end <= w.count
    ensures Flatten(FlattenRows(SampleGrid(l, indices, w, begin, end))) == indices[w.start + begin..w.start + end]
  {
    var grid := SampleGrid(l, indices, w, begin, end);
    var positions := SlotPositions(l, w, begin, end);
    forall s | 0 <= s < w.microbatches
      ensures FlattenRows(grid)[s] == SamplesAt(indices, w.start, positions[s])
    {
      SamplesConcat(indices, w.start, RankPositions(l, w, s, begin, end), grid[s]);
    }
    SamplesConcat(indices, w.start, positions, FlattenRows(grid));
    UpdateSelectsSlice(l, w, begin, end);
    SamplesOfInterval(indices, w.start, begin, end);
  }

  ghost function OnlineChunks(l: Layout, indices: seq<int>, w: Window, begin: nat, end: nat): (r: seq<seq<Chunk>>)
    requires |indices| == l.numSamples > 0 && l.batchSize > 0
    ensures |r| == l.dpSize
    ensures forall k :: 0 <= k < |r| ==> |r[k]| == w.microbatches
    ensures forall k, s :: 0 <= k < |r| && 0 <= s < w.microbatches ==>
        r[k][s] == SelectedChunk(l, indices, w, k, s, begin, end)
  {
    seq(l.dpSize, k requires 0 <= k =>
      seq(w.microbatches, s requires 0 <= s => SelectedChunk(l, indices, w, k, s, begin, end)))
  }

  ghost function OfflineChunks(l: Layout, indices: seq<int>, w: Window): (r: seq<seq<Chunk>>)
    requires |indices| == l.numSamples > 0
    ensures |r| == l.dpSize
    ensures forall k :: 0 <= k < |r| ==> |r[k]| == w.microbatches
    ensures forall k, s :: 0 <= k < |r| && 0 <= s < w.microbatches ==> r[k][s] == WholeChunk(l, indices, w, k, s)
  {
    seq(l.dpSize, k requires 0 <= k => seq(w.microbatches, s requires 0 <= s => WholeChunk(l, indices, w, k, s)))
  }

  /**
    Replay: for every layout, the totals of an online update are those of its slice of the
    window, computed in one process, with every selected sample counted once.
   */
  lemma OnlineUpdateIsSlice(o: Objective, l: Layout, indices: seq<int>, w: Window, begin: nat, end: nat)
    requires Normalized(o) && ValidLayout(l) && ValidWindow(l, w) && |indices| == l.numSamples
    requires begin <= end <= w.count
    ensures var ranks := OnlineChunks(l, indices, w, begin, end);
            var samples := indices[w.start + begin..w.start + end];
            && TotalCount(o, ranks, |ranks|) == SumOf(o.share, samples)
            && TotalNumerator(o, ranks, |ranks|) == SumOf(o.numerator, samples)
  {
    var ranks := OnlineChunks(l, indices, w, begin, end);
    var grid := SampleGrid(l, indices, w, begin, end);
    forall r, s | 0 <= r < l.dpSize && 0 <= s < w.microbatches
      ensures Carries(ranks[r][s], grid[s][r])
    {
      SelectedCarries(l, indices, w, r, s, begin, end);
    }
    TotalsAreFlat(o, ranks, grid);
    GridIsSlice(l, indices, w, begin, end);
  }

  lemma OfflineCarries(l: Layout, indices: seq<int>, w: Window)
    requires ValidLayout(l) && ValidWindow(l, w) && |indices| == l.numSamples
    ensures RanksCarry(OfflineChunks(l, indices, w), SampleGrid(l, indices, w, 0, w.count))
  {
    forall r, s | 0 <= r < l.dpSize && 0 <= s < w.microbatches
      ensures Carries(OfflineChunks(l, indices, w)[r][s], SampleGrid(l, indices, w, 0, w.count)[s][r])
    {
      WholeCarries(l, indices, w, r, s);
    }
  }

  /** Without replay: the totals of the single update are those of the whole window. */
  lemma OfflineUpdateIsWindow(o: Objective, l: Layout, indices: seq<int>, w: Window)
    requires Normalized(o) && ValidLayout(l) && ValidWindow(l, w) && |indices| == l.numSamples
    ensures var ranks := OfflineChunks(l, indices, w);
            var samples := indices[w.start..w.start + w.count];
            && TotalCount(o, ranks, |ranks|) == SumOf(o.share, samples)
            && TotalNumerator(o, ranks, |ranks|) == SumOf(o.numerator, samples)
  {
    var ranks := OfflineChunks(l, indices, w);
    var grid := SampleGrid(l, indices, w, 0, w.count);
    OfflineCarries(l, indices, w);
    var samples := indices[w.start..w.start + w.count];
    assert Flatten(FlattenRows(grid)) == samples by {
      GridIsSlice(l, indices, w, 0, w.count);
    }
    TotalsAreFlat(o, ranks, grid);
  }

  lemma {:induction false} UnitShares(share: int -> real, samples: seq<int>)
    requires forall i :: share(i) == 1.0
    ensures SumOf(share, samples) == |samples| as real
  {
    if samples != [] { UnitShares(share, samples[..|samples| - 1]); }
  }

  /** With one share per sample, the update is the mean over the window's own samples. */
  lemma MeanOverWindow(o: Objective, l: Layout, indices: seq<int>, w: Window)
    requires Normalized(o) && ValidLayout(l) && ValidWindow(l, w) && |indices| == l.numSamples
    requires forall i :: o.share(i) == 1.0
    ensures var ranks := OfflineChunks(l, indices, w);
            && TotalCount(o, ranks, |ranks|) == w.count as real > 0.0
            && TotalNumerator(o, ranks, |ranks|) / TotalCount(o, ranks, |ranks|)
               == SumOf(o.numerator, indices[w.start..w.start + w.count]) / (w.count as real)
  {
    OfflineUpdateIsWindow(o, l, indices, w);
    UnitShares(o.share, indices[w.start..w.start + w.count]);
  }
}
