/**
  The global-window sampler: every rank emits the same number of microbatches,
  and the real samples of all ranks spell out each window exactly once.
 */
module Sampler {
  import opened Sequences
  import opened Arithmetic
  import opened StepPlan

  datatype Layout = Layout(numSamples: nat, dpSize: nat, batchSize: nat, accumulation: nat, tailPolicy: TailPolicy)

  datatype Window = Window(start: nat, count: nat, microbatches: nat)

  ghost predicate ValidLayout(l: Layout) {
    l.numSamples > 0 && l.dpSize > 0 && l.batchSize > 0 && l.accumulation > 0
  }

  /** Samples one slot consumes over all ranks. */
  function Capacity(l: Layout): (c: int)
    ensures ValidLayout(l) ==> c > 0
  {
    l.dpSize * l.batchSize
  }

  function GlobalBatch(l: Layout): (g: int)
    ensures ValidLayout(l) ==> g > 0
  {
    Capacity(l) * l.accumulation
  }

  lemma CeilNonNegative(value: int, c: int)
    requires c > 0 && value > 0
    ensures CeilDiv(value, c) >= 0
  {
    FloorBounds(value + c - 1, c);
  }

  /** Windows of g samples (slots of c samples) over n samples, from an offset. */
  function WindowsFrom(n: nat, g: int, c: int, policy: TailPolicy, offset: nat): (r: seq<Window>)
    requires g > 0 && c > 0
    decreases n - offset
  {
    if offset >= n then []
    else
      var count := Min(g, n - offset);
      if count < g && policy == Drop then []
      else
        CeilBounds(count, c);
        CeilNonNegative(count, c);
        [Window(offset, count, CeilDiv(count, c))] + WindowsFrom(n, g, c, policy, offset + g)
  }

  /** Windows unroll one at a time: a full one when it fits, else the tail if it is kept. */
  lemma WindowsUnroll(n: nat, g: int, c: int, policy: TailPolicy, offset: nat)
    requires g > 0 && c > 0
    ensures offset + g <= n ==>
              WindowsFrom(n, g, c, policy, offset) != []
                && WindowsFrom(n, g, c, policy, offset)[1..] == WindowsFrom(n, g, c, policy, offset + g)
    ensures offset < n < offset + g && policy == Flush ==>
              |WindowsFrom(n, g, c, policy, offset)| == 1 && WindowsFrom(n, g, c, policy, offset)[1..] == []
    ensures offset < n < offset + g && policy == Drop ==> WindowsFrom(n, g, c, policy, offset) == []
  {
    if offset < n < offset + g { assert WindowsFrom(n, g, c, policy, offset + g) == []; }
  }

  function Windows(l: Layout, offset: nat): seq<Window>
    requires ValidLayout(l)
  {
    WindowsFrom(l.numSamples, GlobalBatch(l), Capacity(l), l.tailPolicy, offset)
  }

  /** Where the windows from `offset` end: the whole dataset, or its last full window under Drop. */
  function EndFrom(n: nat, g: int, policy: TailPolicy, offset: nat): (r: nat)
    requires g > 0 && offset <= n
    ensures offset <= r <= n
  {
    if policy == Flush then n
    else
      FloorBounds(n - offset, g);
      offset + (n - offset) / g * g
  }

  function EndOf(l: Layout, offset: nat): (r: nat)
    requires ValidLayout(l) && offset <= l.numSamples
    ensures offset <= r <= l.numSamples
  {
    EndFrom(l.numSamples, GlobalBatch(l), l.tailPolicy, offset)
  }

  function First(l: Layout, rank: nat, windowStart: nat, slot: nat): nat {
    windowStart + slot * l.dpSize * l.batchSize + rank * l.batchSize
  }

  function RealCount(l: Layout, rank: nat, windowStart: nat, slot: nat): nat {
    var left := Min(l.batchSize, l.numSamples - First(l, rank, windowStart, slot));
    if left > 0 then left else 0
  }

  /** One microbatch: the rank's slice of the permuted indices, or sample zero as filler. */
  function Microbatch(l: Layout, indices: seq<int>, rank: nat, windowStart: nat, slot: nat): seq<int>
    requires |indices| == l.numSamples > 0
  {
    var first := First(l, rank, windowStart, slot);
    var local := if first <= l.numSamples then indices[first..Min(first + l.batchSize, l.numSamples)] else [];
    if local == [] then [indices[0]] else local
  }

  /** The part of a microbatch that carries weight. */
  function RealSlice(l: Layout, indices: seq<int>, rank: nat, windowStart: nat, slot: nat): seq<int>
    requires |indices| == l.numSamples > 0
  {
    var microbatch := Microbatch(l, indices, rank, windowStart, slot);
    microbatch[..Min(RealCount(l, rank, windowStart, slot), |microbatch|)]
  }

  lemma RealSliceIs(l: Layout, indices: seq<int>, rank: nat, windowStart: nat, slot: nat)
    requires |indices| == l.numSamples > 0
    ensures var first := First(l, rank, windowStart, slot);
            var held := RealCount(l, rank, windowStart, slot);
            && RealSlice(l, indices, rank, windowStart, slot)
               == (if held > 0 then indices[first..first + held] else [])
            && (held == 0 ==> Microbatch(l, indices, rank, windowStart, slot) == [indices[0]] || l.batchSize == 0)
            && (held > 0 ==> |Microbatch(l, indices, rank, windowStart, slot)| == held)
  {
  }

  function WindowBatches(l: Layout, indices: seq<int>, rank: nat, start: nat, slots: nat): (r: seq<seq<int>>)
    requires |indices| == l.numSamples > 0
    ensures |r| == slots
  {
    if slots == 0 then []
    else WindowBatches(l, indices, rank, start, slots - 1) + [Microbatch(l, indices, rank, start, slots - 1)]
  }

  function AllBatches(l: Layout, indices: seq<int>, rank: nat, windows: seq<Window>): seq<seq<int>>
    requires |indices| == l.numSamples > 0
  {
    if windows == [] then []
    else
      WindowBatches(l, indices, rank, windows[0].start, windows[0].microbatches)
      + AllBatches(l, indices, rank, windows[1..])
  }

  function Length(l: Layout, offset: nat): int
    requires ValidLayout(l)
  {
    var full := (l.numSamples - offset) / GlobalBatch(l);
    var tail := (l.numSamples - offset) % GlobalBatch(l);
    var partial := if tail != 0 && l.tailPolicy == Flush then CeilDiv(tail, Capacity(l)) else 0;
    full * l.accumulation + partial
  }

  lemma FullWindowSlots(l: Layout)
    requires ValidLayout(l)
    ensures CeilDiv(GlobalBatch(l), Capacity(l)) == l.accumulation
  {
    ExactCeil(l.accumulation, Capacity(l));
  }

  function TotalSlots(windows: seq<Window>): nat {
    if windows == [] then 0 else windows[0].microbatches + TotalSlots(windows[1..])
  }

  lemma {:induction false} BatchesCount(l: Layout, indices: seq<int>, rank: nat, windows: seq<Window>)
    requires |indices| == l.numSamples > 0
    ensures |AllBatches(l, indices, rank, windows)| == TotalSlots(windows)
  {
    if windows != [] { BatchesCount(l, indices, rank, windows[1..]); }
  }

  lemma {:induction false} SlotsAre(n: nat, g: int, c: int, policy: TailPolicy, offset: nat)
    requires g > 0 && c > 0 && offset <= n
    ensures TotalSlots(WindowsFrom(n, g, c, policy, offset))
            == (n - offset) / g * CeilDiv(g, c)
               + (if (n - offset) % g != 0 && policy == Flush then CeilDiv((n - offset) % g, c) else 0)
    decreases n - offset
  {
    var windows := WindowsFrom(n, g, c, policy, offset);
    if offset + g <= n {
      SlotsAre(n, g, c, policy, offset + g);
      DivStep(n - offset - g, g);
      MulStep((n - offset - g) / g, CeilDiv(g, c));
      WindowsUnroll(n, g, c, policy, offset);
    } else {
      DivBelow(n - offset, g);
      WindowsUnroll(n, g, c, policy, offset);
    }
  }

  /** Every rank yields exactly len() batches, from any offset. */
  lemma LengthIsExact(l: Layout, indices: seq<int>, rank: nat, offset: nat)
    requires ValidLayout(l) && |indices| == l.numSamples && offset <= l.numSamples
    ensures |AllBatches(l, indices, rank, Windows(l, offset))| == Length(l, offset)
  {
    FullWindowSlots(l);
    BatchesCount(l, indices, rank, Windows(l, offset));
    SlotsAre(l.numSamples, GlobalBatch(l), Capacity(l), l.tailPolicy, offset);
  }

  // ---------- Exactly once ----------

  /** Local indices of a slot that fall into the update's positions. */
  function Selected(held: nat, localFirst: nat, begin: nat, end: nat): seq<nat> {
    if held == 0 then []
    else
      Selected(held - 1, localFirst, begin, end)
      + (if begin <= localFirst + held - 1 < end then [(held - 1) as nat] else [])
  }

  function LocalFirst(l: Layout, rank: nat, slot: nat): nat {
    slot * l.dpSize * l.batchSize + rank * l.batchSize
  }

  function Shift(s: seq<nat>, base: nat): (r: seq<int>)
    ensures |r| == |s| && forall i :: 0 <= i < |r| ==> r[i] == base + s[i]
  {
    seq(|s|, i requires 0 <= i < |s| => base + s[i])
  }

  /** The window positions that rank `rank` trains on in slot `slot` of one update. */
  function SelectedPositions(l: Layout, w: Window, rank: nat, slot: nat, begin: nat, end: nat): seq<int> {
    Shift(Selected(RealCount(l, rank, w.start, slot), LocalFirst(l, rank, slot), begin, end), LocalFirst(l, rank, slot))
  }

  lemma {:induction false} SelectedIsInterval(held: nat, localFirst: nat, begin: nat, end: nat)
    ensures Shift(Selected(held, localFirst, begin, end), localFirst)
            == Interval(Max(begin, localFirst), Min(end, localFirst + held))
  {
    if held > 0 {
      SelectedIsInterval(held - 1, localFirst, begin, end);
    }
  }

  /** The positions of one slot, rank by rank. */
  function RankPositions(l: Layout, w: Window, slot: nat, begin: nat, end: nat): (r: seq<seq<int>>)
    ensures |r| == l.dpSize
    ensures forall k :: 0 <= k < |r| ==> r[k] == SelectedPositions(l, w, k, slot, begin, end)
  {
    seq(l.dpSize, k requires 0 <= k => SelectedPositions(l, w, k, slot, begin, end))
  }

  /** The positions of one update, slot by slot. */
  function SlotPositions(l: Layout, w: Window, begin: nat, end: nat): (r: seq<seq<int>>)
    ensures |r| == w.microbatches
    ensures forall k :: 0 <= k < |r| ==> r[k] == Flatten(RankPositions(l, w, k, begin, end))
  {
    seq(w.microbatches, k requires 0 <= k => Flatten(RankPositions(l, w, k, begin, end)))
  }

  ghost predicate ValidWindow(l: Layout, w: Window) {
    && 0 < w.count <= GlobalBatch(l) && w.start + w.count <= l.numSamples
    && w.microbatches == CeilDiv(w.count, Capacity(l))
    && (w.count < GlobalBatch(l) ==> w.start + w.count == l.numSamples)
  }

  lemma Reorder(a: int, b: int, c: int)
    ensures (a * b) * c == b * c * a
  {
  }

  /** Slots of a window stay inside it, unless the window ends the dataset. */
  lemma SlotsInside(l: Layout, w: Window, cell: nat)
    requires ValidLayout(l) && ValidWindow(l, w) && w.count == GlobalBatch(l)
    requires cell < w.microbatches * l.dpSize
    ensures (cell + 1) * l.batchSize <= w.count
  {
    FullWindowSlots(l);
    MulMonotone(cell + 1, l.accumulation * l.dpSize, l.batchSize);
    Reorder(l.accumulation, l.dpSize, l.batchSize);
  }

  lemma CellFirst(l: Layout, rank: nat, slot: nat)
    ensures LocalFirst(l, rank, slot) == (slot * l.dpSize + rank) * l.batchSize
  {
    assert slot * l.dpSize * l.batchSize + rank * l.batchSize == (slot * l.dpSize + rank) * l.batchSize;
  }

  lemma CellBound(slot: nat, rank: nat, dp: nat, slots: nat)
    requires rank < dp && slot < slots
    ensures slot * dp + rank < slots * dp
  {
    assert (slot + 1) * dp <= slots * dp;
    assert (slot + 1) * dp == slot * dp + dp;
  }

  /** The real samples of a slot end at the window's end or the slot's end, whichever is first. */
  lemma RealWithinWindow(l: Layout, w: Window, rank: nat, slot: nat)
    requires ValidLayout(l) && ValidWindow(l, w) && rank < l.dpSize && slot < w.microbatches
    ensures var localFirst := LocalFirst(l, rank, slot);
            localFirst + RealCount(l, rank, w.start, slot) == Max(localFirst, Min(localFirst + l.batchSize, w.count))
  {
    if w.count == GlobalBatch(l) {
      CellFirst(l, rank, slot);
      CellBound(slot, rank, l.dpSize, w.microbatches);
      SlotsInside(l, w, slot * l.dpSize + rank);
      assert (slot * l.dpSize + rank + 1) * l.batchSize == (slot * l.dpSize + rank) * l.batchSize + l.batchSize;
    }
  }

  /** Update positions before a point of the window. */
  function Upto(begin: nat, end: nat, point: int): seq<int> {
    Interval(begin, Max(begin, Min(end, point)))
  }

  lemma NextRank(l: Layout, rank: nat, slot: nat)
    ensures LocalFirst(l, rank + 1, slot) == LocalFirst(l, rank, slot) + l.batchSize
  {
    MulStep(rank, l.batchSize);
  }

  lemma SlotEnds(l: Layout, slot: nat)
    ensures LocalFirst(l, 0, slot) == slot * Capacity(l)
    ensures LocalFirst(l, l.dpSize, slot) == (slot + 1) * Capacity(l)
  {
    MulStep(slot, Capacity(l));
    assert slot * l.dpSize * l.batchSize == slot * (l.dpSize * l.batchSize);
  }

  lemma OneCell(l: Layout, w: Window, rank: nat, slot: nat, begin: nat, end: nat)
    requires ValidLayout(l) && ValidWindow(l, w) && rank < l.dpSize && slot < w.microbatches
    requires begin <= end <= w.count
    ensures Upto(begin, end, LocalFirst(l, rank, slot)) + SelectedPositions(l, w, rank, slot, begin, end)
            == Upto(begin, end, LocalFirst(l, rank + 1, slot))
  {
    NextRank(l, rank, slot);
    RealWithinWindow(l, w, rank, slot);
    SelectedIsInterval(RealCount(l, rank, w.start, slot), LocalFirst(l, rank, slot), begin, end);
  }

  lemma OneSlot(l: Layout, w: Window, slot: nat, begin: nat, end: nat)
    requires ValidLayout(l) && ValidWindow(l, w) && slot < w.microbatches
    requires begin <= end <= w.count
    ensures Upto(begin, end, LocalFirst(l, 0, slot)) + Flatten(RankPositions(l, w, slot, begin, end))
            == Upto(begin, end, LocalFirst(l, l.dpSize, slot))
  {
    var marks := seq(l.dpSize + 1, r requires 0 <= r => Upto(begin, end, LocalFirst(l, r, slot)));
    forall r | 0 <= r < l.dpSize
      ensures marks[r] + RankPositions(l, w, slot, begin, end)[r] == marks[r + 1]
    {
      OneCell(l, w, r, slot, begin, end);
    }
    Telescope(marks, RankPositions(l, w, slot, begin, end));
  }

  /** One update: over all ranks and slots, exactly the positions of its slice, each once and in order. */
  lemma UpdateSelectsSlice(l: Layout, w: Window, begin: nat, end: nat)
    requires ValidLayout(l) && ValidWindow(l, w) && begin <= end <= w.count
    ensures Flatten(SlotPositions(l, w, begin, end)) == Interval(begin, end)
  {
    var marks := seq(w.microbatches + 1, k requires 0 <= k => Upto(begin, end, k * Capacity(l)));
    forall k | 0 <= k < w.microbatches
      ensures marks[k] + SlotPositions(l, w, begin, end)[k] == marks[k + 1]
    {
      OneSlot(l, w, k, begin, end);
      SlotEnds(l, k);
    }
    Telescope(marks, SlotPositions(l, w, begin, end));
    assert marks[0] == [];
    CeilBounds(w.count, Capacity(l));
  }

  lemma {:induction false} WindowsAre(n: nat, g: int, c: int, policy: TailPolicy, offset: nat, i: nat)
    requires g > 0 && c > 0 && i < |WindowsFrom(n, g, c, policy, offset)|
    ensures var w := WindowsFrom(n, g, c, policy, offset)[i];
            && 0 < w.count <= g && offset <= w.start && w.start + w.count <= n
            && w.microbatches == CeilDiv(w.count, c)
            && (w.count < g ==> w.start + w.count == n)
    decreases n - offset
  {
    if i > 0 {
      assert WindowsFrom(n, g, c, policy, offset)[i] == WindowsFrom(n, g, c, policy, offset + g)[i - 1];
      WindowsAre(n, g, c, policy, offset + g, i - 1);
    }
  }

  lemma WindowsAreValid(l: Layout, offset: nat, i: nat)
    requires ValidLayout(l) && i < |Windows(l, offset)|
    ensures ValidWindow(l, Windows(l, offset)[i])
  {
    WindowsAre(l.numSamples, GlobalBatch(l), Capacity(l), l.tailPolicy, offset, i);
  }

  function WindowSpan(windows: seq<Window>): seq<int> {
    if windows == [] then []
    else Interval(windows[0].start, windows[0].start + windows[0].count) + WindowSpan(windows[1..])
  }

  /** Windows that follow one another without a gap. */
  ghost predicate Tiles(windows: seq<Window>, from: nat, to: nat) {
    if windows == [] then from == to
    else windows[0].start == from && Tiles(windows[1..], from + windows[0].count, to)
  }

  lemma {:induction false} TilesOrder(windows: seq<Window>, from: nat, to: nat)
    requires Tiles(windows, from, to)
    ensures from <= to
  {
    if windows != [] { TilesOrder(windows[1..], from + windows[0].count, to); }
  }

  lemma {:induction false} TilesSpan(windows: seq<Window>, from: nat, to: nat)
    requires Tiles(windows, from, to)
    ensures WindowSpan(windows) == Interval(from, to)
  {
    if windows != [] {
      var next := from + windows[0].count;
      TilesSpan(windows[1..], next, to);
      TilesOrder(windows[1..], next, to);
      IntervalConcat(from, next, to);
    }
  }

  lemma EndStep(n: nat, g: int, policy: TailPolicy, offset: nat)
    requires g > 0 && offset + g <= n
    ensures EndFrom(n, g, policy, offset) == EndFrom(n, g, policy, offset + g)
  {
    DivStep(n - offset - g, g);
    MulStep((n - offset - g) / g, g);
  }

  lemma {:induction false} WindowsFromTile(n: nat, g: int, c: int, policy: TailPolicy, offset: nat)
    requires g > 0 && c > 0 && offset <= n
    ensures Tiles(WindowsFrom(n, g, c, policy, offset), offset, EndFrom(n, g, policy, offset))
    decreases n - offset
  {
    WindowsUnroll(n, g, c, policy, offset);
    if offset + g <= n {
      WindowsFromTile(n, g, c, policy, offset + g);
      EndStep(n, g, policy, offset);
    } else {
      DivBelow(n - offset, g);
    }
  }

  /** The windows tile the dataset from the offset to the last committed window end. */
  lemma WindowsTile(l: Layout, offset: nat)
    requires ValidLayout(l) && offset <= l.numSamples
    ensures WindowSpan(Windows(l, offset)) == Interval(offset, EndOf(l, offset))
  {
    WindowsFromTile(l.numSamples, GlobalBatch(l), Capacity(l), l.tailPolicy, offset);
    TilesSpan(Windows(l, offset), offset, EndOf(l, offset));
  }

  // Reading samples through the positions.

  /** The weighted samples of one slot, rank by rank. */
  function RankSamples(l: Layout, indices: seq<int>, w: Window, slot: nat): (r: seq<seq<int>>)
    requires |indices| == l.numSamples > 0
    ensures |r| == l.dpSize
    ensures forall k :: 0 <= k < |r| ==> r[k] == RealSlice(l, indices, k, w.start, slot)
  {
    seq(l.dpSize, k requires 0 <= k => RealSlice(l, indices, k, w.start, slot))
  }

  /** The weighted samples of one window, slot by slot. */
  function SlotSamples(l: Layout, indices: seq<int>, w: Window): (r: seq<seq<int>>)
    requires |indices| == l.numSamples > 0
    ensures |r| == w.microbatches
    ensures forall k :: 0 <= k < |r| ==> r[k] == Flatten(RankSamples(l, indices, w, k))
  {
    seq(w.microbatches, k requires 0 <= k => Flatten(RankSamples(l, indices, w, k)))
  }

  /** The weighted samples all ranks emit over some windows, in training order. */
  function EmittedSamples(l: Layout, indices: seq<int>, windows: seq<Window>): seq<int>
    requires |indices| == l.numSamples > 0
  {
    if windows == [] then []
    else Flatten(SlotSamples(l, indices, windows[0])) + EmittedSamples(l, indices, windows[1..])
  }

  /** The window's samples before a point of the window. */
  function SamplesUpto(indices: seq<int>, w: Window, point: int): seq<int>
    requires w.start + w.count <= |indices|
  {
    indices[w.start..w.start + Max(0, Min(w.count, point))]
  }

  lemma OneCellSamples(l: Layout, indices: seq<int>, w: Window, rank: nat, slot: nat)
    requires ValidLayout(l) && ValidWindow(l, w) && |indices| == l.numSamples && rank < l.dpSize
    requires slot < w.microbatches
    ensures SamplesUpto(indices, w, LocalFirst(l, rank, slot)) + RealSlice(l, indices, rank, w.start, slot)
            == SamplesUpto(indices, w, LocalFirst(l, rank + 1, slot))
  {
    NextRank(l, rank, slot);
    RealWithinWindow(l, w, rank, slot);
    RealSliceIs(l, indices, rank, w.start, slot);
  }

  lemma OneSlotSamples(l: Layout, indices: seq<int>, w: Window, slot: nat)
    requires ValidLayout(l) && ValidWindow(l, w) && |indices| == l.numSamples && slot < w.microbatches
    ensures SamplesUpto(indices, w, LocalFirst(l, 0, slot)) + Flatten(RankSamples(l, indices, w, slot))
            == SamplesUpto(indices, w, LocalFirst(l, l.dpSize, slot))
  {
    var marks := seq(l.dpSize + 1, r requires 0 <= r => SamplesUpto(indices, w, LocalFirst(l, r, slot)));
    forall r | 0 <= r < l.dpSize
      ensures marks[r] + RankSamples(l, indices, w, slot)[r] == marks[r + 1]
    {
      OneCellSamples(l, indices, w, r, slot);
    }
    Telescope(marks, RankSamples(l, indices, w, slot));
  }

  ghost predicate EmitsWindow(l: Layout, indices: seq<int>, w: Window) {
    && |indices| == l.numSamples > 0 && w.start + w.count <= |indices|
    && Flatten(SlotSamples(l, indices, w)) == indices[w.start..w.start + w.count]
  }

  ghost function SlotMarks(l: Layout, indices: seq<int>, w: Window): (r: seq<seq<int>>)
    requires w.start + w.count <= |indices|
    ensures |r| == w.microbatches + 1 && r[0] == []
    ensures forall k :: 0 <= k < |r| ==> r[k] == SamplesUpto(indices, w, k * Capacity(l))
  {
    seq(w.microbatches + 1, k requires 0 <= k => SamplesUpto(indices, w, k * Capacity(l)))
  }

  lemma SlotAdvances(l: Layout, indices: seq<int>, w: Window, slot: nat)
    requires ValidLayout(l) && ValidWindow(l, w) && |indices| == l.numSamples && slot < w.microbatches
    ensures SamplesUpto(indices, w, slot * Capacity(l)) + Flatten(RankSamples(l, indices, w, slot))
            == SamplesUpto(indices, w, (slot + 1) * Capacity(l))
  {
    OneSlotSamples(l, indices, w, slot);
    SlotEnds(l, slot);
  }

  lemma SlotsTelescope(l: Layout, indices: seq<int>, w: Window)
    requires ValidLayout(l) && ValidWindow(l, w) && |indices| == l.numSamples
    ensures Flatten(SlotSamples(l, indices, w)) == SamplesUpto(indices, w, w.microbatches * Capacity(l))
  {
    var pieces := SlotSamples(l, indices, w);
    var marks := SlotMarks(l, indices, w);
    forall k | 0 <= k < w.microbatches
      ensures marks[k] + pieces[k] == marks[k + 1]
    {
      SlotAdvances(l, indices, w, k);
    }
    Telescope(marks, pieces);
    assert [] + Flatten(pieces) == Flatten(pieces);
  }

  lemma WholeWindow(indices: seq<int>, w: Window, point: int)
    requires w.start + w.count <= |indices| && w.count <= point
    ensures SamplesUpto(indices, w, point) == indices[w.start..w.start + w.count]
  {
  }

  /** A window's slots emit the window. */
  lemma WindowSamples(l: Layout, indices: seq<int>, w: Window)
    requires ValidLayout(l) && ValidWindow(l, w) && |indices| == l.numSamples
    ensures EmitsWindow(l, indices, w)
  {
    SlotsTelescope(l, indices, w);
    CeilBounds(w.count, Capacity(l));
    WholeWindow(indices, w, w.microbatches * Capacity(l));
  }

  function WindowSlice(indices: seq<int>, w: Window): seq<int> {
    if w.start + w.count <= |indices| then indices[w.start..w.start + w.count] else []
  }

  function WindowSlices(indices: seq<int>, windows: seq<Window>): seq<int> {
    if windows == [] then [] else WindowSlice(indices, windows[0]) + WindowSlices(indices, windows[1..])
  }

  lemma {:induction false} EmitAll(l: Layout, indices: seq<int>, windows: seq<Window>)
    requires |indices| == l.numSamples > 0
    requires forall i :: 0 <= i < |windows| ==> EmitsWindow(l, indices, windows[i])
    ensures EmittedSamples(l, indices, windows) == WindowSlices(indices, windows)
  {
    if windows != [] {
      EmitAll(l, indices, windows[1..]);
      assert EmitsWindow(l, indices, windows[0]);
    }
  }

  lemma Splice(s: seq<int>, a: nat, b: nat, c: nat)
    requires a <= b <= c <= |s|
    ensures s[a..b] + s[b..c] == s[a..c]
  {
  }

  lemma {:induction false} TilesSlices(indices: seq<int>, windows: seq<Window>, from: nat, to: nat)
    requires Tiles(windows, from, to) && from <= to <= |indices|
    ensures WindowSlices(indices, windows) == indices[from..to]
  {
    if windows != [] {
      var next := from + windows[0].count;
      TilesOrder(windows[1..], next, to);
      TilesSlices(indices, windows[1..], next, to);
      Splice(indices, from, next, to);
    }
  }

  lemma EmittedAre(l: Layout, indices: seq<int>, offset: nat)
    requires ValidLayout(l) && |indices| == l.numSamples && offset <= l.numSamples
    ensures EmittedSamples(l, indices, Windows(l, offset)) == indices[offset..EndOf(l, offset)]
  {
    var windows := Windows(l, offset);
    forall i | 0 <= i < |windows|
      ensures EmitsWindow(l, indices, windows[i])
    {
      WindowsAreValid(l, offset, i);
      WindowSamples(l, indices, windows[i]);
    }
    EmitAll(l, indices, windows);
    WindowsFromTile(l.numSamples, GlobalBatch(l), Capacity(l), l.tailPolicy, offset);
    TilesSlices(indices, windows, offset, EndOf(l, offset));
  }

  ghost predicate Permutation(indices: seq<int>, n: nat) {
    |indices| == n && (forall i :: 0 <= i < n ==> 0 <= indices[i] < n)
      && (forall i, j :: 0 <= i < j < n ==> indices[i] != indices[j])
  }

  // What the ranks emit, read back.

  /** A slot's batches cut to the samples that carry weight, rank by rank. */
  function RanksRead(l: Layout, emitted: seq<seq<seq<int>>>, w: Window, slot: nat, at: nat): (r: seq<seq<int>>)
    requires |emitted| == l.dpSize && forall k :: 0 <= k < l.dpSize ==> at < |emitted[k]|
    ensures |r| == l.dpSize
    ensures forall k :: 0 <= k < |r| ==>
              r[k] == emitted[k][at][..Min(RealCount(l, k, w.start, slot), |emitted[k][at]|)]
  {
    seq(l.dpSize, k requires 0 <= k < l.dpSize =>
      emitted[k][at][..Min(RealCount(l, k, w.start, slot), |emitted[k][at]|)])
  }

  /** A window's batches, which stand at `first` in every rank's list, slot by slot. */
  function SlotsRead(l: Layout, emitted: seq<seq<seq<int>>>, w: Window, first: nat): (r: seq<seq<int>>)
    requires |emitted| == l.dpSize && forall k :: 0 <= k < l.dpSize ==> first + w.microbatches <= |emitted[k]|
    ensures |r| == w.microbatches
    ensures forall slot :: 0 <= slot < |r| ==> r[slot] == Flatten(RanksRead(l, emitted, w, slot, first + slot))
  {
    seq(w.microbatches, slot requires 0 <= slot < w.microbatches =>
      Flatten(RanksRead(l, emitted, w, slot, first + slot)))
  }

  /** All batches of all ranks from number `first` on, window by window, slot by slot, rank by rank. */
  function Reading(l: Layout, emitted: seq<seq<seq<int>>>, windows: seq<Window>, first: nat): seq<int>
    requires |emitted| == l.dpSize && forall k :: 0 <= k < l.dpSize ==> |emitted[k]| == first + TotalSlots(windows)
  {
    if windows == [] then []
    else
      assert TotalSlots(windows) == windows[0].microbatches + TotalSlots(windows[1..]);
      Flatten(SlotsRead(l, emitted, windows[0], first))
      + Reading(l, emitted, windows[1..], first + windows[0].microbatches)
  }

  lemma {:induction false} BatchAt(l: Layout, indices: seq<int>, rank: nat, start: nat, slots: nat, slot: nat)
    requires |indices| == l.numSamples > 0 && slot < slots
    ensures WindowBatches(l, indices, rank, start, slots)[slot] == Microbatch(l, indices, rank, start, slot)
  {
    if slot < slots - 1 { BatchAt(l, indices, rank, start, slots - 1, slot); }
  }

  /** Every rank's list goes on like this from number `first` on. */
  ghost predicate Continues(l: Layout, indices: seq<int>, emitted: seq<seq<seq<int>>>, windows: seq<Window>,
        first: nat) {
    && |indices| == l.numSamples > 0 && |emitted| == l.dpSize
    && forall k :: 0 <= k < l.dpSize ==>
         first <= |emitted[k]| && emitted[k][first..] == AllBatches(l, indices, k, windows)
  }

  lemma SlotRead(l: Layout, indices: seq<int>, emitted: seq<seq<seq<int>>>, windows: seq<Window>, first: nat, slot: nat)
    requires Continues(l, indices, emitted, windows, first) && windows != [] && slot < windows[0].microbatches
    requires forall k :: 0 <= k < l.dpSize ==> first + slot < |emitted[k]|
    ensures RanksRead(l, emitted, windows[0], slot, first + slot) == RankSamples(l, indices, windows[0], slot)
  {
    forall k | 0 <= k < l.dpSize
      ensures emitted[k][first + slot] == Microbatch(l, indices, k, windows[0].start, slot)
    {
      BatchAt(l, indices, k, windows[0].start, windows[0].microbatches, slot);
      assert emitted[k][first + slot] == emitted[k][first..][slot];
    }
  }

  lemma ContinuesNext(l: Layout, indices: seq<int>, emitted: seq<seq<seq<int>>>, windows: seq<Window>, first: nat)
    requires Continues(l, indices, emitted, windows, first) && windows != []
    ensures forall k :: 0 <= k < l.dpSize ==> |emitted[k]| == first + TotalSlots(windows)
    ensures Continues(l, indices, emitted, windows[1..], first + windows[0].microbatches)
  {
    forall k | 0 <= k < l.dpSize
      ensures |emitted[k]| == first + TotalSlots(windows)
      ensures emitted[k][first + windows[0].microbatches..] == AllBatches(l, indices, k, windows[1..])
    {
      BatchesCount(l, indices, k, windows);
      assert emitted[k][first + windows[0].microbatches..] == emitted[k][first..][windows[0].microbatches..];
    }
  }

  lemma {:induction false} ReadingIs(l: Layout, indices: seq<int>, emitted: seq<seq<seq<int>>>, windows: seq<Window>,
        first: nat)
    requires Continues(l, indices, emitted, windows, first)
    ensures forall k :: 0 <= k < l.dpSize ==> |emitted[k]| == first + TotalSlots(windows)
    ensures Reading(l, emitted, windows, first) == EmittedSamples(l, indices, windows)
    decreases windows
  {
    if windows != [] {
      ContinuesNext(l, indices, emitted, windows, first);
      ReadingIs(l, indices, emitted, windows[1..], first + windows[0].microbatches);
      var slots := SlotsRead(l, emitted, windows[0], first);
      forall slot | 0 <= slot < |slots|
        ensures slots[slot] == SlotSamples(l, indices, windows[0])[slot]
      {
        SlotRead(l, indices, emitted, windows, first, slot);
      }
      assert slots == SlotSamples(l, indices, windows[0]);
    }
  }

  /** What the ranks' samplers return for one epoch from an offset. */
  ghost predicate Emitted(l: Layout, indices: seq<int>, offset: nat, emitted: seq<seq<seq<int>>>)
    requires ValidLayout(l) && |indices| == l.numSamples
  {
    && |emitted| == l.dpSize
    && forall k :: 0 <= k < l.dpSize ==> emitted[k] == AllBatches(l, indices, k, Windows(l, offset))
  }

  lemma EmittedContinues(l: Layout, indices: seq<int>, offset: nat, emitted: seq<seq<seq<int>>>)
    requires ValidLayout(l) && |indices| == l.numSamples && Emitted(l, indices, offset, emitted)
    ensures Continues(l, indices, emitted, Windows(l, offset), 0)
  {
    forall k | 0 <= k < l.dpSize
      ensures emitted[k][0..] == AllBatches(l, indices, k, Windows(l, offset))
    {
      assert emitted[k][0..] == emitted[k];
    }
  }

  /**
    Exactly-once sharding: the batches that the samplers of all ranks return, each cut to its samples that carry
    weight and read slot by slot and rank by rank, are the permuted indices from the offset to the last window end,
    each once and in order.
   */
  lemma ExactlyOnce(l: Layout, indices: seq<int>, offset: nat, emitted: seq<seq<seq<int>>>)
    requires ValidLayout(l) && Permutation(indices, l.numSamples) && offset <= l.numSamples
    requires Emitted(l, indices, offset, emitted)
    ensures forall k :: 0 <= k < l.dpSize ==> |emitted[k]| == TotalSlots(Windows(l, offset))
    ensures var read := Reading(l, emitted, Windows(l, offset), 0);
            && offset <= EndOf(l, offset) <= l.numSamples
            && read == indices[offset..EndOf(l, offset)]
            && (forall i, j :: 0 <= i < j < |read| ==> read[i] != read[j])
  {
    EmittedContinues(l, indices, offset, emitted);
    ReadingIs(l, indices, emitted, Windows(l, offset), 0);
    EmittedAre(l, indices, offset);
  }

  /** A run resumed with another layout of the same global batch trains on the same samples in the same order. */
  lemma ElasticResume(saved: Layout, current: Layout, indices: seq<int>, offset: nat, before: seq<seq<seq<int>>>,
        after: seq<seq<seq<int>>>)
    requires ValidLayout(saved) && ValidLayout(current) && |indices| == saved.numSamples == current.numSamples
    requires offset <= saved.numSamples
    requires GlobalBatch(saved) == GlobalBatch(current) && saved.tailPolicy == current.tailPolicy
    requires Emitted(saved, indices, offset, before) && Emitted(current, indices, offset, after)
    ensures forall k :: 0 <= k < saved.dpSize ==> |before[k]| == TotalSlots(Windows(saved, offset))
    ensures forall k :: 0 <= k < current.dpSize ==> |after[k]| == TotalSlots(Windows(current, offset))
    ensures Reading(saved, before, Windows(saved, offset), 0) == Reading(current, after, Windows(current, offset), 0)
  {
    EmittedContinues(saved, indices, offset, before);
    EmittedContinues(current, indices, offset, after);
    ReadingIs(saved, indices, before, Windows(saved, offset), 0);
    ReadingIs(current, indices, after, Windows(current, offset), 0);
    EmittedAre(saved, indices, offset);
    EmittedAre(current, indices, offset);
  }

  ghost predicate Boundary(l: Layout, offset: nat)
    requires ValidLayout(l)
  {
    offset <= l.numSamples && (offset == l.numSamples || offset % GlobalBatch(l) == 0)
  }

  lemma {:induction false} ResumeSplits(n: nat, g: int, c: int, policy: TailPolicy, k: nat, from: nat)
    requires g > 0 && c > 0 && k * g >= 0 && from + k * g <= n
    ensures var windows := WindowsFrom(n, g, c, policy, from);
            && k <= |windows| && windows[k..] == WindowsFrom(n, g, c, policy, from + k * g)
            && forall i :: 0 <= i < k ==> windows[i].start + windows[i].count <= from + k * g
    decreases k
  {
    if k > 0 {
      MulStep(k - 1, g);
      MulNonNegative(k - 1, g);
      ResumeSplits(n, g, c, policy, k - 1, from + g);
      var windows := WindowsFrom(n, g, c, policy, from);
      assert windows == [windows[0]] + WindowsFrom(n, g, c, policy, from + g);
      assert windows[k..] == WindowsFrom(n, g, c, policy, from + g)[k - 1..];
    } else {
      assert 0 * g == 0;
    }
  }

  lemma ResumeAtEnd(l: Layout)
    requires ValidLayout(l)
    ensures Windows(l, l.numSamples) == [] && Windows(l, 0)[..|Windows(l, 0)|] + [] == Windows(l, 0)
    ensures forall i :: 0 <= i < |Windows(l, 0)| ==> Windows(l, 0)[i].start + Windows(l, 0)[i].count <= l.numSamples
  {
    forall i | 0 <= i < |Windows(l, 0)|
      ensures Windows(l, 0)[i].start + Windows(l, 0)[i].count <= l.numSamples
    {
      WindowsAreValid(l, 0, i);
    }
  }

  lemma WholeMultiple(x: nat, d: int, k: nat)
    requires d > 0 && x % d == 0 && k == x / d
    ensures k * d == x
  {
  }

  lemma ResumeInside(l: Layout, offset: nat, k: nat)
    requires ValidLayout(l) && offset <= l.numSamples && offset % GlobalBatch(l) == 0 && k == offset / GlobalBatch(l)
    ensures k <= |Windows(l, 0)| && Windows(l, 0) == Windows(l, 0)[..k] + Windows(l, offset)
    ensures forall i :: 0 <= i < k ==> Windows(l, 0)[i].start + Windows(l, 0)[i].count <= offset
  {
    WholeMultiple(offset, GlobalBatch(l), k);
    ResumeSplits(l.numSamples, GlobalBatch(l), Capacity(l), l.tailPolicy, k, 0);
  }

  /** The windows of an epoch are the k before a committed boundary followed by those from it. */
  lemma ResumeAtBoundary(l: Layout, offset: nat) returns (k: nat)
    requires ValidLayout(l) && Boundary(l, offset)
    ensures k <= |Windows(l, 0)| && Windows(l, 0) == Windows(l, 0)[..k] + Windows(l, offset)
    ensures forall i :: 0 <= i < k ==> Windows(l, 0)[i].start + Windows(l, 0)[i].count <= offset
  {
    if offset == l.numSamples {
      k := |Windows(l, 0)|;
      ResumeAtEnd(l);
    } else {
      k := offset / GlobalBatch(l);
      ResumeInside(l, offset, k);
    }
  }

  // ---------- Commits per epoch ----------

  function CommitCount(windows: seq<Window>, updateEpochs: int, minibatch: int): nat {
    if windows == [] then 0
    else
      (match LearnerUpdateSlices(windows[0].count, updateEpochs, minibatch) case Success(s) => |s| case Failure => 0)
      + CommitCount(windows[1..], updateEpochs, minibatch)
  }

  lemma ScaledStep(e: int, full: int, c: int, t: int)
    ensures e * ((full + 1) * c + t) == e * c + e * (full * c + t)
  {
    MulStep(full, c);
    assert (full + 1) * c + t == c + (full * c + t);
  }

  /** One more full window adds the commits of one full window. */
  lemma StepsOfFullWindow(n: nat, g: int, policy: TailPolicy, offset: nat, updateEpochs: int, minibatch: int)
    requires g > 0 && offset + g <= n && minibatch >= 0
    ensures GlobalEpochSteps(n, offset, g, policy, true, updateEpochs, minibatch)
            == updateEpochs * CeilDiv(g, if minibatch != 0 then minibatch else g)
               + GlobalEpochSteps(n, offset + g, g, policy, true, updateEpochs, minibatch)
  {
    var group := if minibatch != 0 then minibatch else g;
    DivStep(n - offset - g, g);
    var rest := (n - offset) % g;
    var tail := if policy == Flush && rest != 0 then CeilDiv(rest, group) else 0;
    ScaledStep(updateEpochs, (n - offset - g) / g, CeilDiv(g, group), tail);
  }

  lemma StepsOfTail(n: nat, g: int, policy: TailPolicy, offset: nat, updateEpochs: int, minibatch: int)
    requires g > 0 && offset <= n < offset + g && minibatch >= 0
    ensures GlobalEpochSteps(n, offset, g, policy, true, updateEpochs, minibatch)
            == if offset == n || policy == Drop then 0
               else updateEpochs * CeilDiv(n - offset, if minibatch != 0 then minibatch else n - offset)
  {
    DivBelow(n - offset, g);
    if offset < n {
      SmallCeil(n - offset, n - offset);
      SmallCeil(n - offset, g);
    }
  }

  lemma {:induction false} CommitsFrom(n: nat, g: int, c: int, policy: TailPolicy, offset: nat, updateEpochs: int,
        minibatch: int)
    requires g > 0 && c > 0 && offset <= n && updateEpochs > 0 && minibatch >= 0
    ensures CommitCount(WindowsFrom(n, g, c, policy, offset), updateEpochs, minibatch)
            == GlobalEpochSteps(n, offset, g, policy, true, updateEpochs, minibatch)
    decreases n - offset
  {
    var windows := WindowsFrom(n, g, c, policy, offset);
    if offset + g <= n {
      CommitsFrom(n, g, c, policy, offset + g, updateEpochs, minibatch);
      ReplayVisitsEachOnce(g, updateEpochs, minibatch);
      WindowsUnroll(n, g, c, policy, offset);
      StepsOfFullWindow(n, g, policy, offset, updateEpochs, minibatch);
    } else {
      StepsOfTail(n, g, policy, offset, updateEpochs, minibatch);
      if offset < n && policy == Flush {
        ReplayVisitsEachOnce(n - offset, updateEpochs, minibatch);
        WindowsUnroll(n, g, c, policy, offset);
      }
    }
  }

  lemma OfflineSteps(n: nat, g: int, policy: TailPolicy, offset: nat)
    requires g > 0 && offset <= n
    ensures GlobalEpochSteps(n, offset, g, policy, true, 1, 0) == GlobalEpochSteps(n, offset, g, policy, false, 1, 0)
  {
    SmallCeil(g, g);
    var rest := (n - offset) % g;
    if rest != 0 { SmallCeil(rest, g); }
  }

  /** What scheduling computes for the windows from an offset. */
  function EpochSteps(l: Layout, offset: nat, replay: Replay): int
    requires ValidLayout(l)
  {
    GlobalEpochSteps(l.numSamples, offset, GlobalBatch(l), l.tailPolicy,
                     replay.online, replay.updateEpochs, replay.minibatch)
  }

  /** The commits of an epoch, counted window by window, are what the scheduler was told. */
  lemma CommitsMatchSteps(l: Layout, offset: nat, online: bool, updateEpochs: int, minibatch: int)
    requires ValidLayout(l) && offset <= l.numSamples && updateEpochs > 0 && minibatch >= 0
    ensures CommitCount(Windows(l, offset), if online then updateEpochs else 1, if online then minibatch else 0)
            == GlobalEpochSteps(l.numSamples, offset, GlobalBatch(l), l.tailPolicy, online, updateEpochs, minibatch)
  {
    if online {
      CommitsFrom(l.numSamples, GlobalBatch(l), Capacity(l), l.tailPolicy, offset, updateEpochs, minibatch);
    } else {
      CommitsFrom(l.numSamples, GlobalBatch(l), Capacity(l), l.tailPolicy, offset, 1, 0);
      OfflineSteps(l.numSamples, GlobalBatch(l), l.tailPolicy, offset);
    }
  }

  // ---------- The sampler object ----------

  class GlobalBatchSampler {
    const layout: Layout
    const dpRank: nat
    var epoch: int
    var startOffset: nat

    ghost predicate Valid()
      reads this
    {
      ValidLayout(layout) && dpRank < layout.dpSize && startOffset <= layout.numSamples
    }

    constructor (layout: Layout, dpRank: nat, epoch: int, startOffset: nat)
      requires ValidLayout(layout) && dpRank < layout.dpSize && Boundary(layout, startOffset)
      ensures Valid() && this.layout == layout && this.dpRank == dpRank && this.epoch == epoch
      ensures this.startOffset == startOffset
    {
      this.layout, this.dpRank, this.epoch, this.startOffset := layout, dpRank, epoch, startOffset;
    }

    /** The constructor's guard: the offset must be a committed window boundary of a nonempty dataset. */
    static method Create(layout: Layout, dpRank: nat, epoch: int, startOffset: int)
      returns (r: Result<GlobalBatchSampler>)
      requires layout.dpSize > 0 && layout.batchSize > 0 && layout.accumulation > 0 && dpRank < layout.dpSize
      ensures r.Success? <==> layout.numSamples > 0 && startOffset >= 0 && Boundary(layout, startOffset)
      ensures r.Success? ==>
          fresh(r.value) && r.value.Valid() && r.value.layout == layout && r.value.startOffset == startOffset
    {
      if layout.numSamples < 1 { return Failure; }
      if startOffset < 0 || startOffset > layout.numSamples
         || (startOffset != layout.numSamples && startOffset % GlobalBatch(layout) != 0) {
        return Failure;
      }
      var s := new GlobalBatchSampler(layout, dpRank, epoch, startOffset);
      return Success(s);
    }

    method SetEpoch(epoch: int, startOffset: nat)
      requires Valid() && startOffset <= layout.numSamples
      modifies this
      ensures Valid() && this.epoch == epoch && this.startOffset == startOffset
    {
      this.epoch, this.startOffset := epoch, startOffset;
    }

    method WindowList() returns (r: seq<Window>)
      requires Valid()
      ensures r == Windows(layout, startOffset)
    {
      var start := startOffset;
      r := [];
      while start < layout.numSamples
        invariant start >= 0 && Windows(layout, startOffset) == r + Windows(layout, start)
        decreases layout.numSamples - start
      {
        var count := Min(GlobalBatch(layout), layout.numSamples - start);
        if count < GlobalBatch(layout) && layout.tailPolicy == Drop {
          break;
        }
        r := r + [Window(start, count, CeilDiv(count, Capacity(layout)))];
        start := start + GlobalBatch(layout);
      }
    }

    /** The rank's slice of one slot; an empty slot reads sample zero. */
    method Emit(indices: seq<int>, start: nat, slot: nat) returns (r: seq<int>)
      requires Valid() && |indices| == layout.numSamples
      ensures r == Microbatch(layout, indices, dpRank, start, slot)
    {
      var first := start + slot * layout.dpSize * layout.batchSize;
      first := first + dpRank * layout.batchSize;
      var last := Min(first + layout.batchSize, layout.numSamples);
      var local := if first <= layout.numSamples then indices[first..last] else [];
      r := if local == [] then [indices[0]] else local;
    }

    /** The rank's microbatches of one window. */
    method WindowSlots(indices: seq<int>, w: Window) returns (r: seq<seq<int>>)
      requires Valid() && |indices| == layout.numSamples
      ensures r == WindowBatches(layout, indices, dpRank, w.start, w.microbatches)
    {
      r := [];
      for slot := 0 to w.microbatches
        invariant r == WindowBatches(layout, indices, dpRank, w.start, slot)
      {
        var batch := Emit(indices, w.start, slot);
        r := r + [batch];
      }
    }

    /** One pass over the epoch's permutation. */
    method Batches(indices: seq<int>) returns (r: seq<seq<int>>)
      requires Valid() && |indices| == layout.numSamples
      ensures r == AllBatches(layout, indices, dpRank, Windows(layout, startOffset))
      ensures |r| == Length(layout, startOffset)
    {
      r := [];
      var windows := WindowList();
      LengthIsExact(layout, indices, dpRank, startOffset);
      for i := 0 to |windows|
        invariant AllBatches(layout, indices, dpRank, windows) == r + AllBatches(layout, indices, dpRank, windows[i..])
      {
        var batch := WindowSlots(indices, windows[i]);
        r := r + batch;
        assert windows[i..][1..] == windows[i + 1..];
      }
      assert windows[|windows|..] == [];
    }
  }
}
