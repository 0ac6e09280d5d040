/** Replay order of a window's updates, and the commit count that scheduling relies on. */
module StepPlan {
  import opened Sequences
  import opened Arithmetic

  datatype TailPolicy = Drop | Flush

  /** One update: the window positions begin..end, and whether it is the window's last. */
  datatype Update = Update(begin: nat, end: nat, last: bool)

  function EpochSlices(total: nat, size: nat, begin: nat, lastEpoch: bool): (r: seq<Update>)
    requires size > 0
    decreases total - begin
  {
    if begin >= total then []
    else
      var end := Min(begin + size, total);
      [Update(begin, end, lastEpoch && end == total)] + EpochSlices(total, size, begin + size, lastEpoch)
  }

  function ReplaySlices(total: nat, size: nat, epochs: nat, epoch: nat): seq<Update>
    requires size > 0 && epoch <= epochs
    decreases epochs - epoch
  {
    if epoch == epochs then []
    else EpochSlices(total, size, 0, epoch + 1 == epochs) + ReplaySlices(total, size, epochs, epoch + 1)
  }

  /** A minibatch of zero stands for "not set": the whole window at once. */
  function LearnerUpdateSlices(total: int, updateEpochs: int, minibatch: int): (r: Result<seq<Update>>)
    ensures r.Success? <==> total > 0 && updateEpochs > 0 && minibatch >= 0
  {
    var size := if minibatch != 0 then minibatch else total;
    if total <= 0 || updateEpochs <= 0 || size <= 0 then Failure
    else Success(ReplaySlices(total, size, updateEpochs, 0))
  }

  /** Consecutive integers from a up to b. */
  function Interval(a: int, b: int): (r: seq<int>)
    ensures |r| == (if a < b then b - a else 0)
    ensures forall i :: 0 <= i < |r| ==> r[i] == a + i
  {
    seq(if a < b then b - a else 0, i => a + i)
  }

  lemma IntervalConcat(a: int, b: int, c: int)
    requires a <= b <= c
    ensures Interval(a, b) + Interval(b, c) == Interval(a, c)
  {
  }

  /** The positions an update sequence visits, in order. */
  function Visits(updates: seq<Update>): seq<int> {
    if updates == [] then [] else Interval(updates[0].begin, updates[0].end) + Visits(updates[1..])
  }

  function Repeat(total: nat, times: nat): seq<int> {
    if times == 0 then [] else Interval(0, total) + Repeat(total, times - 1)
  }

  lemma VisitsCons(u: Update, rest: seq<Update>)
    ensures Visits([u] + rest) == Interval(u.begin, u.end) + Visits(rest)
  {
    assert ([u] + rest)[1..] == rest;
  }

  lemma {:induction false} VisitsConcat(a: seq<Update>, b: seq<Update>)
    ensures Visits(a + b) == Visits(a) + Visits(b)
  {
    if a == [] {
      assert a + b == b;
    } else {
      VisitsConcat(a[1..], b);
      VisitsCons(a[0], a[1..] + b);
      assert a + b == [a[0]] + (a[1..] + b);
    }
  }

  lemma {:induction false} EpochSlicesVisit(total: nat, size: nat, begin: nat, lastEpoch: bool)
    requires size > 0 && begin <= total
    ensures Visits(EpochSlices(total, size, begin, lastEpoch)) == Interval(begin, total)
    decreases total - begin
  {
    if begin < total {
      var end := Min(begin + size, total);
      VisitsCons(Update(begin, end, lastEpoch && end == total), EpochSlices(total, size, begin + size, lastEpoch));
      if begin + size <= total {
        EpochSlicesVisit(total, size, begin + size, lastEpoch);
        IntervalConcat(begin, begin + size, total);
      } else {
        assert EpochSlices(total, size, begin + size, lastEpoch) == [];
      }
    }
  }

  lemma {:induction false} EpochSlicesCover(total: nat, size: nat, begin: nat, lastEpoch: bool)
    requires size > 0 && begin <= total
    ensures var r := EpochSlices(total, size, begin, lastEpoch);
            && Visits(r) == Interval(begin, total)
            && (forall i :: 0 <= i < |r| ==>
               begin <= r[i].begin < r[i].end <= total && (r[i].last <==> lastEpoch && i == |r| - 1))
    decreases total - begin
  {
    EpochSlicesVisit(total, size, begin, lastEpoch);
    if begin + size < total {
      EpochSlicesCover(total, size, begin + size, lastEpoch);
      assert EpochSlices(total, size, begin + size, lastEpoch) != [];
    } else if begin < total {
      assert EpochSlices(total, size, begin + size, lastEpoch) == [];
    }
  }

  lemma {:induction false} EpochSlicesCount(total: nat, size: nat, begin: nat, lastEpoch: bool)
    requires size > 0 && begin < total
    ensures |EpochSlices(total, size, begin, lastEpoch)| == CeilDiv(total - begin, size)
    decreases total - begin
  {
    if begin + size < total {
      EpochSlicesCount(total, size, begin + size, lastEpoch);
      CeilStep(total - begin - size, size);
    } else {
      SmallCeil(total - begin, size);
    }
  }

  lemma TailNonEmpty(total: nat, size: nat, epochs: nat, epoch: nat)
    requires size > 0 && total > 0 && epoch < epochs
    ensures ReplaySlices(total, size, epochs, epoch) != []
  {
    assert EpochSlices(total, size, 0, epoch + 1 == epochs) != [];
  }

  lemma {:induction false} ReplayCovers(total: nat, size: nat, epochs: nat, epoch: nat)
    requires size > 0 && total > 0 && epoch <= epochs
    ensures var r := ReplaySlices(total, size, epochs, epoch);
            && Visits(r) == Repeat(total, epochs - epoch)
            && |r| == (epochs - epoch) * CeilDiv(total, size)
            && (forall i :: 0 <= i < |r| ==> r[i].begin < r[i].end <= total && (r[i].last <==> i == |r| - 1))
    decreases epochs - epoch
  {
    if epoch < epochs {
      var head := EpochSlices(total, size, 0, epoch + 1 == epochs);
      var tail := ReplaySlices(total, size, epochs, epoch + 1);
      EpochSlicesCover(total, size, 0, epoch + 1 == epochs);
      EpochSlicesCount(total, size, 0, epoch + 1 == epochs);
      ReplayCovers(total, size, epochs, epoch + 1);
      VisitsConcat(head, tail);
      MulStep(epochs - epoch - 1, CeilDiv(total, size));
      if epoch + 1 < epochs {
        TailNonEmpty(total, size, epochs, epoch + 1);
      }
    }
  }

  /** Each learner epoch visits every window position once, in order; only the last update is final. */
  lemma ReplayVisitsEachOnce(total: int, updateEpochs: int, minibatch: int)
    requires total > 0 && updateEpochs > 0 && minibatch >= 0
    ensures var r := LearnerUpdateSlices(total, updateEpochs, minibatch).value;
            && Visits(r) == Repeat(total, updateEpochs)
            && r != []
            && |r| == updateEpochs * CeilDiv(total, if minibatch != 0 then minibatch else total)
            && (forall i :: 0 <= i < |r| ==> r[i].begin < r[i].end <= total && (r[i].last <==> i == |r| - 1))
  {
    ReplayCovers(total, if minibatch != 0 then minibatch else total, updateEpochs, 0);
    TailNonEmpty(total, if minibatch != 0 then minibatch else total, updateEpochs, 0);
  }

  /** How often a window is replayed, and in which pieces: offline once and whole. */
  datatype Replay = Replay(online: bool, updateEpochs: nat, minibatch: nat) {
    function Passes(): nat {
      if online then updateEpochs else 1
    }

    function Slice(): nat {
      if online then minibatch else 0
    }
  }

  /** Commits of one epoch, from unpadded windows. */
  function GlobalEpochSteps(datasetLen: int, startOffset: int, globalBatch: int, tailPolicy: TailPolicy,
                            online: bool, updateEpochs: int, minibatch: int): int
    requires globalBatch > 0 && minibatch >= 0
  {
    var full := (datasetLen - startOffset) / globalBatch;
    var rest := (datasetLen - startOffset) % globalBatch;
    var tail := if tailPolicy == Flush then rest else 0;
    if !online then full + (if tail > 0 then 1 else 0)
    else
      var groupSize := if minibatch != 0 then minibatch else globalBatch;
      updateEpochs * (full * CeilDiv(globalBatch, groupSize) + (if tail != 0 then CeilDiv(tail, groupSize) else 0))
  }
}
