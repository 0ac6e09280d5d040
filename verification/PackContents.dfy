/**
  What packs hold, told against the rows that went in: every pack, cut at its segment lengths, gives
  pieces of the input rows, and over all packs each piece once.
 */
module PackContents {
  import opened Sequences
  import opened Arithmetic
  import opened BestFit
  import opened Packing

  // ---------- The pieces of the input ----------

  /**
    A row's pieces. Split: they join to the row, each as long as the limit but the last. Truncated: the first or the
    last tokens of the row, up to the limit. An empty row has none.
   */
  ghost predicate CutOf(row: Row, pieces: seq<Row>, limit: nat, overflow: string, mode: string) {
    if overflow == "split" then
      && Flatten(pieces) == row
      && forall i :: 0 <= i < |pieces| ==> 0 < |pieces[i]| <= limit && (i < |pieces| - 1 ==> |pieces[i]| == limit)
    else if row == [] then pieces == []
    else
      && |pieces| == 1 && |pieces[0]| == Min(|row|, limit)
      && if mode == "keep_end" then row[|row| - |pieces[0]|..] == pieces[0] else row[..|pieces[0]|] == pieces[0]
  }

  /** The pieces of all rows, row after row. */
  ghost predicate Cuts(rows: seq<Row>, limit: nat, overflow: string, mode: string, pieces: seq<Row>) {
    exists cut: seq<seq<Row>> ::
      && |cut| == |rows| && Flatten(cut) == pieces
      && forall i :: 0 <= i < |rows| ==> CutOf(rows[i], cut[i], limit, overflow, mode)
  }

  lemma {:induction false} SplitRowFull(row: Row, limit: nat)
    requires limit > 0
    ensures forall i :: 0 <= i < |SplitRow(row, limit)| - 1 ==> |SplitRow(row, limit)[i]| == limit
  {
    if |row| > limit { SplitRowFull(row[limit..], limit); }
  }

  lemma RowCut(row: Row, limit: nat, overflow: string, mode: string)
    requires limit > 0
    ensures CutOf(row, ChunkRow(row, limit, overflow, mode), limit, overflow, mode)
  {
    if overflow == "split" {
      SplitRowPieces(row, limit);
      SplitRowFull(row, limit);
    }
  }

  function CutRows(rows: seq<Row>, limit: nat, overflow: string, mode: string): (r: seq<seq<Row>>)
    requires limit > 0
    ensures |r| == |rows| && forall i :: 0 <= i < |r| ==> r[i] == ChunkRow(rows[i], limit, overflow, mode)
  {
    seq(|rows|, i requires 0 <= i < |rows| => ChunkRow(rows[i], limit, overflow, mode))
  }

  lemma {:induction false} CutRowsFlat(rows: seq<Row>, limit: nat, overflow: string, mode: string)
    requires limit > 0
    ensures Flatten(CutRows(rows, limit, overflow, mode)) == ChunkRows(rows, limit, overflow, mode)
  {
    if rows != [] {
      var n := |rows| - 1;
      CutRowsFlat(rows[..n], limit, overflow, mode);
      assert CutRows(rows, limit, overflow, mode)[..n] == CutRows(rows[..n], limit, overflow, mode);
    }
  }

  /** The chunks of some rows are their pieces. */
  lemma ChunksAreCuts(rows: seq<Row>, limit: nat, overflow: string, mode: string)
    requires limit > 0
    ensures Cuts(rows, limit, overflow, mode, ChunkRows(rows, limit, overflow, mode))
  {
    var cut := CutRows(rows, limit, overflow, mode);
    CutRowsFlat(rows, limit, overflow, mode);
    forall i | 0 <= i < |rows|
      ensures CutOf(rows[i], cut[i], limit, overflow, mode)
    {
      RowCut(rows[i], limit, overflow, mode);
    }
  }

  // ---------- The segments of the packs ----------

  /** A pack cut at its segment lengths, the last segment first. */
  function Segments(pack: Row, lengths: Row): seq<Row>
    decreases |lengths|
  {
    if lengths == [] then []
    else
      var k := |pack| - lengths[|lengths| - 1];
      if 0 <= k <= |pack| then Segments(pack[..k], lengths[..|lengths| - 1]) + [pack[k..]] else []
  }

  /** The segments of all packs, pack after pack. */
  function AllSegments(packs: seq<Row>, lengths: seq<Row>): seq<Row>
    requires |packs| == |lengths|
  {
    if packs == [] then []
    else
      var n := |packs| - 1;
      AllSegments(packs[..n], lengths[..n]) + Segments(packs[n], lengths[n])
  }

  lemma {:induction false} SegmentsOfBin(chunks: seq<Row>, lengths: seq<int>, bin: seq<nat>)
    requires lengths == Lengths(chunks) && forall k :: 0 <= k < |bin| ==> bin[k] < |chunks|
    ensures Segments(Flatten(Gather(chunks, bin)), Gather(lengths, bin)) == Gather(chunks, bin)
  {
    if bin != [] {
      var n := |bin| - 1;
      var front, last := Flatten(Gather(chunks, bin[..n])), chunks[bin[n]];
      SegmentsOfBin(chunks, lengths, bin[..n]);
      assert Gather(chunks, bin)[..n] == Gather(chunks, bin[..n]);
      assert Gather(lengths, bin)[..n] == Gather(lengths, bin[..n]);
      assert Flatten(Gather(chunks, bin)) == front + last;
      assert (front + last)[..|front|] == front && (front + last)[|front|..] == last;
    }
  }

  /** All indices of a plan, bin after bin. */
  function Order(bins: seq<seq<nat>>): seq<nat> {
    Flatten<nat>(bins)
  }

  lemma FlatInRange(bins: seq<seq<nat>>, n: nat)
    requires InRange(bins, n)
    ensures forall k :: 0 <= k < |Order(bins)| ==> Order(bins)[k] < n
  {
    forall k | 0 <= k < |Order(bins)|
      ensures Order(bins)[k] < n
    {
      FlattenMember(bins, Order(bins)[k]);
      var b :| 0 <= b < |bins| && Order(bins)[k] in bins[b];
      var j :| 0 <= j < |bins[b]| && bins[b][j] == Order(bins)[k];
    }
  }

  lemma OneBinMore(chunks: seq<Row>, lengths: seq<int>, bins: seq<seq<nat>>)
    requires |lengths| == |chunks| && InRange(bins, |chunks|) && bins != []
    ensures var n := |bins| - 1;
            && Assemble(chunks, bins) == Assemble(chunks, bins[..n]) + [Flatten(Gather(chunks, bins[n]))]
            && SegmentLengths(lengths, bins) == SegmentLengths(lengths, bins[..n]) + [Gather(lengths, bins[n])]
            && Order(bins) == Order(bins[..n]) + bins[n]
  {
  }

  lemma AllSegmentsNext(packs: seq<Row>, lengths: seq<Row>, pack: Row, more: Row)
    requires |packs| == |lengths|
    ensures AllSegments(packs + [pack], lengths + [more]) == AllSegments(packs, lengths) + Segments(pack, more)
  {
    assert (packs + [pack])[..|packs|] == packs && (lengths + [more])[..|lengths|] == lengths;
  }

  /** The segments of the packs are the chunks, in the order of the plan. */
  lemma {:induction false} SegmentsOfBins(chunks: seq<Row>, lengths: seq<int>, bins: seq<seq<nat>>)
    requires lengths == Lengths(chunks) && InRange(bins, |chunks|)
    ensures forall k :: 0 <= k < |Order(bins)| ==> Order(bins)[k] < |chunks|
    ensures AllSegments(Assemble(chunks, bins), SegmentLengths(lengths, bins)) == Gather(chunks, Order(bins))
    ensures Flatten(Assemble(chunks, bins)) == Flatten(Gather(chunks, Order(bins)))
  {
    FlatInRange(bins, |chunks|);
    if bins != [] {
      var n := |bins| - 1;
      SegmentsOfBins(chunks, lengths, bins[..n]);
      SegmentsOfBin(chunks, lengths, bins[n]);
      OneBinMore(chunks, lengths, bins);
      AllSegmentsNext(Assemble(chunks, bins[..n]), SegmentLengths(lengths, bins[..n]), Flatten(Gather(chunks, bins[n])),
        Gather(lengths, bins[n]));
      FlattenPush(Assemble(chunks, bins[..n]), Flatten(Gather(chunks, bins[n])));
      GatherConcat(chunks, Order(bins[..n]), bins[n]);
      FlattenConcat(Gather(chunks, Order(bins[..n])), Gather(chunks, bins[n]));
    }
  }

  // ---------- End to end ----------

  /** These segments are the pieces of these rows, each once, in this order. */
  ghost predicate HoldsPieces(rows: seq<Row>, limit: nat, overflow: string, mode: string, segments: seq<Row>,
        order: seq<nat>)
  {
    exists pieces ::
      && Cuts(rows, limit, overflow, mode, pieces) && Arrangement(order, |pieces|) && segments == Gather(pieces, order)
  }

  /** These packs, cut at these lengths, hold the pieces of these rows and nothing else. */
  ghost predicate PacksOf(rows: seq<Row>, limit: nat, overflow: string, mode: string, packs: seq<Row>,
        lengths: seq<Row>, order: seq<nat>)
  {
    && |packs| == |lengths|
    && HoldsPieces(rows, limit, overflow, mode, AllSegments(packs, lengths), order)
    && Flatten(AllSegments(packs, lengths)) == Flatten(packs)
  }

  lemma FieldHolds(rows: seq<Row>, chunks: seq<Row>, lengths: seq<int>, bins: seq<seq<nat>>, limit: nat,
        overflow: string, mode: string)
    requires Cuts(rows, limit, overflow, mode, chunks) && lengths == Lengths(chunks)
    requires InRange(bins, |chunks|) && Partition(bins, |chunks|)
    ensures PacksOf(rows, limit, overflow, mode, Assemble(chunks, bins), SegmentLengths(lengths, bins), Order(bins))
  {
    SegmentsOfBins(chunks, lengths, bins);
    assert Arrangement(Order(bins), |chunks|);
  }

  lemma FieldCuts(keys: Fields, name: string, limit: nat, overflow: string, mode: string)
    requires limit > 0 && name in keys && name != "position_ids"
    ensures Cuts(keys[name], limit, overflow, mode, FieldChunks(keys, name, limit, overflow, mode))
  {
    ChunksAreCuts(keys[name], limit, overflow, mode);
    var chunks := ChunkRows(keys[name], limit, overflow, mode);
    assert RenumberAll(name, chunks) == chunks;
  }

  /** The chunks behind the packs of an accepted call, and the plan they follow. */
  ghost predicate PlannedAs(keys: Fields, maxSeqLen: int, maxPackedLen: int, overflow: string, packing: string,
        mode: string, lengths: seq<int>, bins: seq<seq<nat>>)
    requires maxSeqLen > 0 && maxPackedLen > 0 && "sequence" in keys
  {
    && lengths == Lengths(FieldChunks(keys, "sequence", Limit(maxSeqLen, maxPackedLen), overflow, mode))
    && bins == BinPlan(lengths, maxPackedLen, packing)
  }

  lemma PackedAre(keys: Fields, maxSeqLen: int, maxPackedLen: int, overflow: string, packing: string, mode: string,
        lengths: seq<int>, bins: seq<seq<nat>>, name: string)
    requires !BadArguments(keys, maxSeqLen, maxPackedLen, overflow, packing, mode) && "sequence" in keys && name in keys
    requires PlannedAs(keys, maxSeqLen, maxPackedLen, overflow, packing, mode, lengths, bins)
    ensures InRange(bins, |lengths|) && Partition(bins, |lengths|)
    ensures var packed := Packed(keys, maxSeqLen, maxPackedLen, overflow, packing, mode);
            var chunks := FieldChunks(keys, name, Limit(maxSeqLen, maxPackedLen), overflow, mode);
            && |chunks| == |lengths| && Lengths(chunks) == lengths
            && name in packed && "seq_lengths" in packed
            && packed[name] == Assemble(chunks, bins) && packed["seq_lengths"] == SegmentLengths(lengths, bins)
  {
    PackReady(keys, maxSeqLen, maxPackedLen, overflow, packing, mode);
    BinPlanIsPacking(lengths, maxPackedLen, packing);
  }

  lemma PackedFieldHolds(keys: Fields, maxSeqLen: int, maxPackedLen: int, overflow: string, packing: string,
        mode: string, lengths: seq<int>, bins: seq<seq<nat>>, name: string)
    requires !BadArguments(keys, maxSeqLen, maxPackedLen, overflow, packing, mode) && "sequence" in keys
    requires name in keys && name != "position_ids"
    requires PlannedAs(keys, maxSeqLen, maxPackedLen, overflow, packing, mode, lengths, bins)
    ensures var packed := Packed(keys, maxSeqLen, maxPackedLen, overflow, packing, mode);
            && name in packed && "seq_lengths" in packed
            && PacksOf(keys[name], Limit(maxSeqLen, maxPackedLen), overflow, mode, packed[name], packed["seq_lengths"],
                       Order(bins))
  {
    var limit := Limit(maxSeqLen, maxPackedLen);
    PackedAre(keys, maxSeqLen, maxPackedLen, overflow, packing, mode, lengths, bins, name);
    FieldCuts(keys, name, limit, overflow, mode);
    FieldHolds(keys[name], FieldChunks(keys, name, limit, overflow, mode), lengths, bins, limit, overflow, mode);
  }

  /**
    The packs hold the input and nothing else: in one order for all fields, the segments of each field are the pieces
    of its rows, cut to the smaller of the two lengths. Only position ids are numbered anew.
   */
  lemma PacksHoldInput(keys: Fields, maxSeqLen: int, maxPackedLen: int, overflow: string, packing: string,
        mode: string) returns (order: seq<nat>)
    requires !BadArguments(keys, maxSeqLen, maxPackedLen, overflow, packing, mode) && "sequence" in keys
    ensures var packed := Packed(keys, maxSeqLen, maxPackedLen, overflow, packing, mode);
            && "seq_lengths" in packed
            && forall name :: name in keys && name != "position_ids" ==>
                 && name in packed
                 && PacksOf(keys[name], Min(maxSeqLen, maxPackedLen), overflow, mode, packed[name],
                            packed["seq_lengths"], order)
  {
    var lengths := Lengths(FieldChunks(keys, "sequence", Limit(maxSeqLen, maxPackedLen), overflow, mode));
    var bins := BinPlan(lengths, maxPackedLen, packing);
    order := Order(bins);
    PackedAre(keys, maxSeqLen, maxPackedLen, overflow, packing, mode, lengths, bins, "sequence");
    ghost var packed := Packed(keys, maxSeqLen, maxPackedLen, overflow, packing, mode);
    forall name | name in keys && name != "position_ids"
      ensures name in packed && PacksOf(keys[name], Min(maxSeqLen, maxPackedLen), overflow, mode, packed[name],
                                        packed["seq_lengths"], order)
    {
      PackedFieldHolds(keys, maxSeqLen, maxPackedLen, overflow, packing, mode, lengths, bins, name);
    }
  }

  /** No segment of a pack is empty, or longer than a sequence may be. */
  lemma SegmentsFit(keys: Fields, maxSeqLen: int, maxPackedLen: int, overflow: string, packing: string, mode: string,
        b: nat, k: nat)
    requires !BadArguments(keys, maxSeqLen, maxPackedLen, overflow, packing, mode) && "sequence" in keys
    requires b < |Packed(keys, maxSeqLen, maxPackedLen, overflow, packing, mode)["seq_lengths"]|
    requires k < |Packed(keys, maxSeqLen, maxPackedLen, overflow, packing, mode)["seq_lengths"][b]|
    ensures 0 < Packed(keys, maxSeqLen, maxPackedLen, overflow, packing, mode)["seq_lengths"][b][k] <= maxSeqLen
  {
    var chunks := FieldChunks(keys, "sequence", Limit(maxSeqLen, maxPackedLen), overflow, mode);
    var bins := BinPlan(Lengths(chunks), maxPackedLen, packing);
    PackedAre(keys, maxSeqLen, maxPackedLen, overflow, packing, mode, Lengths(chunks), bins, "sequence");
    ChunkRowsPieces(keys["sequence"], Limit(maxSeqLen, maxPackedLen), overflow, mode);
    assert 0 < |chunks[bins[b][k]]| <= maxSeqLen;
  }
}
