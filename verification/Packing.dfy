/**
  Overflow handling and pack assembly: every token-aligned field is cut at the
  same places and follows the same bin plan.
 */
module Packing {
  import opened Sequences
  import opened BestFit
  import opened Planner

  type Row = seq<int>

  type Fields = map<string, seq<Row>>

  function Lengths(rows: seq<Row>): (r: seq<int>)
    ensures |r| == |rows| && forall i :: 0 <= i < |rows| ==> r[i] == |rows[i]|
  {
    seq(|rows|, i requires 0 <= i < |rows| => |rows[i]|)
  }

  // ---------- Cutting rows into chunks ----------

  /** Consecutive pieces of `limit` tokens, the last one possibly shorter. */
  function SplitRow(row: Row, limit: nat): seq<Row>
    requires limit > 0
  {
    if row == [] then []
    else if |row| <= limit then [row]
    else [row[..limit]] + SplitRow(row[limit..], limit)
  }

  function ChunkRow(row: Row, limit: nat, overflow: string, mode: string): seq<Row>
    requires limit > 0
  {
    if row == [] then []
    else if overflow == "split" then SplitRow(row, limit)
    else if |row| <= limit then [row]
    else if mode == "keep_end" then [row[|row| - limit..]]
    else [row[..limit]]
  }

  function ChunkRows(rows: seq<Row>, limit: nat, overflow: string, mode: string): seq<Row>
    requires limit > 0
  {
    if rows == [] then []
    else ChunkRows(rows[..|rows| - 1], limit, overflow, mode) + ChunkRow(rows[|rows| - 1], limit, overflow, mode)
  }

  /** A chunk of the position field is renumbered from zero. */
  function Renumber(name: string, chunk: Row): (r: Row)
    ensures |r| == |chunk|
  {
    if name == "position_ids" then seq(|chunk|, i => i) else chunk
  }

  function RenumberAll(name: string, chunks: seq<Row>): (r: seq<Row>)
    ensures |r| == |chunks| && forall i :: 0 <= i < |r| ==> r[i] == Renumber(name, chunks[i])
  {
    seq(|chunks|, i requires 0 <= i < |chunks| => Renumber(name, chunks[i]))
  }

  lemma {:induction false} SplitRowPieces(row: Row, limit: nat)
    requires limit > 0
    ensures Flatten(SplitRow(row, limit)) == row
    ensures forall i :: 0 <= i < |SplitRow(row, limit)| ==> 0 < |SplitRow(row, limit)[i]| <= limit
  {
    if row == [] {
    } else if |row| <= limit {
      FlattenOne(row);
    } else {
      SplitRowPieces(row[limit..], limit);
      FlattenCons(row[..limit], SplitRow(row[limit..], limit));
      assert row == row[..limit] + row[limit..];
    }
  }

  lemma {:induction false} ChunkRowsPieces(rows: seq<Row>, limit: nat, overflow: string, mode: string)
    requires limit > 0
    ensures forall i :: 0 <= i < |ChunkRows(rows, limit, overflow, mode)|
                        ==> 0 < |ChunkRows(rows, limit, overflow, mode)[i]| <= limit
  {
    if rows != [] {
      ChunkRowsPieces(rows[..|rows| - 1], limit, overflow, mode);
      SplitRowPieces(rows[|rows| - 1], limit);
    }
  }

  /** Split mode loses nothing: the chunks spell out the input rows. */
  lemma {:induction false} SplitReassembles(rows: seq<Row>, limit: nat, mode: string)
    requires limit > 0
    ensures Flatten(ChunkRows(rows, limit, "split", mode)) == Flatten(rows)
  {
    if rows != [] {
      var n := |rows| - 1;
      SplitReassembles(rows[..n], limit, mode);
      SplitRowPieces(rows[n], limit);
      FlattenConcat(ChunkRows(rows[..n], limit, "split", mode), ChunkRow(rows[n], limit, "split", mode));
    }
  }

  lemma {:induction false} SplitAligned(a: Row, b: Row, limit: nat)
    requires limit > 0 && |a| == |b|
    ensures Lengths(SplitRow(a, limit)) == Lengths(SplitRow(b, limit))
    decreases |a|
  {
    if |a| > limit { SplitAligned(a[limit..], b[limit..], limit); }
  }

  predicate Aligned(a: seq<Row>, b: seq<Row>) {
    |a| == |b| && forall i :: 0 <= i < |a| ==> |a[i]| == |b[i]|
  }

  lemma LengthsConcat(a: seq<Row>, b: seq<Row>)
    ensures Lengths(a + b) == Lengths(a) + Lengths(b)
  {
  }

  lemma {:induction false} ChunksAligned(a: seq<Row>, b: seq<Row>, limit: nat, overflow: string, mode: string)
    requires limit > 0 && Aligned(a, b)
    ensures Lengths(ChunkRows(a, limit, overflow, mode)) == Lengths(ChunkRows(b, limit, overflow, mode))
  {
    if a != [] {
      var n := |a| - 1;
      ChunksAligned(a[..n], b[..n], limit, overflow, mode);
      SplitAligned(a[n], b[n], limit);
      assert |a[n]| == |b[n]|;
      assert Lengths(ChunkRow(a[n], limit, overflow, mode)) == Lengths(ChunkRow(b[n], limit, overflow, mode));
      LengthsConcat(ChunkRows(a[..n], limit, overflow, mode), ChunkRow(a[n], limit, overflow, mode));
      LengthsConcat(ChunkRows(b[..n], limit, overflow, mode), ChunkRow(b[n], limit, overflow, mode));
    }
  }

  /** The chunks of one field. */
  function FieldChunks(keys: Fields, name: string, limit: nat, overflow: string, mode: string): seq<Row>
    requires limit > 0 && name in keys
  {
    RenumberAll(name, ChunkRows(keys[name], limit, overflow, mode))
  }

  // ---------- Assembling packs ----------

  function Singletons(n: nat): (r: seq<seq<nat>>)
    ensures |r| == n && forall i :: 0 <= i < n ==> r[i] == [i]
  {
    seq(n, i requires 0 <= i < n => [i])
  }

  function BinPlan(lengths: seq<int>, capacity: int, packing: string): seq<seq<nat>> {
    if packing == "bfd" then Plan(lengths, capacity) else Singletons(|lengths|)
  }

  ghost predicate InRange(bins: seq<seq<nat>>, n: nat) {
    forall b, k :: 0 <= b < |bins| && 0 <= k < |bins[b]| ==> bins[b][k] < n
  }

  function Assemble(chunks: seq<Row>, bins: seq<seq<nat>>): (r: seq<Row>)
    requires InRange(bins, |chunks|)
    ensures |r| == |bins| && forall b :: 0 <= b < |r| ==> r[b] == Flatten(Gather(chunks, bins[b]))
  {
    seq(|bins|, b requires 0 <= b < |bins| => Flatten(Gather(chunks, bins[b])))
  }

  function SegmentLengths(lengths: seq<int>, bins: seq<seq<nat>>): (r: seq<Row>)
    requires InRange(bins, |lengths|)
    ensures |r| == |bins| && forall b :: 0 <= b < |r| ==> r[b] == Gather(lengths, bins[b])
  {
    seq(|bins|, b requires 0 <= b < |bins| => Gather(lengths, bins[b]))
  }

  ghost predicate BadArguments(keys: Fields, maxSeqLen: int, maxPackedLen: int, overflow: string, packing: string,
        mode: string) {
    || overflow !in {"truncate", "split"}
    || packing !in {"bfd", "none"}
    || mode !in {"keep_start", "keep_end"}
    || maxSeqLen <= 0 || maxPackedLen <= 0
    || ("sequence" in keys
        && ("seq_lengths" in keys || exists name :: name in keys && !Aligned(keys[name], keys["sequence"])))
  }

  lemma {:induction false} SingletonsPartition(n: nat)
    ensures Flatten(Singletons(n)) == Range(n)
  {
    if n > 0 {
      SingletonsPartition(n - 1);
      assert Singletons(n)[..n - 1] == Singletons(n - 1);
      assert Range(n) == Range(n - 1) + [n - 1];
    }
  }

  /** Both planners pack every chunk exactly once and within the capacity. */
  lemma BinPlanIsPacking(lengths: seq<int>, capacity: int, packing: string)
    requires ValidLengths(lengths, capacity)
    ensures Packing(BinPlan(lengths, capacity, packing), lengths, capacity)
    ensures InRange(BinPlan(lengths, capacity, packing), |lengths|)
    ensures forall b :: 0 <= b < |BinPlan(lengths, capacity, packing)| ==> BinPlan(lengths, capacity, packing)[b] != []
  {
    var bins := BinPlan(lengths, capacity, packing);
    if packing == "bfd" {
      PlanIsPacking(lengths, capacity);
    } else {
      SingletonsPartition(|lengths|);
      forall b | 0 <= b < |bins|
        ensures Load(bins[b], lengths) <= capacity
      {
        LoadSingle(b, lengths);
      }
    }
    forall b, k | 0 <= b < |bins| && 0 <= k < |bins[b]|
      ensures bins[b][k] < |lengths|
    {
      MembersInRange(bins, |lengths|, b, k);
    }
  }

  function AssembleFields(chunks: Fields, lengths: seq<int>, bins: seq<seq<nat>>): (r: Fields)
    requires InRange(bins, |lengths|) && forall name :: name in chunks ==> |chunks[name]| == |lengths|
    ensures r.Keys == chunks.Keys + {"seq_lengths"}
    ensures r["seq_lengths"] == SegmentLengths(lengths, bins)
    ensures forall name :: name in chunks && name != "seq_lengths" ==> r[name] == Assemble(chunks[name], bins)
  {
    (map name | name in chunks :: Assemble(chunks[name], bins))["seq_lengths" := SegmentLengths(lengths, bins)]
  }

  function AllChunks(keys: Fields, limit: nat, overflow: string, mode: string): (r: Fields)
    requires limit > 0
    ensures r.Keys == keys.Keys
  {
    map name | name in keys :: FieldChunks(keys, name, limit, overflow, mode)
  }

  /** The smaller of the two lengths. */
  function Limit(maxSeqLen: int, maxPackedLen: int): (r: int)
    ensures r <= maxSeqLen && r <= maxPackedLen && (r == maxSeqLen || r == maxPackedLen)
  {
    if maxSeqLen < maxPackedLen then maxSeqLen else maxPackedLen
  }

  ghost predicate SameShape(keys: Fields) {
    "sequence" in keys && forall name :: name in keys ==> Aligned(keys[name], keys["sequence"])
  }

  lemma FieldAligned(keys: Fields, name: string, limit: nat, overflow: string, mode: string)
    requires limit > 0 && "sequence" in keys && name in keys && Aligned(keys[name], keys["sequence"])
    ensures Lengths(FieldChunks(keys, name, limit, overflow, mode))
        == Lengths(FieldChunks(keys, "sequence", limit, overflow, mode))
    ensures |FieldChunks(keys, name, limit, overflow, mode)| == |FieldChunks(keys, "sequence", limit, overflow, mode)|
  {
    var a := ChunkRows(keys[name], limit, overflow, mode);
    var b := ChunkRows(keys["sequence"], limit, overflow, mode);
    ChunksAligned(keys[name], keys["sequence"], limit, overflow, mode);
    assert Lengths(RenumberAll(name, a)) == Lengths(a);
    assert Lengths(RenumberAll("sequence", b)) == Lengths(b);
  }

  lemma PackReady(keys: Fields, maxSeqLen: int, maxPackedLen: int, overflow: string, packing: string, mode: string)
    requires SameShape(keys) && maxSeqLen > 0 && maxPackedLen > 0
    ensures var chunks := AllChunks(keys, Limit(maxSeqLen, maxPackedLen), overflow, mode);
            var lengths := Lengths(chunks["sequence"]);
            && ValidLengths(lengths, maxPackedLen)
            && InRange(BinPlan(lengths, maxPackedLen, packing), |lengths|)
            && forall name :: name in chunks ==> |chunks[name]| == |lengths| && Lengths(chunks[name]) == lengths
  {
    var limit := Limit(maxSeqLen, maxPackedLen);
    var chunks := AllChunks(keys, limit, overflow, mode);
    ChunkRowsPieces(keys["sequence"], limit, overflow, mode);
    assert ValidLengths(Lengths(chunks["sequence"]), maxPackedLen);
    BinPlanIsPacking(Lengths(chunks["sequence"]), maxPackedLen, packing);
    forall name | name in chunks
      ensures Lengths(chunks[name]) == Lengths(chunks["sequence"])
    {
      FieldAligned(keys, name, limit, overflow, mode);
    }
  }

  /** The packs of an accepted call, field by field, with their segment lengths. */
  ghost function Packed(keys: Fields, maxSeqLen: int, maxPackedLen: int, overflow: string, packing: string,
        mode: string): Fields
    requires !BadArguments(keys, maxSeqLen, maxPackedLen, overflow, packing, mode) && "sequence" in keys
  {
    var chunks := AllChunks(keys, Limit(maxSeqLen, maxPackedLen), overflow, mode);
    var lengths := Lengths(chunks["sequence"]);
    PackReady(keys, maxSeqLen, maxPackedLen, overflow, packing, mode);
    AssembleFields(chunks, lengths, BinPlan(lengths, maxPackedLen, packing))
  }

  /** Python's row[start : start + limit]. */
  function Slice(row: Row, start: nat, limit: nat): Row
    requires start <= |row|
  {
    if start + limit <= |row| then row[start..start + limit] else row[start..]
  }

  /** Append the same slice of every field's row to that field's chunks. */
  function AppendSlices(chunks: Fields, keys: Fields, index: nat, start: nat, limit: nat): (r: Fields)
    requires chunks.Keys == keys.Keys
    requires forall name :: name in keys ==> index < |keys[name]| && start <= |keys[name][index]|
    ensures r.Keys == keys.Keys
    ensures forall name :: name in keys ==>
              var row := keys[name][index];
              r[name] == chunks[name] + [Renumber(name, Slice(row, start, limit))]
  {
    map name | name in keys ::
      var row := keys[name][index];
      chunks[name] + [Renumber(name, Slice(row, start, limit))]
  }

  function From(row: Row, start: nat): Row {
    if start <= |row| then row[start..] else []
  }

  /** The pieces of `rest` still to come complete the pieces of the whole row. */
  ghost predicate SplitProgress(keys: Fields, index: nat, limit: nat, start: nat, done: Fields, chunks: Fields)
    requires limit > 0
  {
    && chunks.Keys == keys.Keys == done.Keys
    && forall name :: name in keys && index < |keys[name]| ==>
         chunks[name] + RenumberAll(name, SplitRow(From(keys[name][index], start), limit))
         == done[name] + RenumberAll(name, SplitRow(keys[name][index], limit))
  }

  lemma SplitStep(name: string, row: Row, start: nat, limit: nat)
    requires limit > 0 && start < |row|
    ensures RenumberAll(name, SplitRow(row[start..], limit))
            == [Renumber(name, Slice(row, start, limit))]
               + RenumberAll(name, SplitRow(From(row, start + limit), limit))
  {
    if start + limit < |row| {
      assert row[start..][..limit] == row[start..start + limit];
      assert row[start..][limit..] == row[start + limit..];
    } else if start + limit == |row| {
      assert row[start..start + limit] == row[start..];
      assert row[start + limit..] == [];
    }
  }

  lemma JoinLeft<T>(a: seq<T>, x: T, b: seq<T>)
    ensures a + [x] + b == a + ([x] + b)
  {
  }

  lemma {:induction false} SplitAdvanceField(name: string, row: Row, start: nat, limit: nat, done: seq<Row>,
        chunks: seq<Row>)
    requires limit > 0 && start < |row|
    requires chunks + RenumberAll(name, SplitRow(From(row, start), limit))
          == done + RenumberAll(name, SplitRow(row, limit))
    ensures chunks + [Renumber(name, Slice(row, start, limit))]
            + RenumberAll(name, SplitRow(From(row, start + limit), limit))
         == done + RenumberAll(name, SplitRow(row, limit))
  {
    SplitStep(name, row, start, limit);
    JoinLeft(chunks, Renumber(name, Slice(row, start, limit)),
      RenumberAll(name, SplitRow(From(row, start + limit), limit)));
  }

  lemma {:induction false} SplitAdvance(keys: Fields, index: nat, limit: nat, start: nat, done: Fields, chunks: Fields)
    requires limit > 0 && SplitProgress(keys, index, limit, start, done, chunks)
    requires forall name :: name in keys ==> index < |keys[name]| && start < |keys[name][index]|
    ensures SplitProgress(keys, index, limit, start + limit, done, AppendSlices(chunks, keys, index, start, limit))
  {
    var next := AppendSlices(chunks, keys, index, start, limit);
    forall name | name in keys
      ensures next[name] + RenumberAll(name, SplitRow(From(keys[name][index], start + limit), limit))
              == done[name] + RenumberAll(name, SplitRow(keys[name][index], limit))
    {
      SplitAdvanceField(name, keys[name][index], start, limit, done[name], chunks[name]);
    }
  }

  lemma SameRow(keys: Fields, index: nat)
    requires SameShape(keys) && index < |keys["sequence"]|
    ensures forall name :: name in keys ==>
        |keys[name]| == |keys["sequence"]| && |keys[name][index]| == |keys["sequence"][index]|
  {
  }

  lemma SplitBegin(keys: Fields, index: nat, limit: nat, chunks: Fields)
    requires limit > 0 && chunks.Keys == keys.Keys
    ensures SplitProgress(keys, index, limit, 0, chunks, chunks)
  {
    forall name | name in keys && index < |keys[name]|
      ensures From(keys[name][index], 0) == keys[name][index]
    {
    }
  }

  lemma SplitDone(keys: Fields, index: nat, limit: nat, start: nat, done: Fields, chunks: Fields)
    requires limit > 0 && SplitProgress(keys, index, limit, start, done, chunks)
    requires forall name :: name in keys ==> index < |keys[name]| && |keys[name][index]| <= start
    ensures forall name :: name in keys ==>
        chunks[name] == done[name] + RenumberAll(name, SplitRow(keys[name][index], limit))
  {
    forall name | name in keys
      ensures chunks[name] == done[name] + RenumberAll(name, SplitRow(keys[name][index], limit))
    {
      assert From(keys[name][index], start) == [];
    }
  }

  /** Cut row `index` of every field and append the pieces. */
  method SplitIndex(keys: Fields, index: nat, limit: nat, chunks: Fields) returns (r: Fields)
    requires SameShape(keys) && limit > 0 && index < |keys["sequence"]| && chunks.Keys == keys.Keys
    ensures r.Keys == keys.Keys
    ensures forall name :: name in keys ==> index < |keys[name]|
    ensures forall name :: name in keys ==>
        r[name] == chunks[name] + RenumberAll(name, SplitRow(keys[name][index], limit))
  {
    SameRow(keys, index);
    var size := |keys["sequence"][index]|;
    r := chunks;
    var start := 0;
    SplitBegin(keys, index, limit, chunks);
    while start < size
      invariant 0 <= start && SplitProgress(keys, index, limit, start, chunks, r)
      decreases size - start
    {
      SplitAdvance(keys, index, limit, start, chunks, r);
      r := AppendSlices(r, keys, index, start, limit);
      start := start + limit;
    }
    SplitDone(keys, index, limit, start, chunks, r);
  }

  lemma TruncateStep(row: Row, limit: nat, mode: string)
    requires limit > 0 && row != []
    ensures var start := if mode == "keep_end" && |row| > limit then |row| - limit else 0;
            [Slice(row, start, limit)] == ChunkRow(row, limit, "truncate", mode)
  {
    if |row| <= limit {
      assert row[0..] == row;
      assert row[0..|row|] == row;
    } else if mode == "keep_end" {
      assert row[|row| - limit..|row|] == row[|row| - limit..];
    } else {
      assert row[0..limit] == row[..limit];
    }
  }

  method ChunkIndex(keys: Fields, index: nat, limit: nat, overflow: string, mode: string, chunks: Fields)
    returns (r: Fields)
    requires SameShape(keys) && limit > 0 && index < |keys["sequence"]| && chunks.Keys == keys.Keys
    ensures r.Keys == keys.Keys
    ensures forall name :: name in keys ==>
              r[name] == chunks[name] + RenumberAll(name, ChunkRow(keys[name][index], limit, overflow, mode))
  {
    var row := keys["sequence"][index];
    assert forall name :: name in keys ==> |keys[name]| == |keys["sequence"]| && |keys[name][index]| == |row|;
    if row == [] {
      r := chunks;
    } else if overflow == "split" {
      r := SplitIndex(keys, index, limit, chunks);
    } else {
      var start := if mode == "keep_end" && |row| > limit then |row| - limit else 0;
      r := AppendSlices(chunks, keys, index, start, limit);
      forall name | name in keys
        ensures r[name] == chunks[name] + RenumberAll(name, ChunkRow(keys[name][index], limit, overflow, mode))
      {
        TruncateStep(keys[name][index], limit, mode);
      }
    }
  }

  ghost predicate ChunkedUpTo(keys: Fields, n: nat, limit: nat, overflow: string, mode: string, chunks: Fields)
    requires limit > 0
  {
    && chunks.Keys == keys.Keys
    && forall name :: name in keys && n <= |keys[name]| ==>
         chunks[name] == RenumberAll(name, ChunkRows(keys[name][..n], limit, overflow, mode))
  }

  lemma RenumberNext(name: string, rows: seq<Row>, n: nat, limit: nat, overflow: string, mode: string)
    requires limit > 0 && n < |rows|
    ensures RenumberAll(name, ChunkRows(rows[..n + 1], limit, overflow, mode))
            == RenumberAll(name, ChunkRows(rows[..n], limit, overflow, mode))
               + RenumberAll(name, ChunkRow(rows[n], limit, overflow, mode))
  {
    assert rows[..n + 1][..n] == rows[..n];
  }

  lemma ChunkedNext(keys: Fields, n: nat, limit: nat, overflow: string, mode: string, chunks: Fields, next: Fields)
    requires limit > 0 && ChunkedUpTo(keys, n, limit, overflow, mode, chunks) && next.Keys == keys.Keys
    requires forall name :: name in keys ==>
               n < |keys[name]|
                 && next[name] == chunks[name] + RenumberAll(name, ChunkRow(keys[name][n], limit, overflow, mode))
    ensures ChunkedUpTo(keys, n + 1, limit, overflow, mode, next)
  {
    forall name | name in keys
      ensures next[name] == RenumberAll(name, ChunkRows(keys[name][..n + 1], limit, overflow, mode))
    {
      RenumberNext(name, keys[name], n, limit, overflow, mode);
    }
  }

  lemma ChunkedAll(keys: Fields, n: nat, limit: nat, overflow: string, mode: string, chunks: Fields)
    requires limit > 0 && ChunkedUpTo(keys, n, limit, overflow, mode, chunks)
    requires forall name :: name in keys ==> |keys[name]| == n
    ensures chunks == AllChunks(keys, limit, overflow, mode)
  {
    forall name | name in keys
      ensures chunks[name] == RenumberAll(name, ChunkRows(keys[name], limit, overflow, mode))
    {
      assert keys[name][..n] == keys[name];
    }
  }

  lemma SameCounts(keys: Fields)
    requires SameShape(keys)
    ensures forall name :: name in keys ==> |keys[name]| == |keys["sequence"]|
  {
  }

  /** Cut every row of every field. */
  method ChunkFields(keys: Fields, limit: nat, overflow: string, mode: string) returns (chunks: Fields)
    requires SameShape(keys) && limit > 0
    ensures chunks == AllChunks(keys, limit, overflow, mode)
  {
    var sequences := keys["sequence"];
    SameCounts(keys);
    chunks := map name | name in keys :: [];
    for index := 0 to |sequences|
      invariant ChunkedUpTo(keys, index, limit, overflow, mode, chunks)
    {
      var next := ChunkIndex(keys, index, limit, overflow, mode, chunks);
      ChunkedNext(keys, index, limit, overflow, mode, chunks, next);
      chunks := next;
    }
    ChunkedAll(keys, |sequences|, limit, overflow, mode, chunks);
  }

  method PlanBins(lengths: seq<int>, capacity: int, packing: string) returns (bins: seq<seq<nat>>)
    requires ValidLengths(lengths, capacity)
    ensures bins == BinPlan(lengths, capacity, packing)
  {
    if packing == "bfd" {
      var plan := PlanBfd(lengths, capacity);
      bins := plan.value;
    } else {
      bins := Singletons(|lengths|);
    }
  }

  /** Cut, plan and assemble once the arguments have been accepted. */
  method PackAligned(keys: Fields, maxSeqLen: int, maxPackedLen: int, overflow: string, packing: string,
        mode: string) returns (r: Fields)
    requires !BadArguments(keys, maxSeqLen, maxPackedLen, overflow, packing, mode) && "sequence" in keys
    ensures r == Packed(keys, maxSeqLen, maxPackedLen, overflow, packing, mode)
  {
    PackReady(keys, maxSeqLen, maxPackedLen, overflow, packing, mode);
    var chunks := ChunkFields(keys, Limit(maxSeqLen, maxPackedLen), overflow, mode);
    var lengths := Lengths(chunks["sequence"]);
    var bins := PlanBins(lengths, maxPackedLen, packing);
    r := AssembleFields(chunks, lengths, bins);
  }

  method PackSequences(keys: Fields, maxSeqLen: int, maxPackedLen: int, overflow: string, packing: string, mode: string)
    returns (r: Result<Fields>)
    ensures r.Failure? <==> BadArguments(keys, maxSeqLen, maxPackedLen, overflow, packing, mode)
    ensures r.Success? ==>
        r.value == if "sequence" in keys then Packed(keys, maxSeqLen, maxPackedLen, overflow, packing, mode) else keys
  {
    if overflow !in {"truncate", "split"} || packing !in {"bfd", "none"} { return Failure; }
    if mode !in {"keep_start", "keep_end"} { return Failure; }
    var limit := Limit(maxSeqLen, maxPackedLen);
    if limit <= 0 { return Failure; }
    if "sequence" !in keys { return Success(keys); }
    if "seq_lengths" in keys { return Failure; }
    var sequences := keys["sequence"];
    if exists name | name in keys :: !Aligned(keys[name], sequences) {
      return Failure;
    }
    var packed := PackAligned(keys, maxSeqLen, maxPackedLen, overflow, packing, mode);
    return Success(packed);
  }
}
