/**
  The segmented store: token streams and records are found by bisecting cumulative counts,
  and must read like the plain concatenation and the plain list of records.
 */
module Storage {
  import opened Sequences
  import opened Arithmetic

  type Tokens = seq<int>

  // ---------- Cumulative counts and bisection ----------

  /** Total length of the first i segments. */
  function Before<T>(segments: seq<seq<T>>, i: nat): nat
    requires i <= |segments|
  {
    if i == 0 then 0 else Before(segments, i - 1) + |segments[i - 1]|
  }

  function Cumulative<T>(segments: seq<seq<T>>): (r: seq<int>)
    ensures |r| == |segments| && forall i :: 0 <= i < |r| ==> r[i] == Before(segments, i + 1)
  {
    seq(|segments|, i requires 0 <= i < |segments| => Before(segments, i + 1))
  }

  ghost predicate Ascending(a: seq<int>) {
    forall i, j :: 0 <= i <= j < |a| ==> a[i] <= a[j]
  }

  /** Number of leading elements that are at most x, in an ascending list. */
  function BisectRight(a: seq<int>, x: int): (k: nat)
    ensures k <= |a| && (k < |a| ==> a[k] > x) && (k > 0 ==> Ascending(a) ==> a[k - 1] <= x)
  {
    if a == [] then 0 else if a[0] > x then 0 else 1 + BisectRight(a[1..], x)
  }

  /** Number of leading elements below x, in an ascending list. */
  function BisectLeft(a: seq<int>, x: int): (k: nat)
    ensures k <= |a| && (k < |a| ==> a[k] >= x) && (k > 0 ==> Ascending(a) ==> a[k - 1] < x)
  {
    if a == [] then 0 else if a[0] >= x then 0 else 1 + BisectLeft(a[1..], x)
  }

  lemma {:induction false} BeforeMonotone<T>(segments: seq<seq<T>>, i: nat, j: nat)
    requires i <= j <= |segments|
    ensures Before(segments, i) <= Before(segments, j)
  {
    if i < j { BeforeMonotone(segments, i, j - 1); }
  }

  lemma CumulativeAscends<T>(segments: seq<seq<T>>)
    ensures Ascending(Cumulative(segments))
  {
    forall i, j | 0 <= i <= j < |segments|
      ensures Cumulative(segments)[i] <= Cumulative(segments)[j]
    {
      BeforeMonotone(segments, i + 1, j + 1);
    }
  }

  lemma {:induction false} BeforeIsFlat<T>(segments: seq<seq<T>>, i: nat)
    requires i <= |segments|
    ensures Before(segments, i) == |Flatten(segments[..i])| <= |Flatten(segments)|
    ensures Flatten(segments)[..Before(segments, i)] == Flatten(segments[..i])
  {
    assert segments == segments[..i] + segments[i..];
    FlattenConcat(segments[..i], segments[i..]);
    if i > 0 {
      BeforeIsFlat(segments, i - 1);
      assert segments[..i][..i - 1] == segments[..i - 1];
    }
  }

  /** Segment i is the stretch of the concatenation between its neighbours' counts. */
  lemma SegmentAt<T>(segments: seq<seq<T>>, i: nat)
    requires i < |segments|
    ensures Before(segments, i) + |segments[i]| == Before(segments, i + 1) <= |Flatten(segments)|
    ensures Flatten(segments)[Before(segments, i)..Before(segments, i + 1)] == segments[i]
  {
    BeforeIsFlat(segments, i);
    BeforeIsFlat(segments, i + 1);
    assert segments[..i + 1][..i] == segments[..i];
    assert Flatten(segments)[Before(segments, i)..Before(segments, i + 1)]
        == Flatten(segments)[..Before(segments, i + 1)][Before(segments, i)..];
  }

  lemma WholeBefore<T>(segments: seq<seq<T>>)
    ensures Before(segments, |segments|) == |Flatten(segments)|
  {
    BeforeIsFlat(segments, |segments|);
    assert segments[..|segments|] == segments;
  }

  lemma LastCount<T>(segments: seq<seq<T>>)
    ensures segments != [] ==> Cumulative(segments)[|segments| - 1] == |Flatten(segments)|
    ensures segments == [] ==> |Flatten(segments)| == 0
  {
    WholeBefore(segments);
  }

  /** Which segment holds position x, counted from zero. */
  lemma Locate<T>(segments: seq<seq<T>>, x: int)
    requires 0 <= x < |Flatten(segments)|
    ensures var i := BisectRight(Cumulative(segments), x);
            i < |segments| && Before(segments, i) <= x < Before(segments, i + 1)
  {
    CumulativeAscends(segments);
    LastCount(segments);
  }

  lemma LocateEnd<T>(segments: seq<seq<T>>, x: int)
    requires 0 <= x <= |Flatten(segments)| && segments != []
    ensures var i := BisectLeft(Cumulative(segments), x);
            i < |segments| && x <= Before(segments, i + 1) && (i > 0 ==> Before(segments, i) < x)
  {
    CumulativeAscends(segments);
    LastCount(segments);
  }

  // ---------- Stream access ----------

  /** Python's s[from:to] for a non-negative start. */
  function PySlice<T>(s: seq<T>, from: nat, to: int): seq<T> {
    if from < to && from < |s| then s[from..Min(to, |s|)] else []
  }

  /** The part of the concatenation read so far when segments before i are done. */
  function ReadUpto(segments: seq<Tokens>, begin: nat, end: nat, i: nat): Tokens
    requires begin <= end <= |Flatten(segments)| && i <= |segments|
  {
    var upto := Max(begin, Min(end, Before(segments, i)));
    Flatten(segments)[begin..upto]
  }

  /** What a segment that starts at position prev contributes to a range. */
  function PieceOf(segment: Tokens, prev: int, begin: nat, end: nat): Tokens {
    PySlice(segment, Max(begin - prev, 0), Min(end - prev, |segment|))
  }

  lemma SliceOfSlice<T>(s: seq<T>, p: nat, length: nat, from: nat, to: nat)
    requires p + length <= |s| && from <= to <= length
    ensures s[p..p + length][from..to] == s[p + from..p + to]
  {
    var t, r := s[p..p + length][from..to], s[p + from..p + to];
    forall k | 0 <= k < |r|
      ensures t[k] == r[k]
    {
      assert t[k] == s[p..p + length][from + k];
    }
  }

  lemma PieceIsSlice(flat: Tokens, p: nat, length: nat, begin: nat, end: nat)
    requires p + length <= |flat| && begin < end <= |flat| && begin < p + length && p < end
    ensures PieceOf(flat[p..p + length], p, begin, end) == flat[Max(begin, p)..Min(end, p + length)]
  {
    SliceOfSlice(flat, p, length, Max(begin - p, 0), Min(end - p, length));
  }

  lemma OnePiece(segments: seq<Tokens>, begin: nat, end: nat, i: nat)
    requires begin < end <= |Flatten(segments)| && i < |segments|
    requires begin < Before(segments, i + 1) && Before(segments, i) < end
    ensures ReadUpto(segments, begin, end, i) + PieceOf(segments[i], Before(segments, i), begin, end)
        == ReadUpto(segments, begin, end, i + 1)
  {
    SegmentAt(segments, i);
    PieceIsSlice(Flatten(segments), Before(segments, i), |segments[i]|, begin, end);
  }

  function Previous(cum: seq<int>, i: nat): int
    requires i <= |cum|
  {
    if i > 0 then cum[i - 1] else 0
  }

  function Piece(segments: seq<Tokens>, cum: seq<int>, begin: nat, end: nat, i: nat): Tokens
    requires |cum| == |segments| && i < |segments|
  {
    PieceOf(segments[i], Previous(cum, i), begin, end)
  }

  /** The pieces of the overlapping segments, in order. */
  method Pieces(segments: seq<Tokens>, cum: seq<int>, begin: nat, end: nat, from: nat, to: nat)
    returns (pieces: seq<Tokens>)
    requires |cum| == |segments| && from <= to <= |segments|
    ensures |pieces| == to - from && forall k :: 0 <= k < |pieces| ==>
        pieces[k] == Piece(segments, cum, begin, end, from + k)
  {
    pieces := [];
    for i := from to to
      invariant |pieces| == i - from && forall k :: 0 <= k < |pieces| ==>
          pieces[k] == Piece(segments, cum, begin, end, from + k)
    {
      pieces := pieces + [Piece(segments, cum, begin, end, i)];
    }
  }

  lemma OrderedRange(segments: seq<Tokens>, begin: nat, end: nat)
    requires begin < end <= |Flatten(segments)|
    ensures BisectRight(Cumulative(segments), begin) <= BisectLeft(Cumulative(segments), end)
  {
    Locate(segments, begin);
    LocateEnd(segments, end);
    var a, b := BisectRight(Cumulative(segments), begin), BisectLeft(Cumulative(segments), end);
    if b < a { BeforeMonotone(segments, b + 1, a); }
  }

  lemma RangeInside(segments: seq<Tokens>, begin: nat, end: nat, i: nat)
    requires begin < end <= |Flatten(segments)|
    requires BisectRight(Cumulative(segments), begin) <= i <= BisectLeft(Cumulative(segments), end)
    ensures i < |segments| && begin < Before(segments, i + 1) && Before(segments, i) < end
  {
    Locate(segments, begin);
    LocateEnd(segments, end);
    BeforeMonotone(segments, BisectRight(Cumulative(segments), begin) + 1, i + 1);
    BeforeMonotone(segments, i, BisectLeft(Cumulative(segments), end));
  }

  lemma NextPiece(segments: seq<Tokens>, begin: nat, end: nat, i: nat)
    requires begin < end <= |Flatten(segments)|
    requires BisectRight(Cumulative(segments), begin) <= i <= BisectLeft(Cumulative(segments), end)
    ensures i < |segments|
    ensures ReadUpto(segments, begin, end, i) + Piece(segments, Cumulative(segments), begin, end, i)
        == ReadUpto(segments, begin, end, i + 1)
  {
    RangeInside(segments, begin, end, i);
    OnePiece(segments, begin, end, i);
    assert Previous(Cumulative(segments), i) == Before(segments, i);
  }

  ghost function ReadMarks(segments: seq<Tokens>, begin: nat, end: nat, from: nat, n: nat): (r: seq<Tokens>)
    requires begin <= end <= |Flatten(segments)| && from + n <= |segments|
    ensures |r| == n + 1 && forall k :: 0 <= k <= n ==> r[k] == ReadUpto(segments, begin, end, from + k)
  {
    seq(n + 1, k requires 0 <= k <= n => ReadUpto(segments, begin, end, from + k))
  }

  lemma NothingYet(segments: seq<Tokens>, begin: nat, end: nat, from: nat)
    requires begin < end <= |Flatten(segments)| && from == BisectRight(Cumulative(segments), begin)
    ensures from <= |segments| && ReadUpto(segments, begin, end, from) == []
  {
    Locate(segments, begin);
  }

  lemma PieceAdvances(segments: seq<Tokens>, begin: nat, end: nat, from: nat, n: nat, k: nat)
    requires begin < end <= |Flatten(segments)| && from == BisectRight(Cumulative(segments), begin)
    requires from + n <= BisectLeft(Cumulative(segments), end) + 1 && from + n <= |segments| && k < n
    ensures ReadMarks(segments, begin, end, from, n)[k] + Piece(segments, Cumulative(segments), begin, end, from + k)
         == ReadMarks(segments, begin, end, from, n)[k + 1]
  {
    NextPiece(segments, begin, end, from + k);
  }

  lemma PiecesJoin(segments: seq<Tokens>, begin: nat, end: nat, from: nat, pieces: seq<Tokens>)
    requires begin < end <= |Flatten(segments)| && from == BisectRight(Cumulative(segments), begin)
    requires from + |pieces| <= BisectLeft(Cumulative(segments), end) + 1 && from + |pieces| <= |segments|
    requires forall k :: 0 <= k < |pieces| ==> pieces[k] == Piece(segments, Cumulative(segments), begin, end, from + k)
    ensures Flatten(pieces) == ReadUpto(segments, begin, end, from + |pieces|)
  {
    var marks := ReadMarks(segments, begin, end, from, |pieces|);
    forall k | 0 <= k < |pieces|
      ensures marks[k] + pieces[k] == marks[k + 1]
    {
      PieceAdvances(segments, begin, end, from, |pieces|, k);
    }
    NothingYet(segments, begin, end, from);
    TelescopeFrom(marks, pieces);
  }

  lemma {:induction false} ReadWhole(segments: seq<Tokens>, begin: nat, end: nat, i: nat)
    requires begin < end <= |Flatten(segments)| && i <= |segments| && end <= Before(segments, i)
    ensures ReadUpto(segments, begin, end, i) == Flatten(segments)[begin..end]
  {
  }

  lemma {:induction false} RangeRead(segments: seq<Tokens>, begin: nat, end: nat, pieces: seq<Tokens>)
    requires begin < end <= |Flatten(segments)|
    requires var a, b := BisectRight(Cumulative(segments), begin), BisectLeft(Cumulative(segments), end);
             a <= b < |segments| && |pieces| == b + 1 - a
             && forall k :: 0 <= k < |pieces| ==> pieces[k] == Piece(segments, Cumulative(segments), begin, end, a + k)
    ensures Flatten(pieces) == Flatten(segments)[begin..end]
  {
    var a, b := BisectRight(Cumulative(segments), begin), BisectLeft(Cumulative(segments), end);
    PiecesJoin(segments, begin, end, a, pieces);
    LocateEnd(segments, end);
    ReadWhole(segments, begin, end, b + 1);
  }

  lemma LeftBeforeRight(cum: seq<int>, begin: int, end: int)
    requires Ascending(cum) && end <= begin
    ensures BisectLeft(cum, end) <= BisectRight(cum, begin)
  {
  }

  lemma GapBetween(cum: seq<int>, begin: int, end: int, k: nat)
    requires Ascending(cum) && k < |cum| && end <= cum[k] <= begin
    ensures BisectLeft(cum, end) <= k < BisectRight(cum, begin)
  {
    var a := BisectRight(cum, begin);
    assert forall j :: a <= j < |cum| ==> cum[a] <= cum[j];
  }

  /** With end <= begin, at most one segment is visited: none exactly when a boundary lies between them. */
  lemma EmptyRange(segments: seq<Tokens>, begin: nat, end: nat)
    requires end <= begin < |Flatten(segments)|
    ensures var a, b := BisectRight(Cumulative(segments), begin), BisectLeft(Cumulative(segments), end);
            && b <= a < |segments|
            && (b < a <==> exists c :: c in Cumulative(segments) && end <= c <= begin)
            && (b == a ==> Before(segments, a) <= begin && Piece(segments, Cumulative(segments), begin, end, a) == [])
  {
    var cum := Cumulative(segments);
    Locate(segments, begin);
    LocateEnd(segments, end);
    var a, b := BisectRight(cum, begin), BisectLeft(cum, end);
    CumulativeAscends(segments);
    assert b <= a by { LeftBeforeRight(cum, begin, end); }
    if b < a {
      assert cum[b] in cum && end <= cum[b] <= cum[a - 1] <= begin;
    }
    if exists c :: c in cum && end <= c <= begin {
      var c :| c in cum && end <= c <= begin;
      var k :| 0 <= k < |cum| && cum[k] == c;
      GapBetween(cum, begin, end, k);
    }
  }

  lemma NothingRead(segments: seq<Tokens>, begin: nat, end: nat, pieces: seq<Tokens>)
    requires end <= begin < |Flatten(segments)|
    requires var a, b := BisectRight(Cumulative(segments), begin), BisectLeft(Cumulative(segments), end);
             |pieces| == (if a <= b then b + 1 - a else 0)
             && forall k :: 0 <= k < |pieces| && a + k < |segments| ==>
                pieces[k] == Piece(segments, Cumulative(segments), begin, end, a + k)
    ensures pieces == [] <==> exists c :: c in Cumulative(segments) && end <= c <= begin
    ensures Flatten(pieces) == []
  {
    EmptyRange(segments, begin, end);
    if |pieces| == 1 { FlattenOne(pieces[0]); }
  }

  /** Past the end of the stream: either a segment that does not exist is asked for, or none is visited. */
  lemma OutsideRange(segments: seq<Tokens>, begin: nat, end: nat)
    requires begin >= |Flatten(segments)| || end > |Flatten(segments)|
    ensures BisectRight(Cumulative(segments), begin) > BisectLeft(Cumulative(segments), end)
         || BisectLeft(Cumulative(segments), end) >= |segments|
  {
    CumulativeAscends(segments);
    LastCount(segments);
  }

  /** The slices of the visited segments, or none when a segment is asked for that does not exist. */
  ghost predicate Visited(segments: seq<Tokens>, begin: nat, end: nat, read: Option<seq<Tokens>>) {
    var a, b := BisectRight(Cumulative(segments), begin), BisectLeft(Cumulative(segments), end);
    if a <= b && b >= |segments| then read == None
    else
      && read.Some? && |read.value| == (if a <= b then b + 1 - a else 0)
      && forall k :: 0 <= k < |read.value| && a + k < |segments| ==>
           read.value[k] == Piece(segments, Cumulative(segments), begin, end, a + k)
  }

  lemma {:induction false} VisitedRange(segments: seq<Tokens>, begin: nat, end: nat, read: Option<seq<Tokens>>)
    requires Visited(segments, begin, end, read) && begin < end <= |Flatten(segments)|
    ensures read.Some? && read.value != [] && Flatten(read.value) == Flatten(segments)[begin..end]
  {
    OrderedRange(segments, begin, end);
    LocateEnd(segments, end);
    RangeRead(segments, begin, end, read.value);
  }

  lemma {:induction false} VisitedNothing(segments: seq<Tokens>, begin: nat, end: nat, read: Option<seq<Tokens>>)
    requires Visited(segments, begin, end, read) && end <= begin < |Flatten(segments)|
    ensures read.Some? && Flatten(read.value) == []
    ensures read.value == [] <==> exists c :: c in Cumulative(segments) && end <= c <= begin
  {
    Locate(segments, begin);
    LocateEnd(segments, end);
    NothingRead(segments, begin, end, read.value);
  }

  lemma {:induction false} VisitedOutside(segments: seq<Tokens>, begin: nat, end: nat, read: Option<seq<Tokens>>)
    requires Visited(segments, begin, end, read) && (begin >= |Flatten(segments)| || end > |Flatten(segments)|)
    ensures read == None || read == Some([])
  {
    OutsideRange(segments, begin, end);
  }

  method ReadPieces(segments: seq<Tokens>, cum: seq<int>, begin: nat, end: nat) returns (r: Option<seq<Tokens>>)
    requires cum == Cumulative(segments)
    ensures Visited(segments, begin, end, r)
  {
    var segStart := BisectRight(cum, begin);
    var segEnd := BisectLeft(cum, end);
    if segStart > segEnd { return Some([]); }
    if segEnd >= |segments| { return None; }
    var pieces := Pieces(segments, cum, begin, end, segStart, segEnd + 1);
    return Some(pieces);
  }

  /** Slice each overlapping segment and join the pieces; a missing segment, or no piece at all, is an error. */
  method FetchStream(segments: seq<Tokens>, cum: seq<int>, begin: nat, end: nat) returns (r: Result<Tokens>)
    requires cum == Cumulative(segments)
    ensures begin < end <= |Flatten(segments)| ==> r == Success(Flatten(segments)[begin..end])
    ensures end <= begin < |Flatten(segments)| ==>
              r == if exists c :: c in cum && end <= c <= begin then Failure else Success([])
    ensures begin >= |Flatten(segments)| || end > |Flatten(segments)| ==> r == Failure
  {
    var pieces := ReadPieces(segments, cum, begin, end);
    if begin < end <= |Flatten(segments)| {
      VisitedRange(segments, begin, end, pieces);
    } else if end <= begin < |Flatten(segments)| {
      VisitedNothing(segments, begin, end, pieces);
    } else {
      VisitedOutside(segments, begin, end, pieces);
    }
    if pieces == None || pieces == Some([]) { return Failure; }
    return Success(Flatten(pieces.value));
  }

  // ---------- Fields and their lengths ----------

  datatype Field = Flat(segments: seq<Tokens>) | Nested(records: seq<seq<Tokens>>)

  /** Window number `index` and its companion shifted by one lie in a stream of this length. */
  predicate WindowFits(index: int, length: nat, w: nat, stride: nat) {
    index >= 0 && index * stride + w + 1 <= length
  }

  /** Exactly the stride multiples whose window and shifted companion fit are counted, so clipping never bites. */
  lemma WindowsFit(length: nat, w: nat, stride: nat, index: int)
    requires stride > 0 && length > w > 0
    ensures 0 <= index < (length - 1 - w) / stride + 1 <==> 0 <= index && index * stride + w + 1 <= length
    ensures index >= 0 ==> index * stride >= 0
  {
    var q := (length - 1 - w) / stride;
    FloorBounds(length - 1 - w, stride);
    if index >= 0 {
      MulNonNegative(index, stride);
      if index <= q {
        MulMonotone(index, q, stride);
      } else {
        MulMonotone(q + 1, index, stride);
        MulStep(q, stride);
      }
    }
  }

  lemma WindowsCounted(length: nat, w: nat, stride: nat)
    requires stride > 0 && length > 0 && w > 0
    ensures var count := if length <= w then 0 else (length - 1 - w) / stride + 1;
            forall index :: WindowFits(index, length, w, stride) <==> 0 <= index < count
  {
    forall index
      ensures WindowFits(index, length, w, stride)
         <==> 0 <= index < if length <= w then 0 else (length - 1 - w) / stride + 1
    {
      if index >= 0 { MulNonNegative(index, stride); }
      if length > w { WindowsFit(length, w, stride, index); }
    }
  }

  function StreamLength(f: Field): nat {
    match f case Flat(segments) => |Flatten(segments)| case Nested(_) => 0
  }

  /** The field takes part in the stream length: nested fields do not, nor do segment lengths unless empty. */
  predicate Bounds(key: string, f: Field) {
    match f
    case Flat(segments) => segments == [] || key != "seq_lengths"
    case Nested(records) => records == []
  }

  ghost predicate IsMinimum(values: set<nat>, m: nat) {
    if values == {} then m == 0 else m in values && forall v :: v in values ==> m <= v
  }

  lemma {:induction false} LeastExists(values: set<nat>) returns (least: nat)
    requires values != {}
    ensures least in values && forall v :: v in values ==> least <= v
  {
    assert (forall v :: v !in values) ==> values == {};
    least :| least in values;
    var rest, first := values - {least}, least;
    assert forall v :: v in values ==> v == first || v in rest;
    if rest != {} {
      var other := LeastExists(rest);
      least := if first <= other then first else other;
    }
  }

  function Minimum(values: set<nat>): (m: nat)
    ensures IsMinimum(values, m)
  {
    if values == {} then 0
    else
      assert exists m: nat :: m in values && forall v :: v in values ==> m <= v by { var least := LeastExists(values); }
      var m: nat :| m in values && forall v :: v in values ==> m <= v;
      m
  }

  /** The length of the shortest counted field, zero without one. */
  ghost predicate ShortestStream(raw: map<string, Field>, n: nat) {
    && (forall key :: key in raw && Bounds(key, raw[key]) ==> n <= StreamLength(raw[key]))
    && (n == 0 || exists key :: key in raw && Bounds(key, raw[key]) && StreamLength(raw[key]) == n)
  }

  function MinStream(raw: map<string, Field>): (n: nat)
    ensures ShortestStream(raw, n)
  {
    var lengths := set key | key in raw && Bounds(key, raw[key]) :: StreamLength(raw[key]);
    assert forall key :: key in raw && Bounds(key, raw[key]) ==> StreamLength(raw[key]) in lengths;
    Minimum(lengths)
  }

  /** How many records a field gives segment by segment, unless it is nested. */
  function SegmentCount(f: Field): nat {
    match f case Flat(segments) => |segments| case Nested(_) => 0
  }

  predicate CountsRecords(f: Field) {
    f.Flat? || f.records == []
  }

  /** The least number of records that a counted field has, zero without one. */
  ghost predicate FewestRecords(raw: map<string, Field>, n: nat) {
    && (forall key :: key in raw && CountsRecords(raw[key]) ==> n <= SegmentCount(raw[key]))
    && (n == 0 || exists key :: key in raw && CountsRecords(raw[key]) && SegmentCount(raw[key]) == n)
  }

  function MinRecords(raw: map<string, Field>): (n: nat)
    ensures FewestRecords(raw, n)
  {
    var counts := set key | key in raw && CountsRecords(raw[key]) :: SegmentCount(raw[key]);
    assert forall key :: key in raw && CountsRecords(raw[key]) ==> SegmentCount(raw[key]) in counts;
    Minimum(counts)
  }

  // ---------- Record offsets ----------

  predicate OffsetsAccepted(offsets: seq<int>, size: nat) {
    && |offsets| >= 2 && offsets[0] == 0 && offsets[|offsets| - 1] == size
    && forall i :: 0 <= i < |offsets| - 1 ==> offsets[i] <= offsets[i + 1]
  }

  lemma {:induction false} OffsetsAscend(offsets: seq<int>, i: nat, j: nat)
    requires forall k :: 0 <= k < |offsets| - 1 ==> offsets[k] <= offsets[k + 1]
    requires i <= j < |offsets|
    ensures offsets[i] <= offsets[j]
  {
    if i < j { OffsetsAscend(offsets, i, j - 1); }
  }

  lemma OffsetsInside(offsets: seq<int>, size: nat, i: nat)
    requires OffsetsAccepted(offsets, size) && i < |offsets|
    ensures 0 <= offsets[i] <= size
  {
    OffsetsAscend(offsets, 0, i);
    OffsetsAscend(offsets, i, |offsets| - 1);
  }

  /** The records that accepted offsets cut a stream into. */
  function Cut(stream: Tokens, offsets: seq<int>): (r: seq<Tokens>)
    requires OffsetsAccepted(offsets, |stream|)
    ensures |r| == |offsets| - 1
    ensures forall i :: 0 <= i < |offsets| ==> 0 <= offsets[i] <= |stream|
    ensures forall i :: 0 <= i < |r| ==> offsets[i] <= offsets[i + 1]
    ensures forall i :: 0 <= i < |r| ==> r[i] == stream[offsets[i]..offsets[i + 1]]
  {
    assert forall i :: 0 <= i < |offsets| ==> 0 <= offsets[i] <= |stream| by {
      forall i | 0 <= i < |offsets|
        ensures 0 <= offsets[i] <= |stream|
      {
        OffsetsInside(offsets, |stream|, i);
      }
    }
    seq(|offsets| - 1, i requires 0 <= i < |offsets| - 1 => stream[offsets[i]..offsets[i + 1]])
  }

  ghost predicate FieldAccepted(segments: seq<Tokens>, offsets: seq<seq<int>>) {
    |offsets| == |segments| && forall i :: 0 <= i < |segments| ==> OffsetsAccepted(offsets[i], |segments[i]|)
  }

  /** The records of one field, shard by shard. */
  ghost function ShardRecords(segments: seq<Tokens>, offsets: seq<seq<int>>): (r: seq<seq<Tokens>>)
    requires FieldAccepted(segments, offsets)
    ensures |r| == |segments| && forall i :: 0 <= i < |r| ==> r[i] == Cut(segments[i], offsets[i])
  {
    seq(|segments|, i requires 0 <= i < |segments| => Cut(segments[i], offsets[i]))
  }

  ghost predicate FieldIndexed(segments: seq<Tokens>, offsets: seq<seq<int>>, recordCum: seq<int>, total: nat) {
    && FieldAccepted(segments, offsets)
    && recordCum == Cumulative(ShardRecords(segments, offsets))
    && total == |Flatten(ShardRecords(segments, offsets))|
  }

  lemma ElementAt<T>(segments: seq<seq<T>>, i: nat, x: int)
    requires i < |segments| && Before(segments, i) <= x < Before(segments, i + 1)
    ensures x < |Flatten(segments)| && Flatten(segments)[x] == segments[i][x - Before(segments, i)]
  {
    SegmentAt(segments, i);
    assert Flatten(segments)[x]
      == Flatten(segments)[Before(segments, i)..Before(segments, i + 1)][x - Before(segments, i)];
  }

  /** Bisecting the record counts finds the record of the concatenated lists. */
  lemma RecordFound(segments: seq<Tokens>, offsets: seq<seq<int>>, recordCum: seq<int>, total: nat, index: int)
    requires FieldIndexed(segments, offsets, recordCum, total) && 0 <= index < total
    ensures var shard := BisectRight(recordCum, index);
            && shard < |segments| == |offsets| == |recordCum|
            && var local := index - (if shard > 0 then recordCum[shard - 1] else 0);
            && 0 <= local < |offsets[shard]| - 1
            && 0 <= offsets[shard][local] <= offsets[shard][local + 1] <= |segments[shard]|
            && Flatten(ShardRecords(segments, offsets))[index]
               == segments[shard][offsets[shard][local]..offsets[shard][local + 1]]
  {
    var records := ShardRecords(segments, offsets);
    Locate(records, index);
    var shard := BisectRight(recordCum, index);
    ElementAt(records, shard, index);
    assert records[shard] == Cut(segments[shard], offsets[shard]);
    var local := index - Before(records, shard);
    OffsetsInside(offsets[shard], |segments[shard]|, local);
    OffsetsInside(offsets[shard], |segments[shard]|, local + 1);
  }

  // ---------- Building the index ----------

  function ShardKeys(shards: seq<map<string, seq<int>>>): set<string> {
    if shards == [] then {} else ShardKeys(shards[..|shards| - 1]) + shards[|shards| - 1].Keys
  }

  /** What the index requires of one shard: all fields present, valid offsets, one record count. */
  predicate ShardAccepted(shards: seq<map<string, seq<int>>>, data: map<string, Field>, i: nat)
    requires i < |shards|
  {
    && shards[i].Keys == ShardKeys(shards) && shards[i] != map[]
    && (forall key | key in shards[i] ::
          key in data && data[key].Flat? && |data[key].segments| == |shards|
            && OffsetsAccepted(shards[i][key], |data[key].segments[i]|))
    && (forall a, b | a in shards[i] && b in shards[i] :: |shards[i][a]| == |shards[i][b]|)
  }

  ghost predicate ShardsAccepted(shards: seq<map<string, seq<int>>>, data: map<string, Field>) {
    forall i :: 0 <= i < |shards| ==> ShardAccepted(shards, data, i)
  }

  function ShardOffsets(shards: seq<map<string, seq<int>>>, key: string): (r: seq<seq<int>>)
    ensures |r| == |shards|
    ensures forall i :: 0 <= i < |r| ==> r[i] == if key in shards[i] then shards[i][key] else []
  {
    seq(|shards|, i requires 0 <= i < |shards| => if key in shards[i] then shards[i][key] else [])
  }

  /** Records counted from the offset lists of the first i shards. */
  function CountBefore(offsets: seq<seq<int>>, i: nat): int
    requires i <= |offsets|
  {
    if i == 0 then 0 else CountBefore(offsets, i - 1) + |offsets[i - 1]| - 1
  }

  function CountSums(offsets: seq<seq<int>>): (r: seq<int>)
    ensures |r| == |offsets| && forall i :: 0 <= i < |r| ==> r[i] == CountBefore(offsets, i + 1)
  {
    seq(|offsets|, i requires 0 <= i < |offsets| => CountBefore(offsets, i + 1))
  }

  lemma {:induction false} CountsAreRecords(segments: seq<Tokens>, offsets: seq<seq<int>>, counts: seq<seq<int>>,
        i: nat)
    requires FieldAccepted(segments, offsets) && i <= |segments| == |counts|
    requires forall k :: 0 <= k < |counts| ==> |counts[k]| == |offsets[k]|
    ensures CountBefore(counts, i) == Before(ShardRecords(segments, offsets), i)
  {
    if i > 0 { CountsAreRecords(segments, offsets, counts, i - 1); }
  }

  lemma IndexedByCounts(segments: seq<Tokens>, offsets: seq<seq<int>>, counts: seq<seq<int>>)
    requires FieldAccepted(segments, offsets) && |counts| == |segments|
    requires forall k :: 0 <= k < |counts| ==> |counts[k]| == |offsets[k]|
    ensures CountBefore(counts, |segments|) >= 0
    ensures FieldIndexed(segments, offsets, CountSums(counts), CountBefore(counts, |segments|))
  {
    forall i | 0 <= i <= |segments|
      ensures CountBefore(counts, i) == Before(ShardRecords(segments, offsets), i)
    {
      CountsAreRecords(segments, offsets, counts, i);
    }
    WholeBefore(ShardRecords(segments, offsets));
  }

  /** The counts taken from one field index every field. */
  lemma IndexedLikeChosen(shards: seq<map<string, seq<int>>>, data: map<string, Field>, key: string, chosen: string)
    requires ShardsAccepted(shards, data) && key in ShardKeys(shards) && chosen in ShardKeys(shards)
    ensures key in data && data[key].Flat? && CountBefore(ShardOffsets(shards, chosen), |shards|) >= 0
    ensures FieldIndexed(data[key].segments, ShardOffsets(shards, key),
                         CountSums(ShardOffsets(shards, chosen)), CountBefore(ShardOffsets(shards, chosen), |shards|))
  {
    assert shards != [];
    assert ShardAccepted(shards, data, 0);
    forall k | 0 <= k < |shards|
      ensures OffsetsAccepted(ShardOffsets(shards, key)[k], |data[key].segments[k]|)
      ensures |ShardOffsets(shards, chosen)[k]| == |ShardOffsets(shards, key)[k]|
    {
      assert ShardAccepted(shards, data, k);
    }
    IndexedByCounts(data[key].segments, ShardOffsets(shards, key), ShardOffsets(shards, chosen));
  }

  datatype Index = Index(offsets: map<string, seq<seq<int>>>, recordCum: seq<int>, total: nat)

  ghost predicate AllIndexed(data: map<string, Field>, offsets: map<string, seq<seq<int>>>, recordCum: seq<int>,
        total: nat) {
    forall key :: key in offsets ==>
      key in data && data[key].Flat? && FieldIndexed(data[key].segments, offsets[key], recordCum, total)
  }

  function Listed(shard: map<string, seq<int>>, key: string): seq<int> {
    if key in shard then shard[key] else []
  }

  function AppendShard(indexed: map<string, seq<seq<int>>>, shard: map<string, seq<int>>)
    : (r: map<string, seq<seq<int>>>)
    ensures r.Keys == indexed.Keys && forall key :: key in r ==> r[key] == indexed[key] + [Listed(shard, key)]
  {
    map key | key in indexed :: indexed[key] + [Listed(shard, key)]
  }

  datatype Progress = Progress(indexed: map<string, seq<seq<int>>>, cumulative: seq<int>, total: int)

  function Append(p: Progress, shard: map<string, seq<int>>, chosen: string): Progress {
    var total := p.total + |Listed(shard, chosen)| - 1;
    Progress(AppendShard(p.indexed, shard), p.cumulative + [total], total)
  }

  /** What has been collected after the first i shards. */
  function Collected(shards: seq<map<string, seq<int>>>, keys: set<string>, chosen: string, i: nat): (p: Progress)
    requires i <= |shards|
    ensures p.indexed.Keys == keys
  {
    if i == 0 then Progress(map key | key in keys :: [], [], 0)
    else Append(Collected(shards, keys, chosen, i - 1), shards[i - 1], chosen)
  }

  lemma NextOffsets(shards: seq<map<string, seq<int>>>, key: string, i: nat)
    requires 0 < i <= |shards|
    ensures ShardOffsets(shards, key)[..i] == ShardOffsets(shards, key)[..i - 1] + [Listed(shards[i - 1], key)]
  {
  }

  lemma {:induction false} CollectedOffsets(shards: seq<map<string, seq<int>>>, keys: set<string>, chosen: string,
        i: nat, key: string)
    requires i <= |shards| && key in keys
    ensures Collected(shards, keys, chosen, i).indexed[key] == ShardOffsets(shards, key)[..i]
  {
    if i > 0 {
      CollectedOffsets(shards, keys, chosen, i - 1, key);
      NextOffsets(shards, key, i);
    }
  }

  lemma {:induction false} CollectedCounts(shards: seq<map<string, seq<int>>>, keys: set<string>, chosen: string,
        i: nat)
    requires i <= |shards|
    ensures Collected(shards, keys, chosen, i).total == CountBefore(ShardOffsets(shards, chosen), i)
    ensures Collected(shards, keys, chosen, i).cumulative == CountSums(ShardOffsets(shards, chosen))[..i]
  {
    if i > 0 {
      CollectedCounts(shards, keys, chosen, i - 1);
      var sums := CountSums(ShardOffsets(shards, chosen));
      assert sums[..i] == sums[..i - 1] + [sums[i - 1]];
    }
  }

  /** The first n shards are accepted. */
  ghost predicate AcceptedUpto(shards: seq<map<string, seq<int>>>, data: map<string, Field>, n: nat)
    requires n <= |shards|
  {
    n == 0 || (AcceptedUpto(shards, data, n - 1) && ShardAccepted(shards, data, n - 1))
  }

  lemma {:induction false} AcceptedEach(shards: seq<map<string, seq<int>>>, data: map<string, Field>, n: nat, i: nat)
    requires i < n <= |shards| && AcceptedUpto(shards, data, n)
    ensures ShardAccepted(shards, data, i)
  {
    if i < n - 1 { AcceptedEach(shards, data, n - 1, i); }
  }

  lemma AcceptedAll(shards: seq<map<string, seq<int>>>, data: map<string, Field>)
    requires AcceptedUpto(shards, data, |shards|)
    ensures ShardsAccepted(shards, data)
  {
    forall i | 0 <= i < |shards|
      ensures ShardAccepted(shards, data, i)
    {
      AcceptedEach(shards, data, |shards|, i);
    }
  }

  ghost predicate OffsetsAll(shards: seq<map<string, seq<int>>>, indexed: map<string, seq<seq<int>>>) {
    indexed.Keys == ShardKeys(shards) && forall key :: key in indexed ==> indexed[key] == ShardOffsets(shards, key)
  }

  lemma AllCollected(shards: seq<map<string, seq<int>>>, chosen: string)
    ensures var p := Collected(shards, ShardKeys(shards), chosen, |shards|);
            && OffsetsAll(shards, p.indexed)
            && p.cumulative == CountSums(ShardOffsets(shards, chosen))
            && p.total == CountBefore(ShardOffsets(shards, chosen), |shards|)
  {
    var keys := ShardKeys(shards);
    CollectedCounts(shards, keys, chosen, |shards|);
    forall key | key in keys
      ensures Collected(shards, keys, chosen, |shards|).indexed[key] == ShardOffsets(shards, key)
    {
      CollectedOffsets(shards, keys, chosen, |shards|, key);
    }
  }

  lemma NoKeysNoShards(shards: seq<map<string, seq<int>>>, data: map<string, Field>)
    requires ShardsAccepted(shards, data) && ShardKeys(shards) == {}
    ensures shards == []
  {
    assert |shards| > 0 ==> ShardAccepted(shards, data, 0);
  }

  lemma CollectedIndexesAll(shards: seq<map<string, seq<int>>>, data: map<string, Field>, chosen: string,
                            indexed: map<string, seq<seq<int>>>, cumulative: seq<int>, total: int)
    requires ShardsAccepted(shards, data) && OffsetsAll(shards, indexed)
    requires cumulative == CountSums(ShardOffsets(shards, chosen))
    requires total == CountBefore(ShardOffsets(shards, chosen), |shards|)
    requires ShardKeys(shards) != {} ==> chosen in ShardKeys(shards)
    ensures total >= 0 && AllIndexed(data, indexed, cumulative, total)
  {
    if ShardKeys(shards) == {} {
      NoKeysNoShards(shards, data);
    } else {
      IndexedLikeChosen(shards, data, chosen, chosen);
      forall key | key in indexed
        ensures key in data && data[key].Flat? && FieldIndexed(data[key].segments, indexed[key], cumulative, total)
      {
        IndexedLikeChosen(shards, data, key, chosen);
      }
    }
  }

  /** Check every shard and collect its offsets and its record count, taken from one of the fields. */
  method IndexShards(shards: seq<map<string, seq<int>>>, data: map<string, Field>) returns (r: Option<Index>)
    ensures r.Some? <==> ShardsAccepted(shards, data)
    ensures r.Some? ==> AllIndexed(data, r.value.offsets, r.value.recordCum, r.value.total)
    ensures r.Some? ==> OffsetsAll(shards, r.value.offsets)
  {
    var keys := ShardKeys(shards);
    var chosen := "";
    if keys != {} { chosen :| chosen in keys; }
    var p := Progress(map key | key in keys :: [], [], 0);
    for i := 0 to |shards|
      invariant AcceptedUpto(shards, data, i) && p == Collected(shards, keys, chosen, i)
    {
      if !ShardAccepted(shards, data, i) { return None; }
      p := Append(p, shards[i], chosen);
    }
    AcceptedAll(shards, data);
    AllCollected(shards, chosen);
    CollectedIndexesAll(shards, data, chosen, p.indexed, p.cumulative, p.total);
    return Some(Index(p.indexed, p.cumulative, p.total));
  }

  // ---------- The store ----------

  class Store {
    const segmentsAreRecords: bool
    const windowSize: nat
    const stride: nat
    var data: map<string, Field>
    var cum: map<string, seq<int>>
    var offsets: map<string, seq<seq<int>>>
    var recordCum: seq<int>
    var length: nat
    var numRecords: nat

    /** The stream side: counts mirror the segments, and the length is readable in every stream field. */
    ghost predicate StreamValid()
      reads this
    {
      && stride > 0 && data.Keys == cum.Keys
      && (forall key :: key in data && data[key].Flat? ==> cum[key] == Cumulative(data[key].segments))
      && (forall key :: key in data && data[key].Flat? && key != "seq_lengths" ==>
         length <= |Flatten(data[key].segments)|)
    }

    constructor (segmentsAreRecords: bool, windowSize: nat, stride: nat)
      requires stride > 0
      ensures StreamValid() && data == map[] && offsets == map[] && numRecords == 0
      ensures this.segmentsAreRecords == segmentsAreRecords && this.windowSize == windowSize && this.stride == stride
    {
      this.segmentsAreRecords, this.windowSize, this.stride := segmentsAreRecords, windowSize, stride;
      data, cum, offsets, recordCum, length, numRecords := map[], map[], map[], [], 0, 0;
    }

    /** Register segments; an empty field, like the shortest one, bounds the stream. */
    method Normalize(raw: map<string, Field>)
      requires stride > 0
      modifies this
      ensures StreamValid() && data == raw && offsets == map[] && recordCum == []
      ensures ShortestStream(raw, length)
      ensures if segmentsAreRecords then FewestRecords(raw, numRecords) else numRecords == 0
    {
      data := raw;
      offsets, recordCum := map[], [];
      cum := map key | key in raw :: (match raw[key] case Flat(segments) => Cumulative(segments) case Nested(_) => []);
      length := MinStream(raw);
      numRecords := if segmentsAreRecords then MinRecords(raw) else 0;
    }

    /** Bounds-checked stream read of one field; an unknown or a nested one is an error. */
    method Fetch(begin: int, end: int, key: string) returns (r: Result<Tokens>)
      requires StreamValid()
      ensures !(0 <= begin < length && 0 <= end <= length) || key !in data || data[key].Nested? ==> r == Failure
      ensures 0 <= begin < length && 0 <= end <= length && key in data && data[key].Flat? ==>
                var flat := Flatten(data[key].segments);
                && (begin < end <= |flat| ==> r == Success(flat[begin..end]))
                && (end <= begin < |flat| ==>
                      r == if exists c :: c in cum[key] && end <= c <= begin then Failure else Success([]))
                && (begin >= |flat| || end > |flat| ==> r == Failure && key == "seq_lengths")
    {
      if data == map[] { return Failure; }
      if !(0 <= begin < length && 0 <= end <= length) { return Failure; }
      if key !in data || data[key].Nested? { return Failure; }
      r := FetchStream(data[key].segments, cum[key], begin, end);
    }

    /** The number of windows that fit, or of records without a window. */
    function NumSamples(): (n: int)
      requires stride > 0
      reads this
      ensures if windowSize > 0 && length > 0 then
                forall index :: WindowFits(index, length, windowSize, stride) <==> 0 <= index < n
              else n == numRecords
    {
      if windowSize > 0 && length > 0 then
        WindowsCounted(length, windowSize, stride);
        if length <= windowSize then 0 else (length - 1 - windowSize) / stride + 1
      else numRecords
    }

    method SampleWindow(index: int) returns (r: Result<(int, int)>)
      requires stride > 0
      ensures r.Success? <==> windowSize > 0 && WindowFits(index, length, windowSize, stride)
      ensures r.Success? ==> r.value == (index * stride, index * stride + windowSize)
                             && 0 <= r.value.0 < r.value.1 && r.value.1 + 1 <= length
    {
      if windowSize == 0 { return Failure; }
      if length <= windowSize { return Failure; }
      if !(0 <= index < NumSamples()) { return Failure; }
      var begin := Min(index * stride, length - 1 - windowSize);
      var end := Min(begin + windowSize, length - 1);
      WindowsFit(length, windowSize, stride, index);
      assert WindowFits(index, length, windowSize, stride);
      return Success((begin, end));
    }

    /** A next-token training pair: a window and its companion shifted by one. */
    method SeqSample(index: int, key: string) returns (r: Result<(Tokens, Tokens)>)
      requires StreamValid() && key in data && data[key].Flat? && key != "seq_lengths"
      ensures r.Success? <==> windowSize > 0 && WindowFits(index, length, windowSize, stride)
      ensures r.Success? ==>
                var flat := Flatten(data[key].segments);
                && 0 <= index * stride && index * stride + windowSize + 1 <= |flat|
                && r.value == (flat[index * stride..index * stride + windowSize],
                   flat[index * stride + 1..index * stride + windowSize + 1])
    {
      var window := SampleWindow(index);
      if window == Failure { return Failure; }
      var (begin, end) := window.value;
      var x := Fetch(begin, end, key);
      var y := Fetch(begin + 1, end + 1, key);
      return Success((x.value, y.value));
    }

    /** The record side: every indexed field has accepted offsets with the same record counts. */
    ghost predicate RecordValid()
      reads this
    {
      AllIndexed(data, offsets, recordCum, numRecords)
    }

    /** Install the index of accepted shards; any inconsistency is refused and changes nothing. */
    method BuildRecordIndex(shards: seq<map<string, seq<int>>>) returns (ok: bool)
      modifies this
      ensures ok <==> ShardsAccepted(shards, old(data))
      ensures !ok ==> unchanged(this)
      ensures ok ==> unchanged(`data, `cum, `length) && RecordValid()
      ensures ok ==> OffsetsAll(shards, offsets)
    {
      var index := IndexShards(shards, data);
      ok := index.Some?;
      if ok {
        offsets, recordCum, numRecords := index.value.offsets, index.value.recordCum, index.value.total;
      }
    }

    /** One record of one field: through the offsets when there are any, else segment by segment. */
    method FetchRecord(index: int, key: string) returns (r: Result<Tokens>)
      requires RecordValid() && key in data && data[key].Flat?
      requires offsets == map[] ==> numRecords <= |data[key].segments|
      ensures !(0 <= index < numRecords) ==> r == Failure
      ensures 0 <= index < numRecords && key in offsets && offsets[key] != [] ==>
                index < |Flatten(ShardRecords(data[key].segments, offsets[key]))|
                && r == Success(Flatten(ShardRecords(data[key].segments, offsets[key]))[index])
      ensures 0 <= index < numRecords && !(key in offsets && offsets[key] != []) ==>
                r == if offsets != map[] then Failure else Success(data[key].segments[index])
    {
      if !(0 <= index < numRecords) { return Failure; }
      if key in offsets && offsets[key] != [] {
        RecordFound(data[key].segments, offsets[key], recordCum, numRecords, index);
        var shard := BisectRight(recordCum, index);
        var local := index - (if shard > 0 then recordCum[shard - 1] else 0);
        var start, end := offsets[key][shard][local], offsets[key][shard][local + 1];
        return Success(data[key].segments[shard][start..end]);
      }
      if offsets != map[] { return Failure; }
      return Success(data[key].segments[index]);
    }
  }

  // ---------- Writing shards, and the round trip ----------

  datatype Saved = Saved(streams: map<string, Tokens>, offsets: map<string, seq<int>>)

  function OffsetsOf(records: seq<Tokens>): (r: seq<int>)
    ensures |r| == |records| + 1 && r[0] == 0 && forall i :: 0 <= i < |r| ==> r[i] == Before(records, i)
  {
    seq(|records| + 1, i requires 0 <= i <= |records| => Before(records, i))
  }

  function SaveShard(group: map<string, seq<Tokens>>, recordKeys: set<string>): Saved {
    Saved(map key | key in group :: Flatten(group[key]),
          map key | key in group && key in recordKeys :: OffsetsOf(group[key]))
  }

  method CumulativeOffsets(records: seq<Tokens>) returns (offsets: seq<int>)
    ensures offsets == OffsetsOf(records)
  {
    offsets := [0];
    for i := 0 to |records|
      invariant |offsets| == i + 1 && forall k :: 0 <= k <= i ==> offsets[k] == Before(records, k)
    {
      offsets := offsets + [offsets[|offsets| - 1] + |records[i]|];
    }
  }

  ghost predicate SavedExcept(group: map<string, seq<Tokens>>, recordKeys: set<string>, todo: set<string>,
        saved: Saved) {
    && todo <= group.Keys && (forall key :: key in group && key !in todo ==> group[key] != [])
    && saved.streams.Keys == group.Keys - todo && saved.offsets.Keys == (group.Keys - todo) * recordKeys
    && (forall key :: key in saved.streams ==> saved.streams[key] == Flatten(group[key]))
    && (forall key :: key in saved.offsets ==> saved.offsets[key] == OffsetsOf(group[key]))
  }

  lemma SavedOne(group: map<string, seq<Tokens>>, recordKeys: set<string>, todo: set<string>, saved: Saved,
        key: string, next: Saved)
    requires SavedExcept(group, recordKeys, todo, saved) && key in todo && group[key] != []
    requires next.streams == saved.streams[key := Flatten(group[key])]
    requires next.offsets == if key in recordKeys then saved.offsets[key := OffsetsOf(group[key])] else saved.offsets
    ensures SavedExcept(group, recordKeys, todo - {key}, next)
  {
  }

  /**
    Concatenate each field and write cumulative offsets for the record fields; an empty field cannot be
    concatenated.
   */
  method SaveBin(group: map<string, seq<Tokens>>, recordKeys: set<string>) returns (r: Result<Saved>)
    ensures r.Failure? <==> exists key :: key in group && group[key] == []
    ensures r.Success? ==> r.value == SaveShard(group, recordKeys)
  {
    var todo := group.Keys;
    var saved := Saved(map[], map[]);
    while todo != {}
      invariant SavedExcept(group, recordKeys, todo, saved)
      decreases todo
    {
      var key :| key in todo;
      if group[key] == [] { return Failure; }
      var offsets := CumulativeOffsets(group[key]);
      var next := Saved(saved.streams[key := Flatten(group[key])],
                        if key in recordKeys then saved.offsets[key := offsets] else saved.offsets);
      SavedOne(group, recordKeys, todo, saved, key, next);
      saved := next;
      todo := todo - {key};
    }
    return Success(saved);
  }

  lemma OwnOffsets(records: seq<Tokens>)
    requires records != []
    ensures OffsetsAccepted(OffsetsOf(records), |Flatten(records)|)
  {
    WholeBefore(records);
    forall i | 0 <= i < |records|
      ensures OffsetsOf(records)[i] <= OffsetsOf(records)[i + 1]
    {
      BeforeMonotone(records, i, i + 1);
    }
  }

  /** Cutting a concatenation by its own offsets gives back the records. */
  lemma CutInverts(records: seq<Tokens>)
    requires records != []
    ensures OffsetsAccepted(OffsetsOf(records), |Flatten(records)|)
    ensures Cut(Flatten(records), OffsetsOf(records)) == records
  {
    OwnOffsets(records);
    var pieces := Cut(Flatten(records), OffsetsOf(records));
    forall i | 0 <= i < |records|
      ensures pieces[i] == records[i]
    {
      SegmentAt(records, i);
      assert OffsetsOf(records)[i] == Before(records, i) && OffsetsOf(records)[i + 1] == Before(records, i + 1);
    }
  }

  /** A group that can be written as a record shard: these fields, equally many records in each, at least one. */
  ghost predicate RecordGroup(group: map<string, seq<Tokens>>, keys: set<string>) {
    && group.Keys == keys
    && (forall key :: key in keys ==> group[key] != [])
    && (forall a, b :: a in keys && b in keys ==> |group[a]| == |group[b]|)
  }

  ghost predicate RecordGroups(groups: seq<map<string, seq<Tokens>>>, keys: set<string>) {
    keys != {} && forall i :: 0 <= i < |groups| ==> RecordGroup(groups[i], keys)
  }

  ghost function SavedAll(groups: seq<map<string, seq<Tokens>>>, keys: set<string>): (r: seq<Saved>)
    ensures |r| == |groups| && forall i :: 0 <= i < |r| ==> r[i] == SaveShard(groups[i], keys)
  {
    seq(|groups|, i requires 0 <= i < |groups| => SaveShard(groups[i], keys))
  }

  function OffsetsIn(saved: seq<Saved>): (r: seq<map<string, seq<int>>>)
    ensures |r| == |saved| && forall i :: 0 <= i < |r| ==> r[i] == saved[i].offsets
  {
    seq(|saved|, i requires 0 <= i < |saved| => saved[i].offsets)
  }

  // ---------- Loading ----------

  /** A memory map of an empty file is refused. */
  predicate HasEmptyStream(s: Saved) {
    exists key | key in s.streams :: s.streams[key] == []
  }

  /** One segment for every shard that has the field. */
  function SegmentsOf(saved: seq<Saved>, key: string): seq<Tokens> {
    if saved == [] then []
    else
      var last := saved[|saved| - 1].streams;
      SegmentsOf(saved[..|saved| - 1], key) + if key in last then [last[key]] else []
  }

  function StreamKeys(saved: seq<Saved>): set<string> {
    if saved == [] then {} else StreamKeys(saved[..|saved| - 1]) + saved[|saved| - 1].streams.Keys
  }

  function SegmentMap(saved: seq<Saved>): map<string, seq<Tokens>> {
    map key | key in StreamKeys(saved) :: SegmentsOf(saved, key)
  }

  function Extended(all: map<string, seq<Tokens>>, s: Saved): map<string, seq<Tokens>> {
    map key | key in all.Keys + s.streams.Keys ::
      (if key in all then all[key] else []) + if key in s.streams then [s.streams[key]] else []
  }

  lemma {:induction false} NoSegments(saved: seq<Saved>, key: string)
    requires key !in StreamKeys(saved)
    ensures SegmentsOf(saved, key) == []
  {
    if saved != [] { NoSegments(saved[..|saved| - 1], key); }
  }

  lemma ExtendedIs(saved: seq<Saved>, s: Saved)
    ensures SegmentMap(saved + [s]) == Extended(SegmentMap(saved), s)
  {
    assert (saved + [s])[..|saved|] == saved;
    forall key | key in s.streams && key !in StreamKeys(saved)
      ensures SegmentsOf(saved, key) == []
    {
      NoSegments(saved, key);
    }
  }

  /**
    Map every shard's files, in the order they were found, and collect one segment per shard and field; no
    shard at all, or an empty file, is an error.
   */
  method LoadShards(saved: seq<Saved>) returns (r: Result<map<string, seq<Tokens>>>)
    ensures r.Failure? <==> saved == [] || exists i :: 0 <= i < |saved| && HasEmptyStream(saved[i])
    ensures r.Success? ==> r.value == SegmentMap(saved)
  {
    var all := map[];
    for i := 0 to |saved|
      invariant all == SegmentMap(saved[..i])
      invariant forall k :: 0 <= k < i ==> !HasEmptyStream(saved[k])
    {
      if HasEmptyStream(saved[i]) { return Failure; }
      ExtendedIs(saved[..i], saved[i]);
      assert saved[..i + 1] == saved[..i] + [saved[i]];
      all := Extended(all, saved[i]);
    }
    assert saved[..|saved|] == saved;
    if saved == [] { return Failure; }
    return Success(all);
  }

  /** Every field of every shard holds a token. */
  ghost predicate SomeTokens(groups: seq<map<string, seq<Tokens>>>) {
    forall i, key :: 0 <= i < |groups| && key in groups[i] ==> Flatten(groups[i][key]) != []
  }

  lemma LoadsUnlessEmpty(groups: seq<map<string, seq<Tokens>>>, keys: set<string>)
    ensures SomeTokens(groups) <==> forall i :: 0 <= i < |groups| ==> !HasEmptyStream(SavedAll(groups, keys)[i])
  {
    forall i | 0 <= i < |groups|
      ensures HasEmptyStream(SavedAll(groups, keys)[i])
          <==> exists key :: key in groups[i] && Flatten(groups[i][key]) == []
    {
      var s := SaveShard(groups[i], keys);
      if exists key :: key in groups[i] && Flatten(groups[i][key]) == [] {
        var key :| key in groups[i] && Flatten(groups[i][key]) == [];
        assert key in s.streams && s.streams[key] == [];
      }
    }
    if !SomeTokens(groups) {
      var i, key :| 0 <= i < |groups| && key in groups[i] && Flatten(groups[i][key]) == [];
      assert HasEmptyStream(SavedAll(groups, keys)[i]);
    }
  }

  // ---------- The round trip ----------

  ghost function Written(groups: seq<map<string, seq<Tokens>>>, keys: set<string>, key: string): (r: seq<seq<Tokens>>)
    requires RecordGroups(groups, keys) && key in keys
    ensures |r| == |groups| && forall i :: 0 <= i < |r| ==> key in groups[i] && r[i] == groups[i][key]
  {
    assert forall i :: 0 <= i < |groups| ==> RecordGroup(groups[i], keys);
    seq(|groups|, i requires 0 <= i < |groups| => groups[i][key])
  }

  /** What is written of one field of one group. */
  lemma SavedField(group: map<string, seq<Tokens>>, keys: set<string>, key: string)
    requires RecordGroup(group, keys) && key in keys
    ensures var s := SaveShard(group, keys);
            && s.streams.Keys == keys == s.offsets.Keys && group[key] != []
            && s.streams[key] == Flatten(group[key]) && s.offsets[key] == OffsetsOf(group[key])
  {
    assert group.Keys * keys == keys;
  }

  /** One field as it is stored: each shard's concatenation, and its cumulative offsets. */
  ghost predicate Stored(segments: seq<Tokens>, offsets: seq<seq<int>>, records: seq<seq<Tokens>>) {
    && |segments| == |offsets| == |records|
    && forall i :: 0 <= i < |records| ==>
         records[i] != [] && segments[i] == Flatten(records[i]) && offsets[i] == OffsetsOf(records[i])
  }

  /** What is stored of a field is accepted, and cut back into its records. */
  lemma StoredInverts(segments: seq<Tokens>, offsets: seq<seq<int>>, records: seq<seq<Tokens>>)
    requires Stored(segments, offsets, records)
    ensures FieldAccepted(segments, offsets) && ShardRecords(segments, offsets) == records
  {
    forall i | 0 <= i < |records|
      ensures OffsetsAccepted(offsets[i], |segments[i]|) && Cut(segments[i], offsets[i]) == records[i]
    {
      CutInverts(records[i]);
    }
  }

  lemma {:induction false} SegmentsAre(saved: seq<Saved>, key: string, streams: seq<Tokens>)
    requires |saved| == |streams|
    requires forall i :: 0 <= i < |saved| ==> key in saved[i].streams && saved[i].streams[key] == streams[i]
    ensures SegmentsOf(saved, key) == streams
  {
    if saved != [] { SegmentsAre(saved[..|saved| - 1], key, streams[..|streams| - 1]); }
  }

  lemma {:induction false} StreamKeysAre(keys: set<string>, saved: seq<Saved>)
    requires saved != [] && forall i :: 0 <= i < |saved| ==> saved[i].streams.Keys == keys
    ensures StreamKeys(saved) == keys
  {
    if |saved| > 1 {
      StreamKeysAre(keys, saved[..|saved| - 1]);
    } else {
      assert saved[..0] == [];
    }
  }

  lemma {:induction false} ShardKeysAre(keys: set<string>, shards: seq<map<string, seq<int>>>)
    requires shards != [] && forall i :: 0 <= i < |shards| ==> shards[i].Keys == keys
    ensures ShardKeys(shards) == keys
  {
    if |shards| > 1 { ShardKeysAre(keys, shards[..|shards| - 1]); }
  }

  function FlatAll(records: seq<seq<Tokens>>): (r: seq<Tokens>)
    ensures |r| == |records| && forall i :: 0 <= i < |r| ==> r[i] == Flatten(records[i])
  {
    seq(|records|, i requires 0 <= i < |records| => Flatten(records[i]))
  }

  lemma LoadedKeys(groups: seq<map<string, seq<Tokens>>>, keys: set<string>, saved: seq<Saved>)
    requires RecordGroups(groups, keys) && groups != [] && saved == SavedAll(groups, keys)
    ensures SegmentMap(saved).Keys == keys == ShardKeys(OffsetsIn(saved))
  {
    var some :| some in keys;
    forall i | 0 <= i < |saved|
      ensures saved[i].streams.Keys == keys == saved[i].offsets.Keys
    {
      SavedField(groups[i], keys, some);
    }
    StreamKeysAre(keys, saved);
    ShardKeysAre(keys, OffsetsIn(saved));
  }

  /** Every shard holds its records of a field, as written. */
  ghost predicate Holds(saved: seq<Saved>, key: string, records: seq<seq<Tokens>>) {
    && |saved| == |records|
    && forall i :: 0 <= i < |saved| ==>
         && key in saved[i].streams && saved[i].streams[key] == Flatten(records[i])
         && key in saved[i].offsets && saved[i].offsets[key] == OffsetsOf(records[i]) && records[i] != []
  }

  lemma SavedHolds(groups: seq<map<string, seq<Tokens>>>, keys: set<string>, key: string)
    requires RecordGroups(groups, keys) && key in keys
    ensures Holds(SavedAll(groups, keys), key, Written(groups, keys, key))
  {
    forall i | 0 <= i < |groups|
      ensures var s := SavedAll(groups, keys)[i];
              && key in groups[i] && key in s.streams && s.streams[key] == Flatten(groups[i][key])
              && key in s.offsets && s.offsets[key] == OffsetsOf(groups[i][key]) && groups[i][key] != []
    {
      SavedField(groups[i], keys, key);
    }
  }

  lemma {:induction false} HeldIsStored(saved: seq<Saved>, key: string, records: seq<seq<Tokens>>)
    requires Holds(saved, key, records)
    ensures Stored(SegmentsOf(saved, key), ShardOffsets(OffsetsIn(saved), key), records)
  {
    SegmentsAre(saved, key, FlatAll(records));
  }

  lemma LoadedField(groups: seq<map<string, seq<Tokens>>>, keys: set<string>, saved: seq<Saved>, key: string)
    requires RecordGroups(groups, keys) && groups != [] && saved == SavedAll(groups, keys) && key in keys
    ensures SegmentMap(saved).Keys == keys == ShardKeys(OffsetsIn(saved))
    ensures Stored(SegmentMap(saved)[key], ShardOffsets(OffsetsIn(saved), key), Written(groups, keys, key))
  {
    LoadedKeys(groups, keys, saved);
    SavedHolds(groups, keys, key);
    HeldIsStored(saved, key, Written(groups, keys, key));
  }

  /** What the store registers: the loaded segments as fields. */
  function Registered(segments: map<string, seq<Tokens>>): map<string, Field> {
    map key | key in segments :: Flat(segments[key])
  }

  lemma SavedCounts(groups: seq<map<string, seq<Tokens>>>, keys: set<string>, saved: seq<Saved>, i: nat)
    requires RecordGroups(groups, keys) && saved == SavedAll(groups, keys) && i < |groups|
    ensures saved[i].offsets.Keys == keys
    ensures forall a, b | a in saved[i].offsets && b in saved[i].offsets ::
              |saved[i].offsets[a]| == |saved[i].offsets[b]|
  {
    assert RecordGroup(groups[i], keys);
    var some :| some in keys;
    SavedField(groups[i], keys, some);
  }

  lemma SavedShardAccepted(groups: seq<map<string, seq<Tokens>>>, keys: set<string>, saved: seq<Saved>, i: nat)
    requires RecordGroups(groups, keys) && saved == SavedAll(groups, keys) && i < |groups|
    ensures ShardAccepted(OffsetsIn(saved), Registered(SegmentMap(saved)), i)
  {
    var shards, data := OffsetsIn(saved), Registered(SegmentMap(saved));
    var some :| some in keys;
    LoadedField(groups, keys, saved, some);
    SavedCounts(groups, keys, saved, i);
    assert some in shards[i];
    forall key | key in shards[i]
      ensures key in data && data[key].Flat? && |data[key].segments| == |shards|
      ensures OffsetsAccepted(shards[i][key], |data[key].segments[i]|)
    {
      LoadedField(groups, keys, saved, key);
      StoredInverts(SegmentMap(saved)[key], ShardOffsets(shards, key), Written(groups, keys, key));
    }
  }

  /**
    The record round trip: whatever record lists are written over however many shards, they load exactly when
    every field of every shard holds a token; the offsets are then accepted, and cut the records back.
   */
  lemma RoundTrip(groups: seq<map<string, seq<Tokens>>>, keys: set<string>, key: string)
    requires RecordGroups(groups, keys) && key in keys && groups != []
    ensures var saved := SavedAll(groups, keys);
            && (SomeTokens(groups) <==> forall i :: 0 <= i < |saved| ==> !HasEmptyStream(saved[i]))
            && ShardsAccepted(OffsetsIn(saved), Registered(SegmentMap(saved)))
            && SegmentMap(saved).Keys == keys == ShardKeys(OffsetsIn(saved))
            && FieldAccepted(SegmentMap(saved)[key], ShardOffsets(OffsetsIn(saved), key))
            && ShardRecords(SegmentMap(saved)[key], ShardOffsets(OffsetsIn(saved), key)) == Written(groups, keys, key)
  {
    var saved := SavedAll(groups, keys);
    LoadsUnlessEmpty(groups, keys);
    forall i | 0 <= i < |groups|
      ensures ShardAccepted(OffsetsIn(saved), Registered(SegmentMap(saved)), i)
    {
      SavedShardAccepted(groups, keys, saved, i);
    }
    LoadedField(groups, keys, saved, key);
    StoredInverts(SegmentMap(saved)[key], ShardOffsets(OffsetsIn(saved), key), Written(groups, keys, key));
  }

  lemma NoEmptyField(groups: seq<map<string, seq<Tokens>>>, keys: set<string>, i: nat)
    requires RecordGroups(groups, keys) && i < |groups|
    ensures forall key :: key in groups[i] ==> groups[i][key] != []
  {
    assert RecordGroup(groups[i], keys);
  }

  method SaveShards(groups: seq<map<string, seq<Tokens>>>, keys: set<string>) returns (saved: seq<Saved>)
    requires RecordGroups(groups, keys)
    ensures saved == SavedAll(groups, keys)
  {
    saved := [];
    for i := 0 to |groups|
      invariant |saved| == i && forall k :: 0 <= k < i ==> saved[k] == SaveShard(groups[k], keys)
    {
      NoEmptyField(groups, keys, i);
      var one := SaveBin(groups[i], keys);
      saved := saved + [one.value];
    }
  }

  /** A field of a store whose shards are accepted and cut into these records. */
  ghost predicate Indexable(shards: seq<map<string, seq<int>>>, data: map<string, Field>, key: string,
        records: seq<seq<Tokens>>)
  {
    && ShardsAccepted(shards, data) && key in ShardKeys(shards) && key in data && data[key].Flat? && records != []
    && FieldAccepted(data[key].segments, ShardOffsets(shards, key))
    && ShardRecords(data[key].segments, ShardOffsets(shards, key)) == records
  }

  lemma WrittenIsIndexable(groups: seq<map<string, seq<Tokens>>>, keys: set<string>, key: string)
    requires RecordGroups(groups, keys) && key in keys && groups != []
    ensures Indexable(OffsetsIn(SavedAll(groups, keys)), Registered(SegmentMap(SavedAll(groups, keys))), key,
                      Written(groups, keys, key))
  {
    RoundTrip(groups, keys, key);
  }

  /** The record side of a store that holds the stored shards of a field. */
  method IndexThenFetch(shards: seq<map<string, seq<int>>>, ghost records: seq<seq<Tokens>>, key: string, index: int,
        store: Store) returns (r: Result<Tokens>)
    requires Indexable(shards, store.data, key, records)
    modifies store
    ensures store.numRecords == |Flatten(records)|
    ensures r == if 0 <= index < store.numRecords then Success(Flatten(records)[index]) else Failure
  {
    var ok := store.BuildRecordIndex(shards);
    r := store.FetchRecord(index, key);
  }

  /** The shards are found in any order, and read as the groups in that order. */
  lemma FoundInAnyOrder(groups: seq<map<string, seq<Tokens>>>, keys: set<string>, order: seq<nat>)
    requires RecordGroups(groups, keys) && Arrangement(order, |groups|)
    ensures RecordGroups(Gather(groups, order), keys)
    ensures Gather(SavedAll(groups, keys), order) == SavedAll(Gather(groups, order), keys)
    ensures |order| == |groups|
  {
    var read := Gather(groups, order);
    forall i | 0 <= i < |read|
      ensures RecordGroup(read[i], keys)
    {
      assert RecordGroup(groups[order[i]], keys);
    }
    assert |multiset(order)| == |multiset(Range(|groups|))|;
  }

  lemma EveryShardRead(order: seq<nat>, n: nat, i: nat)
    requires Arrangement(order, n) && i < n
    ensures i in order
  {
    assert Range(n)[i] == i;
    assert i in multiset(Range(n));
  }

  lemma TokensInAnyOrder(groups: seq<map<string, seq<Tokens>>>, order: seq<nat>)
    requires Arrangement(order, |groups|)
    ensures SomeTokens(Gather(groups, order)) <==> SomeTokens(groups)
  {
    var read := Gather(groups, order);
    forall i, key | SomeTokens(read) && 0 <= i < |groups| && key in groups[i]
      ensures Flatten(groups[i][key]) != []
    {
      EveryShardRead(order, |groups|, i);
      var k :| 0 <= k < |order| && order[k] == i;
      assert key in read[k];
    }
    forall k, key | SomeTokens(groups) && 0 <= k < |read| && key in read[k]
      ensures Flatten(read[k][key]) != []
    {
      assert key in groups[order[k]];
    }
  }

  /** What is read of a field: its record lists in the order their shards were found. */
  ghost function ReadBack(groups: seq<map<string, seq<Tokens>>>, keys: set<string>, key: string,
          order: seq<nat>): seq<Tokens>
    requires RecordGroups(groups, keys) && key in keys && Arrangement(order, |groups|)
  {
    Flatten(Gather(Written(groups, keys, key), order))
  }

  lemma ReadBackIs(groups: seq<map<string, seq<Tokens>>>, keys: set<string>, key: string, order: seq<nat>)
    requires RecordGroups(groups, keys) && key in keys && Arrangement(order, |groups|)
    ensures RecordGroups(Gather(groups, order), keys)
    ensures Written(Gather(groups, order), keys, key) == Gather(Written(groups, keys, key), order)
    ensures multiset(ReadBack(groups, keys, key, order)) == multiset(Flatten(Written(groups, keys, key)))
  {
    FoundInAnyOrder(groups, keys, order);
    ReadInAnyOrder(Written(groups, keys, key), order);
  }

  /**
    Written, found in any order, loaded, indexed and fetched: every record comes back, shard after shard as found,
    and the count is the total. The one way to lose what was written is a shard with a field of empty records
    only, which does not load.
   */
  method WriteThenFetch(groups: seq<map<string, seq<Tokens>>>, keys: set<string>, order: seq<nat>, key: string,
        index: int, store: Store) returns (loaded: bool, r: Result<Tokens>)
    requires RecordGroups(groups, keys) && key in keys && groups != [] && Arrangement(order, |groups|)
    requires store.stride > 0 && !store.segmentsAreRecords
    modifies store
    ensures loaded <==> SomeTokens(groups)
    ensures !loaded ==> unchanged(store) && r == Failure
    ensures multiset(ReadBack(groups, keys, key, order)) == multiset(Flatten(Written(groups, keys, key)))
    ensures loaded ==> store.numRecords == |ReadBack(groups, keys, key, order)|
    ensures loaded ==>
              r == if 0 <= index < store.numRecords then Success(ReadBack(groups, keys, key, order)[index]) else Failure
  {
    var saved := SaveShards(groups, keys);
    FoundInAnyOrder(groups, keys, order);
    ReadBackIs(groups, keys, key, order);
    TokensInAnyOrder(groups, order);
    var found := Gather(saved, order);
    LoadsUnlessEmpty(Gather(groups, order), keys);
    var segments := LoadShards(found);
    if segments == Failure { return false, Failure; }
    store.Normalize(Registered(segments.value));
    WrittenIsIndexable(Gather(groups, order), keys, key);
    r := IndexThenFetch(OffsetsIn(found), Written(Gather(groups, order), keys, key), key, index, store);
    loaded := true;
  }

  /** A shard whose only field holds one empty record is written, and does not load. */
  method EmptyRecordLost() returns (saved: Result<Saved>, loaded: Result<map<string, seq<Tokens>>>)
    ensures saved == Success(Saved(map["sequence" := []], map["sequence" := [0, 0]]))
    ensures loaded == Failure
  {
    var group: map<string, seq<Tokens>> := map["sequence" := [[]]];
    saved := SaveBin(group, {"sequence"});
    assert Flatten(group["sequence"]) == [] by { FlattenOne<int>([]); }
    assert OffsetsOf(group["sequence"]) == [0, 0];
    assert saved.value == Saved(map["sequence" := []], map["sequence" := [0, 0]]);
    assert saved.value.streams["sequence"] == [];
    loaded := LoadShards([saved.value]);
  }
}
