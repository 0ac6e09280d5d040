/** Gathering rendered records into token-aligned columns, and the position ids of the packs. */
module Preparation {
  import opened Sequences
  import opened Arithmetic
  import opened BestFit
  import opened Packing
  import opened Collate

  /** What a record carries under a name: token ids, or one list of them per response. */
  datatype Value = Flat(ids: Row) | Nested(rows: seq<Row>)

  function Size(v: Value): nat {
    match v case Flat(ids) => |ids| case Nested(rows) => |rows|
  }

  type Record = map<string, Value>

  /** A rendered record, and the ids that count its tokens: the first flat list it carries. */
  datatype Rendered = Rendered(result: Record, ids: Row)

  type Columns = map<string, seq<Value>>

  // ---------- What the bucket holds ----------

  /** An omitted mask means "train on everything"; any other omitted field is zero. */
  function Filler(key: string): int {
    if key == "loss_mask" || (|key| >= 5 && key[|key| - 5..] == "_mask") then 1 else 0
  }

  function KeysOf(records: seq<Rendered>): set<string> {
    if records == [] then {} else KeysOf(records[..|records| - 1]) + records[|records| - 1].result.Keys
  }

  /** The first record that carries a field. */
  function FirstWith(records: seq<Rendered>, key: string): (i: nat)
    ensures i <= |records| && (forall k :: 0 <= k < i ==> key !in records[k].result)
    ensures i < |records| ==> key in records[i].result
    ensures i < |records| <==> key in KeysOf(records)
  {
    if records == [] then 0
    else
      var n := |records| - 1;
      var i := FirstWith(records[..n], key);
      if i < n || key in records[n].result then i else n + 1
  }

  /** The record a column starts at: its first, or the first with a sequence, since back-filling copies those. */
  function Start(records: seq<Rendered>, key: string): nat {
    Min(FirstWith(records, key), FirstWith(records, "sequence"))
  }

  /** How long a record is: its sequence, or its first flat ids. */
  function TokenCount(r: Rendered): nat {
    if "sequence" in r.result then Size(r.result["sequence"]) else |r.ids|
  }

  /** A record's value in a column: its own, or filler, sized differently before and after the field is known. */
  function EntryAt(records: seq<Rendered>, key: string, i: nat): Value
    requires i < |records|
  {
    var r := records[i];
    if key in r.result then r.result[key]
    else Flat(Fill(Filler(key), if i < FirstWith(records, key) then TokenCount(r) else |r.ids|))
  }

  function Column(records: seq<Rendered>, key: string): (c: seq<Value>)
    ensures |c| == |records| - Start(records, key)
    ensures forall t :: 0 <= t < |c| ==> c[t] == EntryAt(records, key, Start(records, key) + t)
  {
    seq(|records| - Start(records, key), t requires 0 <= t < |records| - Start(records, key) =>
      EntryAt(records, key, Start(records, key) + t))
  }

  function AllColumns(records: seq<Rendered>): (c: Columns)
    ensures c.Keys == KeysOf(records)
  {
    map key | key in KeysOf(records) :: Column(records, key)
  }

  /** A bucket's column of one field is the one the records call for. */
  ghost predicate Keeps(c: Columns, records: seq<Rendered>, key: string) {
    key in c && c[key] == Column(records, key)
  }

  lemma ColumnsAre(c: Columns, records: seq<Rendered>)
    requires c.Keys == KeysOf(records) && forall key :: key in c ==> Keeps(c, records, key)
    ensures c == AllColumns(records)
  {
    forall key | key in c
      ensures c[key] == AllColumns(records)[key]
    {
      assert Keeps(c, records, key);
    }
  }

  lemma KeysGrow(records: seq<Rendered>, r: Rendered)
    ensures KeysOf(records + [r]) == KeysOf(records) + r.result.Keys
  {
    assert (records + [r])[..|records|] == records;
  }

  lemma FirstGrows(records: seq<Rendered>, r: Rendered, key: string)
    ensures FirstWith(records + [r], key)
         == if key in KeysOf(records) then FirstWith(records, key)
            else if key in r.result then |records| else |records| + 1
  {
    assert (records + [r])[..|records|] == records;
  }

  /** A record's own value, or filler as long as its ids. */
  function Full(r: Rendered, key: string): Value {
    if key in r.result then r.result[key] else Flat(Fill(Filler(key), |r.ids|))
  }

  lemma KnownEntry(records: seq<Rendered>, r: Rendered, key: string, i: nat)
    requires key in KeysOf(records) && i <= |records|
    ensures EntryAt(records + [r], key, i) == if i < |records| then EntryAt(records, key, i) else Full(r, key)
  {
    FirstGrows(records, r, key);
    assert (records + [r])[i] == if i < |records| then records[i] else r;
  }

  /** A field that earlier records had: every column gains the new record's value. */
  lemma {:induction false} KnownColumnGrows(records: seq<Rendered>, r: Rendered, key: string)
    requires key in KeysOf(records)
    ensures Column(records + [r], key) == Column(records, key) + [Full(r, key)]
  {
    var all, start := records + [r], Start(records, key);
    FirstGrows(records, r, key);
    FirstGrows(records, r, "sequence");
    assert Start(all, key) == start;
    forall t: nat | t <= |records| - start
      ensures EntryAt(all, key, start + t) == (Column(records, key) + [Full(r, key)])[t]
    {
      KnownEntry(records, r, key, start + t);
    }
  }

  function FillAll(key: string, sequences: seq<Value>): (r: seq<Value>)
    ensures |r| == |sequences| && forall i :: 0 <= i < |r| ==> r[i] == Flat(Fill(Filler(key), Size(sequences[i])))
  {
    seq(|sequences|, i requires 0 <= i < |sequences| => Flat(Fill(Filler(key), Size(sequences[i]))))
  }

  /** The back-filled value of an earlier record is as long as the record's sequence. */
  lemma NewEntry(records: seq<Rendered>, r: Rendered, key: string, i: nat)
    requires key !in KeysOf(records) && key in r.result && FirstWith(records, "sequence") <= i < |records|
    ensures EntryAt(records + [r], key, i) == Flat(Fill(Filler(key), Size(EntryAt(records, "sequence", i))))
  {
    FirstGrows(records, r, key);
    assert (records + [r])[i] == records[i];
    assert key !in records[i].result;
    assert Size(EntryAt(records, "sequence", i)) == TokenCount(records[i]);
  }

  lemma NewStart(records: seq<Rendered>, r: Rendered, key: string)
    requires key !in KeysOf(records) && key in r.result
    ensures Start(records + [r], key)
         == if "sequence" in KeysOf(records) then Start(records, "sequence") else |records|
    ensures FirstWith(records + [r], key) == |records|
  {
    FirstGrows(records, r, key);
    FirstGrows(records, r, "sequence");
  }

  /** A field that no earlier record had: the sequences so far are back-filled, and there may be none. */
  lemma {:induction false} NewColumnGrows(records: seq<Rendered>, r: Rendered, key: string, sequences: seq<Value>)
    requires key !in KeysOf(records) && key in r.result
    requires sequences == if "sequence" in KeysOf(records) then Column(records, "sequence") else []
    ensures Column(records + [r], key) == FillAll(key, sequences) + [Full(r, key)]
  {
    var all, start := records + [r], |records| - |sequences|;
    var column, grown := Column(all, key), FillAll(key, sequences) + [Full(r, key)];
    NewStart(records, r, key);
    assert |column| == |grown| == |sequences| + 1;
    forall t: nat | t < |sequences|
      ensures column[t] == grown[t]
    {
      NewEntry(records, r, key, start + t);
      assert column[t] == EntryAt(all, key, start + t);
    }
    assert column[|sequences|] == grown[|sequences|] by {
      assert all[|records|] == r && column[|sequences|] == EntryAt(all, key, |records|);
    }
  }

  /** The appending loop over the bucket's keys. */
  function AppendEntries(grown: Columns, r: Rendered): (c: Columns)
    ensures c.Keys == grown.Keys
    ensures forall key :: key in c ==> c[key] == grown[key] + [Full(r, key)]
  {
    map key | key in grown :: grown[key] + [Full(r, key)]
  }

  /** The columns a record introduces. */
  function Introduced(fields: Columns, r: Rendered): (c: Columns)
    ensures c.Keys == r.result.Keys - fields.Keys
    ensures forall key :: key in c ==> c[key] == FillAll(key, if "sequence" in fields then fields["sequence"] else [])
  {
    var sequences := if "sequence" in fields then fields["sequence"] else [];
    map key | key in r.result.Keys - fields.Keys :: FillAll(key, sequences)
  }

  lemma ColumnGrows(records: seq<Rendered>, r: Rendered, fields: Columns, next: Columns, key: string)
    requires fields == AllColumns(records) && next == AppendEntries(fields + Introduced(fields, r), r)
    requires key in KeysOf(records) + r.result.Keys
    ensures Keeps(next, records + [r], key)
  {
    if key in KeysOf(records) {
      KnownColumnGrows(records, r, key);
    } else {
      NewColumnGrows(records, r, key, if "sequence" in fields then fields["sequence"] else []);
    }
  }

  lemma ColumnsGrow(records: seq<Rendered>, r: Rendered, fields: Columns, next: Columns)
    requires fields == AllColumns(records) && next == AppendEntries(fields + Introduced(fields, r), r)
    ensures next == AllColumns(records + [r])
  {
    KeysGrow(records, r);
    forall key | key in next
      ensures Keeps(next, records + [r], key)
    {
      ColumnGrows(records, r, fields, next, key);
    }
    ColumnsAre(next, records + [r]);
  }

  class Bucket {
    var fields: Columns
    ghost var records: seq<Rendered>

    ghost predicate Valid()
      reads this
    {
      fields == AllColumns(records)
    }

    constructor ()
      ensures Valid() && records == []
    {
      fields, records := map[], [];
    }

    /** Back-fill the fields this record introduces, then append it to every column. */
    method Accumulate(result: Record, ids: Row)
      requires Valid()
      modifies this
      ensures Valid() && records == old(records) + [Rendered(result, ids)]
    {
      var r := Rendered(result, ids);
      var next := AppendEntries(fields + Introduced(fields, r), r);
      ColumnsGrow(records, r, fields, next);
      fields := next;
      records := records + [r];
    }
  }

  /** What a column holds of a record: its own value, or ones for an omitted mask and zeros for any other field. */
  lemma ColumnHolds(records: seq<Rendered>, key: string, i: nat)
    requires Start(records, key) <= i < |records|
    ensures var v := Column(records, key)[i - Start(records, key)];
            if key in records[i].result then v == records[i].result[key]
            else v.Flat? && forall k :: 0 <= k < |v.ids| ==>
                   v.ids[k] == if key == "loss_mask" || (|key| >= 5 && key[|key| - 5..] == "_mask") then 1 else 0
  {
    assert Column(records, key)[i - Start(records, key)] == EntryAt(records, key, i);
  }

  /** No record's own value is left out of its column. */
  lemma OwnValueKept(records: seq<Rendered>, key: string, i: nat)
    requires i < |records| && key in records[i].result
    ensures Start(records, key) <= i && key in AllColumns(records)
    ensures AllColumns(records)[key][i - Start(records, key)] == records[i].result[key]
  {
    assert FirstWith(records, key) <= i;
    ColumnHolds(records, key, i);
  }

  // ---------- When the columns line up ----------

  /** Every column has one value for every record. */
  ghost predicate LinedUp(records: seq<Rendered>) {
    forall key :: key in KeysOf(records) ==> |Column(records, key)| == |records|
  }

  /**
    The columns line up exactly when the first record has a sequence or has every field that any record has.
    Otherwise a field that first appears later is not back-filled, and its values sit at other records' places.
   */
  lemma LinedUpExactly(records: seq<Rendered>)
    requires records != []
    ensures LinedUp(records)
       <==> "sequence" in records[0].result || KeysOf(records) <= records[0].result.Keys
  {
    forall key
      ensures FirstWith(records, key) == 0 <==> key in records[0].result
    {
    }
    if "sequence" !in records[0].result && !(KeysOf(records) <= records[0].result.Keys) {
      var key :| key in KeysOf(records) && key !in records[0].result;
      assert |Column(records, key)| < |records|;
    }
  }

  // ---------- When an omitted mask means all ones ----------

  /** The name of the mask that a field's own mask is kept under, and left out when it is all ones. */
  function MaskOf(field: string): (mask: string)
    ensures Filler(mask) == 1
  {
    var mask := field + "_mask";
    assert mask[|mask| - 5..] == "_mask";
    mask
  }

  function Ones(v: Value): Value {
    match v
    case Flat(ids) => Flat(Fill(1, |ids|))
    case Nested(rows) => Nested(seq(|rows|, i requires 0 <= i < |rows| => Fill(1, |rows[i]|)))
  }

  /** The record with the mask of a field spelt out. */
  function Spelt(r: Rendered, field: string): Rendered
    requires field in r.result
  {
    if MaskOf(field) in r.result then r else r.(result := r.result[MaskOf(field) := Ones(r.result[field])])
  }

  /** Every record has the field, as the multi-output builder sees to. */
  ghost predicate AllHave(records: seq<Rendered>, field: string) {
    forall i :: 0 <= i < |records| ==> field in records[i].result
  }

  function SpeltAll(records: seq<Rendered>, field: string): (r: seq<Rendered>)
    requires AllHave(records, field)
    ensures |r| == |records| && forall i :: 0 <= i < |r| ==> r[i] == Spelt(records[i], field)
  {
    seq(|records|, i requires 0 <= i < |records| => Spelt(records[i], field))
  }

  /** How long the bucket makes the mask of a record that omits it: before the mask is known, and after. */
  function FilledLength(records: seq<Rendered>, mask: string, i: nat): nat
    requires i < |records|
  {
    if i < FirstWith(records, mask) then TokenCount(records[i]) else |records[i].ids|
  }

  /** A record's mask is its own, or is filled in at the length of the field. */
  ghost predicate MaskFits(records: seq<Rendered>, field: string, i: nat)
    requires i < |records| && field in records[i].result
  {
    MaskOf(field) in records[i].result
    || (records[i].result[field].Flat? && FilledLength(records, MaskOf(field), i) == Size(records[i].result[field]))
  }

  lemma MaskEntry(records: seq<Rendered>, field: string, i: nat)
    requires i < |records| && field in records[i].result
    ensures EntryAt(records, MaskOf(field), i) == Spelt(records[i], field).result[MaskOf(field)]
       <==> MaskFits(records, field, i)
  {
    var mask, v := MaskOf(field), records[i].result[field];
    if mask !in records[i].result {
      var n := FilledLength(records, mask, i);
      assert EntryAt(records, mask, i) == Flat(Fill(1, n));
      assert |Fill(1, n)| == n;
      assert v.Flat? && n == |v.ids| ==> Ones(v) == Flat(Fill(1, n));
    }
  }

  lemma {:induction false} SpeltColumn(records: seq<Rendered>, field: string)
    requires records != [] && AllHave(records, field)
    ensures var c := Column(SpeltAll(records, field), MaskOf(field));
            && |c| == |records|
            && forall i :: 0 <= i < |c| ==> c[i] == Spelt(records[i], field).result[MaskOf(field)]
  {
    var mask, spelt := MaskOf(field), SpeltAll(records, field);
    assert mask in spelt[0].result && FirstWith(spelt, mask) == 0;
    forall i | 0 <= i < |records|
      ensures Column(spelt, mask)[i] == Spelt(records[i], field).result[mask]
    {
      assert Column(spelt, mask)[i] == EntryAt(spelt, mask, 0 + i);
    }
  }

  lemma {:induction false} StartsAtZero(records: seq<Rendered>, mask: string)
    requires records != []
    ensures Start(records, mask) == 0 <==> "sequence" in records[0].result || mask in records[0].result
  {
    assert FirstWith(records, mask) == 0 <==> mask in records[0].result;
    assert FirstWith(records, "sequence") == 0 <==> "sequence" in records[0].result;
  }

  /** Every mask that was filled in got the length of its field. */
  ghost predicate MasksFit(records: seq<Rendered>, field: string)
    requires AllHave(records, field)
  {
    forall i :: 0 <= i < |records| ==> MaskFits(records, field, i)
  }

  lemma {:induction false} PlacedMasks(records: seq<Rendered>, field: string, left: seq<Value>, right: seq<Value>)
    requires AllHave(records, field) && |left| == |right| == |records|
    requires forall i :: 0 <= i < |records| ==> left[i] == EntryAt(records, MaskOf(field), i)
    requires forall i :: 0 <= i < |records| ==> right[i] == Spelt(records[i], field).result[MaskOf(field)]
    ensures left == right <==> MasksFit(records, field)
  {
    forall i | 0 <= i < |records|
      ensures left[i] == right[i] <==> MaskFits(records, field, i)
    {
      MaskEntry(records, field, i);
    }
    if MasksFit(records, field) { assert left == right; }
  }

  lemma {:induction false} PlainColumn(records: seq<Rendered>, key: string)
    requires Start(records, key) == 0
    ensures |Column(records, key)| == |records|
    ensures forall i :: 0 <= i < |records| ==> Column(records, key)[i] == EntryAt(records, key, i)
  {
    forall i | 0 <= i < |records|
      ensures Column(records, key)[i] == EntryAt(records, key, i)
    {
      assert Column(records, key)[i] == EntryAt(records, key, 0 + i);
    }
  }

  /**
    A column of masks, some omitted, is the column of masks written out as ones exactly when the first record has a
    sequence or the mask, and every mask filled in got the length of the field it masks.
   */
  lemma {:induction false} MaskColumnExact(records: seq<Rendered>, field: string)
    requires records != [] && AllHave(records, field)
    ensures Column(records, MaskOf(field)) == Column(SpeltAll(records, field), MaskOf(field))
       <==> ("sequence" in records[0].result || MaskOf(field) in records[0].result) && MasksFit(records, field)
  {
    var mask := MaskOf(field);
    SpeltColumn(records, field);
    StartsAtZero(records, mask);
    if Start(records, mask) == 0 {
      PlainColumn(records, mask);
      PlacedMasks(records, field, Column(records, mask), Column(SpeltAll(records, field), mask));
    }
  }

  lemma {:induction false} NoSequence(records: seq<Rendered>, i: nat)
    requires "sequence" !in KeysOf(records) && i < |records|
    ensures "sequence" !in records[i].result && TokenCount(records[i]) == |records[i].ids|
  {
    assert FirstWith(records, "sequence") == |records|;
  }

  /** For preference and group outputs: the first record has the mask, and the others mask what counts their tokens. */
  lemma {:induction false} PreferenceMaskExact(records: seq<Rendered>, field: string)
    requires records != [] && AllHave(records, field) && "sequence" !in KeysOf(records)
    ensures Column(records, MaskOf(field)) == Column(SpeltAll(records, field), MaskOf(field))
       <==> MaskOf(field) in records[0].result
            && forall i :: 0 <= i < |records| && MaskOf(field) !in records[i].result ==>
                 records[i].result[field].Flat? && |records[i].ids| == Size(records[i].result[field])
  {
    MaskColumnExact(records, field);
    NoSequence(records, 0);
    forall i | 0 <= i < |records|
      ensures MaskFits(records, field, i)
         <==> MaskOf(field) in records[i].result
              || (records[i].result[field].Flat? && |records[i].ids| == Size(records[i].result[field]))
    {
      NoSequence(records, i);
    }
  }

  /** A preference pair whose rejected answer trains as a whole, and one that trains on its second token only. */
  const PLAIN_PAIR: Record := map["chosen" := Flat([1]), "rejected" := Flat([2, 3])]
  const MASKED_PAIR: Record := PLAIN_PAIR["rejected_mask" := Flat([0, 1])]

  ghost predicate OneMasked(first: Record, second: Record) {
    (first == PLAIN_PAIR && second == MASKED_PAIR) || (first == MASKED_PAIR && second == PLAIN_PAIR)
  }

  lemma PairKeys(first: Record, second: Record)
    requires OneMasked(first, second)
    ensures KeysOf([Rendered(first, [1]), Rendered(second, [1])]) == MASKED_PAIR.Keys
  {
    var one, two := Rendered(first, [1]), Rendered(second, [1]);
    KeysGrow([], one);
    KeysGrow([one], two);
    assert [] + [one] == [one] && [one] + [two] == [one, two];
  }

  lemma PairColumn(first: Record, second: Record)
    requires OneMasked(first, second)
    ensures Column([Rendered(first, [1]), Rendered(second, [1])], "rejected_mask")
         == if first == MASKED_PAIR then [Flat([0, 1]), Flat([1])] else [Flat([0, 1])]
  {
    var records := [Rendered(first, [1]), Rendered(second, [1])];
    PairKeys(first, second);
    assert FirstWith(records, "rejected_mask") == if first == MASKED_PAIR then 0 else 1;
    assert Fill(1, 1) == [1];
  }

  /** Neither order makes an omitted mask mean all ones. */
  lemma NotSpelt(first: Record, second: Record)
    requires OneMasked(first, second)
    ensures var records := [Rendered(first, [1]), Rendered(second, [1])];
            && AllHave(records, "rejected")
            && Column(records, "rejected_mask") != Column(SpeltAll(records, "rejected"), "rejected_mask")
  {
    var records := [Rendered(first, [1]), Rendered(second, [1])];
    PairKeys(first, second);
    PreferenceMaskExact(records, "rejected");
    assert MaskOf("rejected") == "rejected_mask";
    if first == MASKED_PAIR { assert "rejected_mask" !in records[1].result; }
  }

  /** Two preference pairs, of which only the second masks its rejected answer: its mask becomes the first one's. */
  lemma MisplacedMask()
    ensures var records := [Rendered(PLAIN_PAIR, [1]), Rendered(MASKED_PAIR, [1])];
            && !LinedUp(records) && AllHave(records, "rejected")
            && AllColumns(records)["rejected_mask"] == [Flat([0, 1])]
            && Column(SpeltAll(records, "rejected"), "rejected_mask") != [Flat([0, 1])]
  {
    PairKeys(PLAIN_PAIR, MASKED_PAIR);
    PairColumn(PLAIN_PAIR, MASKED_PAIR);
    NotSpelt(PLAIN_PAIR, MASKED_PAIR);
    LinedUpExactly([Rendered(PLAIN_PAIR, [1]), Rendered(MASKED_PAIR, [1])]);
  }

  /** The other order: the omitted mask is as long as the chosen answer, not as the rejected one it masks. */
  lemma ShortMask()
    ensures var records := [Rendered(MASKED_PAIR, [1]), Rendered(PLAIN_PAIR, [1])];
            && LinedUp(records) && AllHave(records, "rejected")
            && Column(records, "rejected_mask") == [Flat([0, 1]), Flat([1])]
            && Column(SpeltAll(records, "rejected"), "rejected_mask") != [Flat([0, 1]), Flat([1])]
  {
    PairKeys(MASKED_PAIR, PLAIN_PAIR);
    PairColumn(MASKED_PAIR, PLAIN_PAIR);
    NotSpelt(MASKED_PAIR, PLAIN_PAIR);
    LinedUpExactly([Rendered(MASKED_PAIR, [1]), Rendered(PLAIN_PAIR, [1])]);
  }

  // ---------- Single output ----------

  /** A record of the single-output builder: its sequence is what counts its tokens. */
  ghost predicate SingleOutput(records: seq<Rendered>) {
    forall i :: 0 <= i < |records| ==> "sequence" in records[i].result && TokenCount(records[i]) == |records[i].ids|
  }

  /** Then a column is one value per record, as if no record had omitted it. */
  lemma SingleEntry(records: seq<Rendered>, key: string, i: nat)
    requires SingleOutput(records) && i < |records|
    ensures Start(records, key) == 0 && |Column(records, key)| == |records|
    ensures Column(records, key)[i] == Full(records[i], key)
  {
    assert "sequence" in records[0].result && FirstWith(records, "sequence") == 0;
    assert Column(records, key)[i] == EntryAt(records, key, 0 + i);
  }

  /** The record with its omitted mask spelt out as ones. */
  function Explicit(r: Rendered): Rendered {
    if "loss_mask" in r.result then r else r.(result := r.result["loss_mask" := Flat(Fill(1, |r.ids|))])
  }

  function ExplicitAll(records: seq<Rendered>): (r: seq<Rendered>)
    ensures |r| == |records| && forall i :: 0 <= i < |r| ==> r[i] == Explicit(records[i])
  {
    seq(|records|, i requires 0 <= i < |records| => Explicit(records[i]))
  }

  lemma {:induction false} ExplicitKeys(records: seq<Rendered>)
    ensures KeysOf(ExplicitAll(records)) == KeysOf(records) + if records == [] then {} else {"loss_mask"}
  {
    if records != [] {
      var n := |records| - 1;
      ExplicitKeys(records[..n]);
      assert ExplicitAll(records)[..n] == ExplicitAll(records[..n]);
    }
  }

  lemma ExplicitFull(r: Rendered, key: string)
    ensures Full(Explicit(r), key) == Full(r, key)
  {
    assert Filler("loss_mask") == 1;
  }

  lemma ExplicitSingle(records: seq<Rendered>)
    requires SingleOutput(records)
    ensures SingleOutput(ExplicitAll(records))
  {
    forall i | 0 <= i < |records|
      ensures "sequence" in Explicit(records[i]).result && TokenCount(Explicit(records[i])) == |records[i].ids|
    {
      assert "sequence" in records[i].result && "sequence" != "loss_mask";
    }
  }

  lemma {:induction false} ExplicitColumn(records: seq<Rendered>, key: string)
    requires SingleOutput(records) && records != []
    ensures Column(ExplicitAll(records), key) == Column(records, key)
  {
    ExplicitSingle(records);
    var left, right := Column(ExplicitAll(records), key), Column(records, key);
    SingleEntry(records, key, 0);
    SingleEntry(ExplicitAll(records), key, 0);
    forall i | 0 <= i < |records|
      ensures left[i] == right[i]
    {
      SingleEntry(records, key, i);
      SingleEntry(ExplicitAll(records), key, i);
      ExplicitFull(records[i], key);
    }
  }

  /** What record mode adds when no record carried a mask. */
  function WithMask(keys: Columns): Columns {
    if "loss_mask" in keys || "sequence" !in keys then keys
    else keys["loss_mask" := FillAll("loss_mask", keys["sequence"])]
  }

  lemma {:induction false} AddedMask(records: seq<Rendered>)
    requires SingleOutput(records) && records != [] && "loss_mask" !in KeysOf(records)
    ensures FillAll("loss_mask", Column(records, "sequence")) == Column(records, "loss_mask")
  {
    SingleEntry(records, "sequence", 0);
    SingleEntry(records, "loss_mask", 0);
    forall i | 0 <= i < |records|
      ensures FillAll("loss_mask", Column(records, "sequence"))[i] == Column(records, "loss_mask")[i]
    {
      SingleEntry(records, "sequence", i);
      SingleEntry(records, "loss_mask", i);
      assert FirstWith(records, "loss_mask") == |records|;
    }
  }

  lemma MaskedColumn(records: seq<Rendered>, key: string)
    requires SingleOutput(records) && records != [] && key in KeysOf(records) + {"loss_mask"}
    ensures Keeps(WithMask(AllColumns(records)), ExplicitAll(records), key)
  {
    assert "sequence" in records[0].result && FirstWith(records, "sequence") == 0;
    if "loss_mask" !in KeysOf(records) { AddedMask(records); }
    ExplicitColumn(records, key);
  }

  lemma MaskedKeys(records: seq<Rendered>)
    requires SingleOutput(records) && records != []
    ensures WithMask(AllColumns(records)).Keys == KeysOf(ExplicitAll(records)) == KeysOf(records) + {"loss_mask"}
  {
    assert "sequence" in records[0].result && FirstWith(records, "sequence") == 0;
    ExplicitKeys(records);
  }

  /** An omitted mask behaves as all ones, whichever records omit it. */
  lemma {:induction false} OmittedMaskIsOnes(records: seq<Rendered>)
    requires SingleOutput(records) && records != []
    ensures WithMask(AllColumns(records)) == AllColumns(ExplicitAll(records))
  {
    var masked := WithMask(AllColumns(records));
    MaskedKeys(records);
    forall key | key in masked
      ensures Keeps(masked, ExplicitAll(records), key)
    {
      MaskedColumn(records, key);
    }
    ColumnsAre(masked, ExplicitAll(records));
  }

  // ---------- Position ids of the packs ----------

  /** One running count over all packs. */
  method ContinuousPositions(lengths: seq<Row>) returns (r: seq<Row>)
    requires forall b, i :: 0 <= b < |lengths| && 0 <= i < |lengths[b]| ==> lengths[b][i] > 0
    ensures |r| == |lengths| && forall b :: 0 <= b < |r| ==> |r[b]| == Sum(lengths[b])
    ensures Flatten(r) == seq(|Flatten(r)|, i => i)
  {
    var start := 0;
    r := [];
    for b := 0 to |lengths|
      invariant |r| == b && forall k :: 0 <= k < b ==> |r[k]| == Sum(lengths[k])
      invariant start == |Flatten(r)| && Flatten(r) == seq(start, i => i)
    {
      SumNonNegative(lengths[b]);
      var end := start + Sum(lengths[b]);
      var next := r + [seq(end - start, i => start + i)];
      assert next[..b] == r;
      r := next;
      start := end;
    }
  }

  lemma {:induction false} RenumberedFlat(chunks: seq<Row>)
    ensures Flatten(RenumberAll("position_ids", chunks)) == Flatten(Positions(Lengths(chunks)))
  {
    if chunks != [] {
      var n := |chunks| - 1;
      RenumberedFlat(chunks[..n]);
      assert RenumberAll("position_ids", chunks)[..n] == RenumberAll("position_ids", chunks[..n]);
      assert Positions(Lengths(chunks))[..n] == Positions(Lengths(chunks[..n]));
    }
  }

  lemma BinRestarts(raw: seq<Row>, lengths: Row, bin: seq<nat>)
    requires Lengths(raw) == lengths && forall i :: 0 <= i < |bin| ==> bin[i] < |raw|
    ensures Flatten(Gather(RenumberAll("position_ids", raw), bin)) == Flatten(Positions(Gather(lengths, bin)))
  {
    var picked := Gather(raw, bin);
    RenumberedFlat(picked);
    assert RenumberAll("position_ids", picked) == Gather(RenumberAll("position_ids", raw), bin);
    assert Lengths(picked) == Gather(lengths, bin);
  }

  /** A packed position field restarts at every segment, exactly as collation numbers the pack. */
  lemma PackedPositionsRestart(keys: Fields, maxSeqLen: int, maxPackedLen: int, overflow: string, packing: string,
        mode: string)
    requires !BadArguments(keys, maxSeqLen, maxPackedLen, overflow, packing, mode)
    requires "sequence" in keys && "position_ids" in keys
    ensures var packed := Packed(keys, maxSeqLen, maxPackedLen, overflow, packing, mode);
            && |packed["position_ids"]| == |packed["seq_lengths"]|
            && forall b :: 0 <= b < |packed["seq_lengths"]| ==>
                 packed["position_ids"][b] == Flatten(Positions(packed["seq_lengths"][b]))
  {
    var chunks := AllChunks(keys, Limit(maxSeqLen, maxPackedLen), overflow, mode);
    PackReady(keys, maxSeqLen, maxPackedLen, overflow, packing, mode);
    var lengths := Lengths(chunks["sequence"]);
    var bins := BinPlan(lengths, maxPackedLen, packing);
    var raw := ChunkRows(keys["position_ids"], Limit(maxSeqLen, maxPackedLen), overflow, mode);
    assert Lengths(raw) == Lengths(chunks["position_ids"]) == lengths;
    forall b | 0 <= b < |bins|
      ensures Flatten(Gather(chunks["position_ids"], bins[b])) == Flatten(Positions(Gather(lengths, bins[b])))
    {
      BinRestarts(raw, lengths, bins[b]);
    }
  }

  lemma {:induction false} GatheredLoad(chunks: seq<Row>, lengths: seq<int>, bin: seq<nat>)
    requires lengths == Lengths(chunks) && forall k :: 0 <= k < |bin| ==> bin[k] < |chunks|
    ensures |Flatten(Gather(chunks, bin))| == Sum(Gather(lengths, bin)) == Load(bin, lengths)
  {
    if bin != [] {
      var n := |bin| - 1;
      GatheredLoad(chunks, lengths, bin[..n]);
      assert Gather(chunks, bin)[..n] == Gather(chunks, bin[..n]);
      assert Gather(lengths, bin)[..n] == Gather(lengths, bin[..n]);
    }
  }

  lemma PackLength(chunks: seq<Row>, lengths: seq<int>, bin: seq<nat>, capacity: int)
    requires lengths == Lengths(chunks) && ValidLengths(lengths, capacity)
    requires bin != [] && forall k :: 0 <= k < |bin| ==> bin[k] < |chunks|
    requires Load(bin, lengths) <= capacity
    ensures 0 < |Flatten(Gather(chunks, bin))| == Sum(Gather(lengths, bin)) <= capacity
  {
    GatheredLoad(chunks, lengths, bin);
    LoadAtLeastMember(bin, lengths, 0);
  }

  /** Every field of a pack is aligned with its tokens, and no pack exceeds the packed length. */
  lemma PacksAligned(keys: Fields, maxSeqLen: int, maxPackedLen: int, overflow: string, packing: string,
        mode: string, name: string, b: nat)
    requires !BadArguments(keys, maxSeqLen, maxPackedLen, overflow, packing, mode) && "sequence" in keys && name in keys
    requires b < |Packed(keys, maxSeqLen, maxPackedLen, overflow, packing, mode)["seq_lengths"]|
    ensures var packed := Packed(keys, maxSeqLen, maxPackedLen, overflow, packing, mode);
            && |packed[name]| == |packed["seq_lengths"]|
            && 0 < |packed[name][b]| == Sum(packed["seq_lengths"][b]) <= maxPackedLen
  {
    var chunks := AllChunks(keys, Limit(maxSeqLen, maxPackedLen), overflow, mode);
    PackReady(keys, maxSeqLen, maxPackedLen, overflow, packing, mode);
    var lengths := Lengths(chunks["sequence"]);
    var bins := BinPlan(lengths, maxPackedLen, packing);
    BinPlanIsPacking(lengths, maxPackedLen, packing);
    PackLength(chunks[name], lengths, bins[b], maxPackedLen);
  }
}
