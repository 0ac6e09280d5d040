/**
  Rendering JSON items into token ids and loss masks. Tokenization may be batched over many
  items; the outcome must be what each item gives on its own, labels included.
 */
module Rendering {
  import opened Sequences
  import opened Arithmetic

  // ---------- Items, sections and the tokenizer ----------

  datatype Value = Null | Text(text: string) | Items(values: seq<Value>) | Other(id: int)

  type Item = map<string, Value>

  datatype Section = Section(field: string, action: string, template: bool, addSpecial: Option<bool>)

  datatype Spec = Spec(sections: seq<Section>, listField: bool, maskKey: Option<string>)

  datatype Config = Config(mask: map<string, string>, maskDefault: string, minChars: nat, maxChars: nat,
                           maxSeqLen: nat, keepEnd: bool, sections: seq<Section>, sources: seq<(string, Spec)>,
                           domainKey: Option<string>)

  /** The tokenizer and Python's conversions, as functions of their inputs. */
  datatype Tokenizer = Tokenizer(encode: (string, bool) -> seq<int>,
                                 encodeBatch: (seq<string>, bool) -> seq<seq<int>>, bos: Option<int>,
                                 chat: Value -> string, role: Value -> string, str: Value -> string,
                                 blank: string -> bool, number: Value -> real)

  /** Batch encoding gives each text what encoding it alone gives. */
  ghost predicate Pointwise(t: Tokenizer) {
    forall texts: seq<string>, add: bool ::
      |t.encodeBatch(texts, add)| == |texts| && forall i :: 0 <= i < |texts| ==>
        t.encodeBatch(texts, add)[i] == t.encode(texts[i], add)
  }

  /** One text to encode, with its resolved action and special-token policy. */
  datatype Unit = Unit(text: string, action: string, add: bool)

  type Plan = seq<Unit>

  // ---------- Planning ----------

  function ResolveAction(action: string, role: string, c: Config): string {
    if action == "$role" then (if role in c.mask then c.mask[role] else c.maskDefault) else action
  }

  /** The units of one section, or nothing when it is skipped. */
  function SectionUnits(item: Item, s: Section, c: Config, t: Tokenizer, filterText: bool, first: bool): Option<Plan> {
    if s.template then
      if s.field in item && item[s.field].Items? && item[s.field].values != [] then
        var messages := item[s.field].values;
        Some(seq(|messages|, i requires 0 <= i < |messages| =>
          Unit(t.chat(messages[i]), ResolveAction(s.action, t.role(messages[i]), c), false)))
      else None
    else
      var text := if s.field in item then t.str(item[s.field]) else "";
      if t.blank(text) || (filterText && (|text| < c.minChars || |text| > c.maxChars)) then None
      else Some([Unit(text, s.action, s.addSpecial.UnwrapOr(first))])
  }

  /** The plan of the sections, and whether none has contributed yet. */
  function Planned(item: Item, sections: seq<Section>, c: Config, t: Tokenizer, filterText: bool): (Plan, bool) {
    if sections == [] then ([], true)
    else
      var (plan, first) := Planned(item, sections[..|sections| - 1], c, t, filterText);
      match SectionUnits(item, sections[|sections| - 1], c, t, filterText, first)
      case None => (plan, first)
      case Some(units) => (plan + units, false)
  }

  /** Unless told otherwise, the first text that contributes gets the special tokens, and no later one does. */
  lemma {:induction false} SpecialTokensOnce(item: Item, sections: seq<Section>, c: Config, t: Tokenizer,
        filterText: bool)
    requires forall i :: 0 <= i < |sections| ==> !sections[i].template && sections[i].addSpecial == None
    ensures var (plan, first) := Planned(item, sections, c, t, filterText);
            && (first <==> plan == []) && |plan| <= |sections|
            && forall u :: 0 <= u < |plan| ==> (plan[u].add <==> u == 0)
  {
    if sections != [] { SpecialTokensOnce(item, sections[..|sections| - 1], c, t, filterText); }
  }

  method PlanSections(item: Item, sections: seq<Section>, c: Config, t: Tokenizer, filterText: bool)
    returns (plan: Plan)
    ensures plan == Planned(item, sections, c, t, filterText).0
  {
    plan := [];
    var first := true;
    for k := 0 to |sections|
      invariant (plan, first) == Planned(item, sections[..k], c, t, filterText)
    {
      assert sections[..k + 1][..k] == sections[..k];
      var units := SectionUnits(item, sections[k], c, t, filterText, first);
      if units == None { continue; }
      plan := plan + units.value;
      first := false;
    }
    assert sections[..|sections|] == sections;
  }

  // ---------- Encoding ----------

  type Encoded = seq<seq<int>>

  function EncodePlan(plan: Plan, t: Tokenizer): (r: Encoded)
    ensures |r| == |plan| && forall u :: 0 <= u < |plan| ==> r[u] == t.encode(plan[u].text, plan[u].add)
  {
    seq(|plan|, u requires 0 <= u < |plan| => t.encode(plan[u].text, plan[u].add))
  }

  function EncodeEach(plans: seq<Plan>, t: Tokenizer): (r: seq<Encoded>)
    ensures |r| == |plans| && forall i :: 0 <= i < |plans| ==> r[i] == EncodePlan(plans[i], t)
  {
    seq(|plans|, i requires 0 <= i < |plans| => EncodePlan(plans[i], t))
  }

  datatype Ref = Ref(item: nat, unit: nat)

  predicate Refers(plans: seq<Plan>, r: Ref, add: bool) {
    r.item < |plans| && r.unit < |plans[r.item]| && plans[r.item][r.unit].add == add
  }

  predicate Distinct(refs: seq<Ref>) {
    forall j, k :: 0 <= j < k < |refs| ==> refs[j] != refs[k]
  }

  /** The units of one item with a special-token policy. */
  function ItemRefs(plan: Plan, item: nat, add: bool): (refs: seq<Ref>)
    ensures forall r :: r in refs <==> r.item == item && r.unit < |plan| && plan[r.unit].add == add
    ensures Distinct(refs)
  {
    if plan == [] then []
    else
      var n := |plan| - 1;
      assert forall u :: 0 <= u < n ==> plan[..n][u] == plan[u];
      ItemRefs(plan[..n], item, add) + if plan[n].add == add then [Ref(item, n)] else []
  }

  lemma DistinctJoin(a: seq<Ref>, b: seq<Ref>)
    requires Distinct(a) && Distinct(b) && forall r :: r in a ==> r !in b
    ensures Distinct(a + b)
  {
    forall j, k | 0 <= j < k < |a + b|
      ensures (a + b)[j] != (a + b)[k]
    {
      if j < |a| <= k { assert a[j] in a && b[k - |a|] in b; }
    }
  }

  /** All units with a special-token policy, item by item. */
  function Refs(plans: seq<Plan>, add: bool): (refs: seq<Ref>)
    ensures forall r :: r in refs <==> Refers(plans, r, add)
    ensures Distinct(refs)
  {
    if plans == [] then []
    else
      var n := |plans| - 1;
      assert forall i :: 0 <= i < n ==> plans[..n][i] == plans[i];
      DistinctJoin(Refs(plans[..n], add), ItemRefs(plans[n], n, add));
      Refs(plans[..n], add) + ItemRefs(plans[n], n, add)
  }

  function TextOf(plans: seq<Plan>, at: Ref, add: bool): string
    requires Refers(plans, at, add)
  {
    plans[at.item][at.unit].text
  }

  /** What one call of the batch encoder is given. */
  function TextsOf(plans: seq<Plan>, add: bool): (texts: seq<string>)
    ensures |texts| == |Refs(plans, add)|
    ensures forall k :: 0 <= k < |texts| ==>
              Refers(plans, Refs(plans, add)[k], add) && texts[k] == TextOf(plans, Refs(plans, add)[k], add)
  {
    var refs := Refs(plans, add);
    seq(|refs|, k requires 0 <= k < |refs| => assert refs[k] in refs; TextOf(plans, refs[k], add))
  }

  /** What it answers. */
  function BatchOf(plans: seq<Plan>, t: Tokenizer, add: bool): seq<seq<int>> {
    t.encodeBatch(TextsOf(plans, add), add)
  }

  /** The encoder is called and answers with a batch of another size. */
  predicate WrongSize(plans: seq<Plan>, t: Tokenizer, add: bool) {
    Refs(plans, add) != [] && |BatchOf(plans, t, add)| != |Refs(plans, add)|
  }

  /** Same shape as the plans. */
  ghost predicate Fits(plans: seq<Plan>, encoded: seq<Encoded>) {
    |encoded| == |plans| && forall i :: 0 <= i < |plans| ==> |encoded[i]| == |plans[i]|
  }

  predicate Inside(plans: seq<Plan>, at: Ref) {
    at.item < |plans| && at.unit < |plans[at.item]|
  }

  /** The first `n` answers stand in their own units' places, and the other places hold what they held. */
  ghost predicate Delivered(plans: seq<Plan>, before: seq<Encoded>, after: seq<Encoded>, refs: seq<Ref>,
        batch: seq<seq<int>>, n: nat)
  {
    && Fits(plans, before) && Fits(plans, after) && n <= |refs| && n <= |batch|
    && (forall k :: 0 <= k < n ==> Inside(plans, refs[k]) && after[refs[k].item][refs[k].unit] == batch[k])
    && (forall at :: Inside(plans, at) && at !in refs[..n] ==> after[at.item][at.unit] == before[at.item][at.unit])
  }

  lemma DeliverNext(plans: seq<Plan>, before: seq<Encoded>, after: seq<Encoded>, refs: seq<Ref>, batch: seq<seq<int>>,
        n: nat)
    requires Delivered(plans, before, after, refs, batch, n) && Distinct(refs) && n < |refs| && n < |batch|
    requires Inside(plans, refs[n])
    ensures var at := refs[n];
            Delivered(plans, before, after[at.item := after[at.item][at.unit := batch[n]]], refs, batch, n + 1)
  {
    var at := refs[n];
    var next := after[at.item := after[at.item][at.unit := batch[n]]];
    forall k | 0 <= k < n + 1
      ensures Inside(plans, refs[k]) && next[refs[k].item][refs[k].unit] == batch[k]
    {
      if k < n { assert refs[k] != refs[n]; }
    }
    forall other | Inside(plans, other) && other !in refs[..n + 1]
      ensures next[other.item][other.unit] == before[other.item][other.unit]
    {
      assert refs[..n + 1] == refs[..n] + [at];
    }
  }

  /** One pass of the batch encoder: encode every unit of one policy at once and put each answer back in its place. */
  method EncodePass(plans: seq<Plan>, t: Tokenizer, encoded0: seq<Encoded>, add: bool) returns (r: Result<seq<Encoded>>)
    requires Fits(plans, encoded0)
    ensures r.Failure? <==> WrongSize(plans, t, add)
    ensures r.Success? ==>
              Delivered(plans, encoded0, r.value, Refs(plans, add), BatchOf(plans, t, add), |Refs(plans, add)|)
  {
    var encoded := encoded0;
    var refs := Refs(plans, add);
    if refs == [] { return Success(encoded); }
    var batch := t.encodeBatch(TextsOf(plans, add), add);
    if |batch| != |refs| { return Failure; }
    for k := 0 to |refs|
      invariant Delivered(plans, encoded0, encoded, refs, batch, k)
    {
      assert refs[k] in refs;
      DeliverNext(plans, encoded0, encoded, refs, batch, k);
      encoded := encoded[refs[k].item := encoded[refs[k].item][refs[k].unit := batch[k]]];
    }
    return Success(encoded);
  }

  /** Every unit of one policy holds its own answer. */
  ghost predicate Answered(plans: seq<Plan>, t: Tokenizer, encoded: seq<Encoded>, add: bool)
    requires Fits(plans, encoded)
  {
    !WrongSize(plans, t, add)
    && forall k :: 0 <= k < |Refs(plans, add)| ==>
         var at := Refs(plans, add)[k];
         Inside(plans, at) && k < |BatchOf(plans, t, add)| && encoded[at.item][at.unit] == BatchOf(plans, t, add)[k]
  }

  function Blanks(plans: seq<Plan>): (r: seq<Encoded>)
    ensures |r| == |plans| && forall i :: 0 <= i < |plans| ==> |r[i]| == |plans[i]|
  {
    seq(|plans|, i requires 0 <= i < |plans| => seq(|plans[i]|, _ => []))
  }

  /** The second pass leaves the first one's places alone. */
  lemma BothAnswered(plans: seq<Plan>, t: Tokenizer, blank: seq<Encoded>, plain: seq<Encoded>, all: seq<Encoded>)
    requires Fits(plans, blank) && Fits(plans, plain) && Fits(plans, all)
    requires !WrongSize(plans, t, false) && !WrongSize(plans, t, true)
    requires Delivered(plans, blank, plain, Refs(plans, false), BatchOf(plans, t, false), |Refs(plans, false)|)
    requires Delivered(plans, plain, all, Refs(plans, true), BatchOf(plans, t, true), |Refs(plans, true)|)
    ensures Answered(plans, t, all, false) && Answered(plans, t, all, true)
  {
    var refs := Refs(plans, false);
    forall k | 0 <= k < |refs|
      ensures Inside(plans, refs[k]) && all[refs[k].item][refs[k].unit] == plain[refs[k].item][refs[k].unit]
    {
      assert refs[k] in refs && !Refers(plans, refs[k], true);
      assert refs[k] !in Refs(plans, true);
      assert Refs(plans, true)[..|Refs(plans, true)|] == Refs(plans, true);
    }
  }

  /** A pointwise encoder answers each text as it would alone. */
  lemma PointwiseAnswers(plans: seq<Plan>, t: Tokenizer, encoded: seq<Encoded>, i: nat, u: nat)
    requires Fits(plans, encoded) && Pointwise(t) && i < |plans| && u < |plans[i]|
    requires Answered(plans, t, encoded, plans[i][u].add)
    ensures encoded[i][u] == t.encode(plans[i][u].text, plans[i][u].add)
  {
    var add := plans[i][u].add;
    assert Refers(plans, Ref(i, u), add);
    var k :| 0 <= k < |Refs(plans, add)| && Refs(plans, add)[k] == Ref(i, u);
    assert TextsOf(plans, add)[k] == plans[i][u].text;
  }

  lemma PointwiseEach(plans: seq<Plan>, t: Tokenizer, encoded: seq<Encoded>)
    requires Fits(plans, encoded) && Pointwise(t) && Answered(plans, t, encoded, false)
        && Answered(plans, t, encoded, true)
    ensures encoded == EncodeEach(plans, t)
  {
    forall i, u | 0 <= i < |plans| && 0 <= u < |plans[i]|
      ensures encoded[i][u] == EncodePlan(plans[i], t)[u]
    {
      PointwiseAnswers(plans, t, encoded, i, u);
    }
    assert forall i :: 0 <= i < |plans| ==> encoded[i] == EncodePlan(plans[i], t);
  }

  lemma PointwiseSize(plans: seq<Plan>, t: Tokenizer, add: bool)
    requires Pointwise(t)
    ensures !WrongSize(plans, t, add)
  {
  }

  /**
    Encode all plans, one text at a time or in one batch per special-token policy. A batch fails exactly on an
    answer of the wrong size, and puts every answer in its own unit's place, whatever the encoder.
   */
  method EncodePlans(plans: seq<Plan>, t: Tokenizer, batched: bool) returns (r: Result<seq<Encoded>>)
    ensures r.Failure? <==> batched && (WrongSize(plans, t, false) || WrongSize(plans, t, true))
    ensures r.Success? ==> Fits(plans, r.value)
    ensures r.Success? && batched ==> Answered(plans, t, r.value, false) && Answered(plans, t, r.value, true)
    ensures !batched || Pointwise(t) ==> r == Success(EncodeEach(plans, t))
  {
    if !batched { return Success(EncodeEach(plans, t)); }
    if Pointwise(t) {
      PointwiseSize(plans, t, false);
      PointwiseSize(plans, t, true);
    }
    var plain := EncodePass(plans, t, Blanks(plans), false);
    if plain.Failure? { return Failure; }
    r := EncodePass(plans, t, plain.value, true);
    if r.Success? {
      BothAnswered(plans, t, Blanks(plans), plain.value, r.value);
      if Pointwise(t) { PointwiseEach(plans, t, r.value); }
    }
  }

  // ---------- Assembling ids and labels ----------

  /** A token with its label: 1 when its unit is trained on. */
  type Labelled = seq<(int, int)>

  function LabelOf(action: string): int {
    if action == "train" then 1 else 0
  }

  function UnitTokens(unit: Unit, ids: seq<int>): (r: Labelled)
    ensures |r| == |ids| && forall k :: 0 <= k < |r| ==> r[k] == (ids[k], LabelOf(unit.action))
  {
    seq(|ids|, k requires 0 <= k < |ids| => (ids[k], LabelOf(unit.action)))
  }

  /** Every token of the plan, carrying its own unit's label. */
  function PlanTokens(plan: Plan, encoded: Encoded): Labelled
    requires |encoded| == |plan|
  {
    if plan == [] then []
    else var n := |plan| - 1; PlanTokens(plan[..n], encoded[..n]) + UnitTokens(plan[n], encoded[n])
  }

  /** Keep at most the limit, from the front or from the end. */
  function Truncated<T>(s: seq<T>, c: Config): seq<T> {
    if c.sources == [] then s
    else if c.keepEnd && c.maxSeqLen > 0 then s[Max(|s| - c.maxSeqLen, 0)..]
    else s[..Min(|s|, c.maxSeqLen)]
  }

  function Bos(t: Tokenizer, prependBos: bool): Labelled {
    if prependBos && t.bos.Some? then [(t.bos.value, 0)] else []
  }

  function Assembled(plan: Plan, encoded: Encoded, c: Config, t: Tokenizer, prependBos: bool): Option<Labelled>
    requires |encoded| == |plan|
  {
    var tokens := Truncated(Bos(t, prependBos) + PlanTokens(plan, encoded), c);
    if tokens == [] || (prependBos && |tokens| <= 1) then None else Some(tokens)
  }

  datatype Rendered = Rendered(ids: seq<int>, mask: seq<int>)

  function Unzip(tokens: Labelled): (r: Rendered)
    ensures |r.ids| == |r.mask| == |tokens|
    ensures forall k :: 0 <= k < |tokens| ==> (r.ids[k], r.mask[k]) == tokens[k]
  {
    Rendered(seq(|tokens|, k requires 0 <= k < |tokens| => tokens[k].0),
      seq(|tokens|, k requires 0 <= k < |tokens| => tokens[k].1))
  }

  function UnzipSome(tokens: Option<Labelled>): Option<Rendered> {
    match tokens case None => None case Some(s) => Some(Unzip(s))
  }

  lemma UnzipConcat(a: Labelled, b: Labelled)
    ensures Unzip(a + b) == Rendered(Unzip(a).ids + Unzip(b).ids, Unzip(a).mask + Unzip(b).mask)
  {
  }

  lemma UnzipTruncated(tokens: Labelled, c: Config)
    ensures Unzip(Truncated(tokens, c)) == Rendered(Truncated(Unzip(tokens).ids, c), Truncated(Unzip(tokens).mask, c))
  {
  }

  lemma UnzipUnit(unit: Unit, ids: seq<int>)
    ensures Unzip(UnitTokens(unit, ids)) == Rendered(ids, seq(|ids|, _ => LabelOf(unit.action)))
  {
  }

  lemma NextUnit(plan: Plan, encoded: Encoded, k: nat, bos: Labelled)
    requires |encoded| == |plan| && k < |plan|
    ensures bos + PlanTokens(plan[..k + 1], encoded[..k + 1])
        == bos + PlanTokens(plan[..k], encoded[..k]) + UnitTokens(plan[k], encoded[k])
  {
    assert plan[..k + 1][..k] == plan[..k] && encoded[..k + 1][..k] == encoded[..k];
  }

  /** Extend ids and mask in step, unit by unit. */
  method Extend(plan: Plan, encoded: Encoded, t: Tokenizer, prependBos: bool) returns (ids: seq<int>, mask: seq<int>)
    requires |encoded| == |plan|
    ensures Rendered(ids, mask) == Unzip(Bos(t, prependBos) + PlanTokens(plan, encoded))
  {
    ids, mask := [], [];
    if prependBos && t.bos.Some? { ids, mask := [t.bos.value], [0]; }
    ghost var bos := Bos(t, prependBos);
    for k := 0 to |plan|
      invariant Rendered(ids, mask) == Unzip(bos + PlanTokens(plan[..k], encoded[..k]))
    {
      NextUnit(plan, encoded, k, bos);
      UnzipConcat(bos + PlanTokens(plan[..k], encoded[..k]), UnitTokens(plan[k], encoded[k]));
      UnzipUnit(plan[k], encoded[k]);
      ids := ids + encoded[k];
      mask := mask + seq(|encoded[k]|, _ => LabelOf(plan[k].action));
    }
    assert plan[..|plan|] == plan && encoded[..|plan|] == encoded;
  }

  function OutcomeOf(plan: Plan, encoded: Encoded, c: Config, t: Tokenizer, prependBos: bool): Option<Rendered> {
    if |encoded| == |plan| then UnzipSome(Assembled(plan, encoded, c, t, prependBos)) else None
  }

  lemma {:induction false} PlanTokensCount(plan: Plan, encoded: Encoded)
    requires |encoded| == |plan|
    ensures |PlanTokens(plan, encoded)| == |Flatten(encoded)|
  {
    if plan != [] { PlanTokensCount(plan[..|plan| - 1], encoded[..|plan| - 1]); }
  }

  lemma {:induction false} TokenOfUnit(plan: Plan, encoded: Encoded, u: nat, j: nat)
    requires |encoded| == |plan| && u < |plan| && j < |encoded[u]|
    ensures |PlanTokens(plan, encoded)| == |Flatten(encoded)|
    ensures var at := |Flatten(encoded[..u])| + j;
            at < |Flatten(encoded)|
            && PlanTokens(plan, encoded)[at] == (encoded[u][j], if plan[u].action == "train" then 1 else 0)
  {
    var n := |plan| - 1;
    PlanTokensCount(plan[..n], encoded[..n]);
    if u < n {
      TokenOfUnit(plan[..n], encoded[..n], u, j);
      assert encoded[..n][..u] == encoded[..u];
    }
  }

  /** How many of so many tokens truncation drops in front, and how many it keeps. */
  function DroppedInFront(total: nat, c: Config): nat {
    if c.sources != [] && c.keepEnd && 0 < c.maxSeqLen < total then total - c.maxSeqLen else 0
  }

  function KeptTokens(total: nat, c: Config): nat {
    if c.sources == [] then total else Min(total, c.maxSeqLen)
  }

  lemma TruncatedAt<T>(s: seq<T>, c: Config)
    ensures |Truncated(s, c)| == KeptTokens(|s|, c)
    ensures forall k :: 0 <= k < |Truncated(s, c)| ==>
              DroppedInFront(|s|, c) + k < |s| && Truncated(s, c)[k] == s[DroppedInFront(|s|, c) + k]
  {
    var drop := DroppedInFront(|s|, c);
    assert Truncated(s, c) == s[drop..drop + KeptTokens(|s|, c)];
  }

  /** A labelled token that truncation keeps. */
  lemma KeptAt(tokens: Labelled, c: Config, at: nat)
    requires DroppedInFront(|tokens|, c) <= at < DroppedInFront(|tokens|, c) + KeptTokens(|tokens|, c)
    ensures var k, rendered := at - DroppedInFront(|tokens|, c), Unzip(Truncated(tokens, c));
            at < |tokens| && k < |rendered.ids| && (rendered.ids[k], rendered.mask[k]) == tokens[at]
  {
    TruncatedAt(tokens, c);
  }

  lemma LabelKept(tokens: Labelled, c: Config, rendered: Rendered, at: nat)
    requires rendered == Unzip(Truncated(tokens, c)) && at < |tokens|
    ensures var k := at - DroppedInFront(|tokens|, c);
            && |rendered.ids| == |rendered.mask| == KeptTokens(|tokens|, c)
            && (0 <= k < |rendered.ids| ==> (rendered.ids[k], rendered.mask[k]) == tokens[at])
  {
    TruncatedAt(tokens, c);
    if DroppedInFront(|tokens|, c) <= at < DroppedInFront(|tokens|, c) + KeptTokens(|tokens|, c) {
      KeptAt(tokens, c, at);
    }
  }

  lemma {:induction false} LabelledToken(plan: Plan, encoded: Encoded, t: Tokenizer, prependBos: bool, u: nat, j: nat)
    requires |encoded| == |plan| && u < |plan| && j < |encoded[u]|
    ensures var tokens, front := Bos(t, prependBos) + PlanTokens(plan, encoded), |Bos(t, prependBos)|;
            && |tokens| == front + |Flatten(encoded)| && front + |Flatten(encoded[..u])| + j < |tokens|
            && tokens[front + |Flatten(encoded[..u])| + j]
               == (encoded[u][j], if plan[u].action == "train" then 1 else 0)
  {
    TokenOfUnit(plan, encoded, u, j);
  }

  lemma {:induction false} OutcomeIs(plan: Plan, encoded: Encoded, c: Config, t: Tokenizer, prependBos: bool)
    requires |encoded| == |plan| && OutcomeOf(plan, encoded, c, t, prependBos).Some?
    ensures OutcomeOf(plan, encoded, c, t, prependBos).value
         == Unzip(Truncated(Bos(t, prependBos) + PlanTokens(plan, encoded), c))
  {
  }

  /** Where a token of a unit stands after truncation: behind the tokens of the units before it. */
  function PlaceOf(encoded: Encoded, c: Config, front: nat, u: nat, j: nat): int
    requires u < |encoded|
  {
    front + |Flatten(encoded[..u])| + j - DroppedInFront(front + |Flatten(encoded)|, c)
  }

  lemma {:induction false} LabelledAt(tokens: Labelled, encoded: Encoded, c: Config, front: nat, rendered: Rendered,
        u: nat, j: nat, flag: int)
    requires u < |encoded| && j < |encoded[u]| && rendered == Unzip(Truncated(tokens, c))
    requires |tokens| == front + |Flatten(encoded)| && front + |Flatten(encoded[..u])| + j < |tokens|
    requires tokens[front + |Flatten(encoded[..u])| + j] == (encoded[u][j], flag)
    ensures |rendered.ids| == |rendered.mask| == KeptTokens(front + |Flatten(encoded)|, c)
    ensures 0 <= PlaceOf(encoded, c, front, u, j) < |rendered.ids| ==>
              && rendered.ids[PlaceOf(encoded, c, front, u, j)] == encoded[u][j]
              && rendered.mask[PlaceOf(encoded, c, front, u, j)] == flag
  {
    LabelKept(tokens, c, rendered, front + |Flatten(encoded[..u])| + j);
  }

  /**
    The label of a token is 1 exactly when its unit's action is to train on it: token j of unit u stands behind the
    tokens of the units before it, and behind the token that begins the sequence.
   */
  lemma {:induction false} TokensLabelled(plan: Plan, encoded: Encoded, c: Config, t: Tokenizer, prependBos: bool,
        rendered: Rendered, u: nat, j: nat)
    requires |encoded| == |plan| && OutcomeOf(plan, encoded, c, t, prependBos) == Some(rendered)
    requires u < |plan| && j < |encoded[u]|
    ensures var front := if prependBos && t.bos.Some? then 1 else 0;
            var at := PlaceOf(encoded, c, front, u, j);
            && |rendered.ids| == |rendered.mask| == KeptTokens(front + |Flatten(encoded)|, c)
            && (0 <= at < |rendered.ids| ==>
                  && rendered.ids[at] == encoded[u][j]
                  && rendered.mask[at] == if plan[u].action == "train" then 1 else 0)
  {
    OutcomeIs(plan, encoded, c, t, prependBos);
    LabelledToken(plan, encoded, t, prependBos, u, j);
    LabelledAt(Bos(t, prependBos) + PlanTokens(plan, encoded), encoded, c, |Bos(t, prependBos)|, rendered, u, j,
      if plan[u].action == "train" then 1 else 0);
  }

  /** The token that begins a sequence is never trained on. */
  lemma BosUntrained(plan: Plan, encoded: Encoded, c: Config, t: Tokenizer)
    requires |encoded| == |plan| && OutcomeOf(plan, encoded, c, t, true).Some? && t.bos.Some?
    requires DroppedInFront(1 + |Flatten(encoded)|, c) == 0
    ensures var rendered := OutcomeOf(plan, encoded, c, t, true).value;
            rendered.ids != [] && rendered.ids[0] == t.bos.value && rendered.mask[0] == 0
  {
    var tokens := Bos(t, true) + PlanTokens(plan, encoded);
    PlanTokensCount(plan, encoded);
    OutcomeIs(plan, encoded, c, t, true);
    TruncatedAt(tokens, c);
    KeptAt(tokens, c, 0);
  }

  /** Cut ids and mask the same way, and drop what is empty. */
  method AssembleSections(plan: Plan, encoded: Encoded, c: Config, t: Tokenizer, prependBos: bool)
    returns (r: Option<Rendered>)
    requires |encoded| == |plan|
    ensures r == OutcomeOf(plan, encoded, c, t, prependBos)
  {
    var ids, mask := Extend(plan, encoded, t, prependBos);
    UnzipTruncated(Bos(t, prependBos) + PlanTokens(plan, encoded), c);
    ids, mask := Truncated(ids, c), Truncated(mask, c);
    if ids == [] || (prependBos && |ids| <= 1) { return None; }
    return Some(Rendered(ids, mask));
  }

  // ---------- Rendering items ----------

  predicate HasTemplate(sections: seq<Section>) {
    exists i | 0 <= i < |sections| :: sections[i].template
  }

  predicate Filters(sections: seq<Section>, filterText: bool) {
    filterText && !HasTemplate(sections) && forall i | 0 <= i < |sections| :: sections[i].action == "train"
  }

  /** What one item renders to on its own. */
  function RenderOne(item: Item, sections: seq<Section>, c: Config, t: Tokenizer, topLevel: bool,
          filterText: bool): Option<Rendered> {
    var plan := Planned(item, sections, c, t, Filters(sections, filterText)).0;
    OutcomeOf(plan, EncodePlan(plan, t), c, t, topLevel && HasTemplate(sections))
  }

  function RenderEach(items: seq<Item>, f: Item -> Option<Rendered>): (r: seq<Option<Rendered>>)
    ensures |r| == |items| && forall i :: 0 <= i < |r| ==> r[i] == f(items[i])
  {
    seq(|items|, i requires 0 <= i < |items| => f(items[i]))
  }

  method PlanAll(items: seq<Item>, sections: seq<Section>, c: Config, t: Tokenizer, filters: bool)
    returns (plans: seq<Plan>)
    ensures |plans| == |items| && forall k :: 0 <= k < |plans| ==>
        plans[k] == Planned(items[k], sections, c, t, filters).0
  {
    plans := [];
    for i := 0 to |items|
      invariant |plans| == i && forall k :: 0 <= k < i ==> plans[k] == Planned(items[k], sections, c, t, filters).0
    {
      var plan := PlanSections(items[i], sections, c, t, filters);
      plans := plans + [plan];
    }
  }

  ghost function Outcomes(plans: seq<Plan>, encoded: seq<Encoded>, c: Config, t: Tokenizer, prependBos: bool,
        k: nat): (r: seq<Option<Rendered>>)
    requires |encoded| == |plans| && k <= |plans|
    ensures |r| == k && forall i :: 0 <= i < k ==> r[i] == OutcomeOf(plans[i], encoded[i], c, t, prependBos)
  {
    seq(k, i requires 0 <= i < k => OutcomeOf(plans[i], encoded[i], c, t, prependBos))
  }

  lemma NextOutcome(plans: seq<Plan>, encoded: seq<Encoded>, c: Config, t: Tokenizer, prependBos: bool, k: nat,
        r: seq<Option<Rendered>>, one: Option<Rendered>)
    requires |encoded| == |plans| && k < |plans| && r == Outcomes(plans, encoded, c, t, prependBos, k)
    requires one == OutcomeOf(plans[k], encoded[k], c, t, prependBos)
    ensures r + [one] == Outcomes(plans, encoded, c, t, prependBos, k + 1)
  {
  }

  method AssembleAll(plans: seq<Plan>, encoded: seq<Encoded>, c: Config, t: Tokenizer, prependBos: bool, n: nat)
    returns (r: seq<Option<Rendered>>)
    requires Fits(plans, encoded) && n == |plans|
    ensures |r| == n && r == Outcomes(plans, encoded, c, t, prependBos, n)
  {
    r := [];
    for i := 0 to n
      invariant |r| == i && r == Outcomes(plans, encoded, c, t, prependBos, i)
    {
      var one := AssembleSections(plans[i], encoded[i], c, t, prependBos);
      NextOutcome(plans, encoded, c, t, prependBos, i, r, one);
      r := r + [one];
    }
  }

  lemma OutcomesAreOwn(items: seq<Item>, plans: seq<Plan>, sections: seq<Section>, c: Config, t: Tokenizer,
        topLevel: bool, filterText: bool)
    requires |plans| == |items|
    requires forall k :: 0 <= k < |plans| ==>
        plans[k] == Planned(items[k], sections, c, t, Filters(sections, filterText)).0
    ensures Outcomes(plans, EncodeEach(plans, t), c, t, topLevel && HasTemplate(sections), |plans|)
         == RenderEach(items, item => RenderOne(item, sections, c, t, topLevel, filterText))
  {
    var outcomes := Outcomes(plans, EncodeEach(plans, t), c, t, topLevel && HasTemplate(sections), |plans|);
    forall i | 0 <= i < |plans|
      ensures outcomes[i] == RenderOne(items[i], sections, c, t, topLevel, filterText)
    {
      assert outcomes[i] == OutcomeOf(plans[i], EncodePlan(plans[i], t), c, t, topLevel && HasTemplate(sections));
    }
  }

  /** Plan every item, encode all plans, assemble every item: nothing leaks between items. */
  method RenderSections(items: seq<Item>, sections: seq<Section>, c: Config, t: Tokenizer, batched: bool,
        topLevel: bool, filterText: bool)
    returns (r: Result<seq<Option<Rendered>>>)
    ensures r.Success? ==> |r.value| == |items|
    ensures !batched || Pointwise(t) ==>
        r == Success(RenderEach(items, item => RenderOne(item, sections, c, t, topLevel, filterText)))
  {
    var plans := PlanAll(items, sections, c, t, Filters(sections, filterText));
    var encoded := EncodePlans(plans, t, batched);
    if encoded.Failure? { return Failure; }
    var rendered := AssembleAll(plans, encoded.value, c, t, topLevel && HasTemplate(sections), |items|);
    OutcomesAreOwn(items, plans, sections, c, t, topLevel, filterText);
    return Success(rendered);
  }

  // ---------- List fields ----------

  /** Elements that render: with a template only lists do; anything else is turned into text. */
  function Elements(values: seq<Value>, template: bool, t: Tokenizer): seq<Value> {
    if values == [] then []
    else
      var last := values[|values| - 1];
      Elements(values[..|values| - 1], template, t)
      + if template && !last.Items? then [] else [if last.Items? then last else Text(t.str(last))]
  }

  method ListElements(values: seq<Value>, template: bool, t: Tokenizer) returns (elements: seq<Value>)
    ensures elements == Elements(values, template, t)
  {
    elements := [];
    for j := 0 to |values|
      invariant elements == Elements(values[..j], template, t)
    {
      assert values[..j + 1][..j] == values[..j];
      if template && !values[j].Items? { continue; }
      elements := elements + [if values[j].Items? then values[j] else Text(t.str(values[j]))];
    }
    assert values[..|values|] == values;
  }

  function FieldValues(item: Item, field: string): seq<Value> {
    if field in item && item[field].Items? then item[field].values else []
  }

  function Wrappers(item: Item, s: Section, t: Tokenizer): (r: seq<Item>)
  {
    var elements := Elements(FieldValues(item, s.field), s.template, t);
    seq(|elements|, j requires 0 <= j < |elements| => map[s.field := elements[j]])
  }

  function ListSection(s: Section): Section {
    s.(addSpecial := Some(s.addSpecial.UnwrapOr(false)))
  }

  function KeptOne(r: Option<Rendered>): seq<Rendered> {
    if r.Some? && r.value.ids != [] then [r.value] else []
  }

  /** The non-empty renderings, in order. */
  function Kept(items: seq<Item>, f: Item -> Option<Rendered>): seq<Rendered> {
    if items == [] then [] else Kept(items[..|items| - 1], f) + KeptOne(f(items[|items| - 1]))
  }

  function ElementRenderer(s: Section, c: Config, t: Tokenizer): Item -> Option<Rendered> {
    item => RenderOne(item, [ListSection(s)], c, t, false, false)
  }

  /** What the list fields of one item render to on their own, section by section. */
  function ListOf(item: Item, sections: seq<Section>, c: Config, t: Tokenizer): seq<Rendered> {
    if sections == [] then []
    else
      var s := sections[|sections| - 1];
      ListOf(item, sections[..|sections| - 1], c, t) + Kept(Wrappers(item, s, t), ElementRenderer(s, c, t))
  }

  /** An element to render, with the item it belongs to. */
  datatype Owned = Owned(owner: nat, wrapper: Item)

  /** The share of one owner among renderings of mixed elements. */
  function Gathered(all: seq<Owned>, f: Item -> Option<Rendered>, owner: nat): seq<Rendered> {
    if all == [] then []
    else
      var last := all[|all| - 1];
      Gathered(all[..|all| - 1], f, owner) + if last.owner == owner then KeptOne(f(last.wrapper)) else []
  }

  function OwnedBy(owner: nat, wrappers: seq<Item>): (r: seq<Owned>)
    ensures |r| == |wrappers| && forall j :: 0 <= j < |r| ==> r[j] == Owned(owner, wrappers[j])
  {
    seq(|wrappers|, j requires 0 <= j < |wrappers| => Owned(owner, wrappers[j]))
  }

  /** All elements of a section over all items, item by item. */
  function AllOwned(items: seq<Item>, s: Section, t: Tokenizer): seq<Owned> {
    if items == [] then []
    else AllOwned(items[..|items| - 1], s, t) + OwnedBy(|items| - 1, Wrappers(items[|items| - 1], s, t))
  }

  lemma {:induction false} GatheredConcat(a: seq<Owned>, b: seq<Owned>, f: Item -> Option<Rendered>, owner: nat)
    ensures Gathered(a + b, f, owner) == Gathered(a, f, owner) + Gathered(b, f, owner)
  {
    if b == [] {
      assert a + b == a;
    } else {
      GatheredConcat(a, b[..|b| - 1], f, owner);
      assert (a + b)[..|a + b| - 1] == a + b[..|b| - 1];
    }
  }

  lemma {:induction false} GatheredOwn(n: nat, wrappers: seq<Item>, f: Item -> Option<Rendered>, owner: nat)
    ensures Gathered(OwnedBy(n, wrappers), f, owner) == if n == owner then Kept(wrappers, f) else []
  {
    if wrappers != [] {
      GatheredOwn(n, wrappers[..|wrappers| - 1], f, owner);
      assert OwnedBy(n, wrappers)[..|wrappers| - 1] == OwnedBy(n, wrappers[..|wrappers| - 1]);
    }
  }

  lemma GatheredNext(before: seq<Owned>, n: nat, wrappers: seq<Item>, f: Item -> Option<Rendered>, owner: nat,
        own: seq<Rendered>)
    requires Gathered(before, f, owner) == own && (owner == n ==> own == [])
    ensures Gathered(before + OwnedBy(n, wrappers), f, owner) == if n == owner then Kept(wrappers, f) else own
  {
    GatheredConcat(before, OwnedBy(n, wrappers), f, owner);
    GatheredOwn(n, wrappers, f, owner);
  }

  /** Gathering by owner gives each item exactly its own elements' renderings. */
  lemma {:induction false} GatheredIsOwn(items: seq<Item>, s: Section, t: Tokenizer, f: Item -> Option<Rendered>,
        owner: nat)
    ensures Gathered(AllOwned(items, s, t), f, owner)
        == if owner < |items| then Kept(Wrappers(items[owner], s, t), f) else []
  {
    if items != [] {
      var n := |items| - 1;
      GatheredIsOwn(items[..n], s, t, f, owner);
      var own := if owner < n then Kept(Wrappers(items[owner], s, t), f) else [];
      GatheredNext(AllOwned(items[..n], s, t), n, Wrappers(items[n], s, t), f, owner, own);
    }
  }

  /** Wrap every renderable element of a section, remembering its owner. */
  method CollectOwned(items: seq<Item>, s: Section, t: Tokenizer) returns (all: seq<Owned>)
    ensures all == AllOwned(items, s, t)
  {
    all := [];
    for i := 0 to |items|
      invariant all == AllOwned(items[..i], s, t)
    {
      assert items[..i + 1][..i] == items[..i];
      var elements := ListElements(FieldValues(items[i], s.field), s.template, t);
      all := all + OwnedBy(i, seq(|elements|, j requires 0 <= j < |elements| => map[s.field := elements[j]]));
    }
    assert items[..|items|] == items;
  }

  function WrapperOf(all: seq<Owned>): (r: seq<Item>)
    ensures |r| == |all| && forall k :: 0 <= k < |r| ==> r[k] == all[k].wrapper
  {
    seq(|all|, k requires 0 <= k < |all| => all[k].wrapper)
  }

  ghost predicate RenderedBy(all: seq<Owned>, rendered: seq<Option<Rendered>>, f: Item -> Option<Rendered>) {
    |rendered| == |all| && forall k :: 0 <= k < |all| ==> rendered[k] == f(all[k].wrapper)
  }

  /** Append each non-empty rendering to its owner's list. */
  method Distribute(all: seq<Owned>, rendered: seq<Option<Rendered>>, ghost f: Item -> Option<Rendered>,
        before: seq<seq<Rendered>>) returns (after: seq<seq<Rendered>>)
    requires |rendered| == |all| && forall k :: 0 <= k < |all| ==> all[k].owner < |before|
    ensures |after| == |before|
    ensures RenderedBy(all, rendered, f) ==>
        forall o :: 0 <= o < |before| ==> after[o] == before[o] + Gathered(all, f, o)
  {
    after := before;
    for k := 0 to |all|
      invariant |after| == |before|
      invariant RenderedBy(all, rendered, f) ==>
          forall o :: 0 <= o < |before| ==> after[o] == before[o] + Gathered(all[..k], f, o)
    {
      assert all[..k + 1][..k] == all[..k];
      var owner := all[k].owner;
      if rendered[k].Some? && rendered[k].value.ids != [] {
        after := after[owner := after[owner] + [rendered[k].value]];
      }
    }
    assert all[..|all|] == all;
  }

  lemma {:induction false} OwnersInside(items: seq<Item>, s: Section, t: Tokenizer, k: nat)
    requires k < |AllOwned(items, s, t)|
    ensures AllOwned(items, s, t)[k].owner < |items|
  {
    var n := |items| - 1;
    if k < |AllOwned(items[..n], s, t)| { OwnersInside(items[..n], s, t, k); }
  }

  method RenderListSection(items: seq<Item>, s: Section, c: Config, t: Tokenizer, batched: bool,
        lists: seq<seq<Rendered>>) returns (r: Result<seq<seq<Rendered>>>)
    requires |lists| == |items|
    ensures !batched || Pointwise(t) ==> r.Success?
    ensures r.Success? ==> |r.value| == |items|
    ensures !batched || Pointwise(t) ==>
              forall o :: 0 <= o < |items| ==>
                r.value[o] == lists[o] + Kept(Wrappers(items[o], s, t), ElementRenderer(s, c, t))
  {
    var all := CollectOwned(items, s, t);
    var rendered := RenderSections(WrapperOf(all), [ListSection(s)], c, t, batched, false, false);
    if rendered.Failure? { return Failure; }
    forall k | 0 <= k < |all|
      ensures all[k].owner < |items|
    {
      OwnersInside(items, s, t, k);
    }
    ghost var f := ElementRenderer(s, c, t);
    var next := Distribute(all, rendered.value, f, lists);
    forall o | 0 <= o < |items|
      ensures Gathered(all, f, o) == Kept(Wrappers(items[o], s, t), f)
    {
      GatheredIsOwn(items, s, t, f, o);
    }
    return Success(next);
  }

  /** List fields of many items, section by section: each item gets exactly its own sequences, in order. */
  method RenderListField(items: seq<Item>, sections: seq<Section>, c: Config, t: Tokenizer, batched: bool)
    returns (r: Result<seq<seq<Rendered>>>)
    ensures !batched || Pointwise(t) ==> r.Success?
    ensures r.Success? ==> |r.value| == |items|
    ensures !batched || Pointwise(t) ==> forall o :: 0 <= o < |items| ==> r.value[o] == ListOf(items[o], sections, c, t)
  {
    var lists := seq(|items|, _ => []);
    for k := 0 to |sections|
      invariant |lists| == |items|
      invariant !batched || Pointwise(t) ==>
          forall o :: 0 <= o < |items| ==> lists[o] == ListOf(items[o], sections[..k], c, t)
    {
      var s := sections[k];
      var next := RenderListSection(items, s, c, t, batched, lists);
      if next.Failure? { return Failure; }
      assert sections[..k + 1][..k] == sections[..k];
      lists := next.value;
    }
    assert sections[..|sections|] == sections;
    return Success(lists);
  }

  // ---------- Outputs ----------

  datatype Output = Ids(ids: seq<int>) | Lists(lists: seq<seq<int>>) | Numbers(numbers: seq<real>)
      | Domain(name: string)

  type Fields = map<string, Output>

  /** One output's ids with its mask, if any. */
  datatype Produced = Produced(ids: Output, mask: Option<Output>)

  function DomainOf(item: Item, key: Option<string>): string {
    if key.Some? && key.value != "" && key.value in item && item[key.value].Text? then item[key.value].text
    else "__default__"
  }

  predicate AllOnes(mask: seq<int>) {
    forall i | 0 <= i < |mask| :: mask[i] == 1
  }

  predicate IsValueSection(sections: seq<Section>) {
    |sections| == 1 && sections[0].action == "value"
  }

  /** A number, or a list of numbers, taken as it is. */
  function RawValue(item: Item, field: string, t: Tokenizer): Option<Produced> {
    if field !in item || item[field].Null? then None
    else if item[field].Items? then
      Some(Produced(Numbers(seq(|item[field].values|, k requires 0 <= k < |item[field].values| =>
        t.number(item[field].values[k]))), None))
    else Some(Produced(Numbers([t.number(item[field])]), None))
  }

  function ProducedOf(r: Option<Rendered>): Option<Produced> {
    match r case None => None case Some(one) => Some(Produced(Ids(one.ids), Some(Ids(one.mask))))
  }

  function ProducedLists(lists: seq<Rendered>): Option<Produced> {
    if lists == [] then None
    else Some(Produced(Lists(seq(|lists|, k requires 0 <= k < |lists| => lists[k].ids)),
                       Some(Lists(seq(|lists|, k requires 0 <= k < |lists| => lists[k].mask)))))
  }

  /** What one output of one item is, on its own. */
  function SourceOf(item: Item, spec: Spec, c: Config, t: Tokenizer): Option<Produced> {
    if IsValueSection(spec.sections) then RawValue(item, spec.sections[0].field, t)
    else if spec.listField then ProducedLists(ListOf(item, spec.sections, c, t))
    else ProducedOf(RenderOne(item, spec.sections, c, t, true, true))
  }

  /** Store an output; its mask too, unless it says nothing. */
  function Stored(result: Fields, key: string, spec: Spec, p: Option<Produced>): Fields {
    if p.None? then result
    else
      var withIds := result[key := p.value.ids];
      if p.value.mask.Some?
        && (spec.listField || spec.maskKey.Some? || (p.value.mask.value.Ids? && !AllOnes(p.value.mask.value.ids)))
      then withIds[spec.maskKey.UnwrapOr(key + "_mask") := p.value.mask.value] else withIds
  }

  function Used(sources: seq<(string, Spec)>): seq<(string, Spec)> {
    if sources == [] then []
    else
      var last := sources[|sources| - 1];
      Used(sources[..|sources| - 1]) + if last.1.sections != [] then [last] else []
  }

  function ResultOf(item: Item, sources: seq<(string, Spec)>, c: Config, t: Tokenizer): Fields {
    if sources == [] then map[]
    else
      var (key, spec) := sources[|sources| - 1];
      Stored(ResultOf(item, sources[..|sources| - 1], c, t), key, spec, SourceOf(item, spec, c, t))
  }

  /** The item counts only when every output is there. */
  function Finished(item: Item, result: Fields, sources: seq<(string, Spec)>, c: Config): Option<Fields> {
    if sources != [] && forall k | 0 <= k < |sources| :: sources[k].0 in result
    then Some(result["domain" := Domain(DomainOf(item, c.domainKey))]) else None
  }

  function MultiOf(item: Item, c: Config, t: Tokenizer): Option<Fields> {
    Finished(item, ResultOf(item, Used(c.sources), c, t), Used(c.sources), c)
  }

  function SingleResult(item: Item, r: Option<Rendered>, c: Config): Option<Fields> {
    match r
    case None => None
    case Some(one) =>
      var result: Fields := map["sequence" := Ids(one.ids), "domain" := Domain(DomainOf(item, c.domainKey))];
      Some(if AllOnes(one.mask) then result else result["loss_mask" := Ids(one.mask)])
  }

  function SingleOf(item: Item, c: Config, t: Tokenizer): Option<Fields> {
    if c.sections == [] then None else SingleResult(item, RenderOne(item, c.sections, c, t, true, true), c)
  }

  /** What one item builds, on its own. */
  function Built(item: Item, c: Config, t: Tokenizer): Option<Fields> {
    if c.sources != [] then MultiOf(item, c, t) else SingleOf(item, c, t)
  }

  // ---------- Builders ----------

  /** Render one output for all items. */
  method RenderSource(items: seq<Item>, spec: Spec, c: Config, t: Tokenizer, batched: bool)
    returns (r: Result<seq<Option<Produced>>>)
    ensures !batched || Pointwise(t) ==> r.Success?
    ensures r.Success? ==> |r.value| == |items|
    ensures !batched || Pointwise(t) ==> forall i :: 0 <= i < |items| ==> r.value[i] == SourceOf(items[i], spec, c, t)
  {
    if IsValueSection(spec.sections) {
      return Success(seq(|items|, i requires 0 <= i < |items| => RawValue(items[i], spec.sections[0].field, t)));
    }
    if spec.listField {
      var lists := RenderListField(items, spec.sections, c, t, batched);
      if lists.Failure? { return Failure; }
      return Success(seq(|items|, i requires 0 <= i < |items| => ProducedLists(lists.value[i])));
    }
    var rendered := RenderSections(items, spec.sections, c, t, batched, true, true);
    if rendered.Failure? { return Failure; }
    return Success(seq(|items|, i requires 0 <= i < |items| => ProducedOf(rendered.value[i])));
  }

  /** Render every output for all items and keep the complete ones. */
  method BuildOutputs(items: seq<Item>, c: Config, t: Tokenizer, batched: bool) returns (r: Result<seq<Option<Fields>>>)
    ensures !batched || Pointwise(t) ==> r.Success?
    ensures r.Success? ==> |r.value| == |items|
    ensures !batched || Pointwise(t) ==> forall i :: 0 <= i < |items| ==> r.value[i] == MultiOf(items[i], c, t)
  {
    var sources := Used(c.sources);
    var results: seq<Fields> := seq(|items|, _ => map[]);
    for k := 0 to |sources|
      invariant |results| == |items|
      invariant !batched || Pointwise(t) ==>
          forall i :: 0 <= i < |items| ==> results[i] == ResultOf(items[i], sources[..k], c, t)
    {
      assert sources[..k + 1][..k] == sources[..k];
      var (key, spec) := sources[k];
      var produced := RenderSource(items, spec, c, t, batched);
      if produced.Failure? { return Failure; }
      results := seq(|items|, i requires 0 <= i < |items| => Stored(results[i], key, spec, produced.value[i]));
    }
    assert sources[..|sources|] == sources;
    return Success(seq(|items|, i requires 0 <= i < |items| => Finished(items[i], results[i], sources, c)));
  }

  method BuildSingles(items: seq<Item>, c: Config, t: Tokenizer, batched: bool) returns (r: Result<seq<Option<Fields>>>)
    ensures !batched || Pointwise(t) ==> r.Success?
    ensures r.Success? ==> |r.value| == |items|
    ensures !batched || Pointwise(t) ==> forall i :: 0 <= i < |items| ==> r.value[i] == SingleOf(items[i], c, t)
  {
    if c.sections == [] { return Success(seq(|items|, _ => None)); }
    var rendered := RenderSections(items, c.sections, c, t, batched, true, true);
    if rendered.Failure? { return Failure; }
    return Success(seq(|items|, i requires 0 <= i < |items| => SingleResult(items[i], rendered.value[i], c)));
  }

  /** One item, one text at a time. */
  method Build(item: Item, c: Config, t: Tokenizer) returns (r: Option<Fields>)
    ensures r == Built(item, c, t)
  {
    if c.sources != [] {
      var many := BuildOutputs([item], c, t, false);
      r := many.value[0];
    } else {
      var many := BuildSingles([item], c, t, false);
      r := many.value[0];
    }
  }

  /** Many items with batched encoding: with a pointwise batch encoder, exactly what each item builds on its own. */
  method BuildBatch(items: seq<Item>, c: Config, t: Tokenizer) returns (r: Result<seq<Option<Fields>>>)
    ensures Pointwise(t) ==>
        r.Success? && |r.value| == |items| && forall i :: 0 <= i < |items| ==> r.value[i] == Built(items[i], c, t)
  {
    if c.sources != [] {
      r := BuildOutputs(items, c, t, true);
    } else {
      r := BuildSingles(items, c, t, true);
    }
  }

  // ---------- Labels ----------

  /** Ids and mask of one output have the same shape, list by list. */
  predicate SameShape(ids: Output, mask: Output) {
    match ids
    case Ids(s) => mask.Ids? && |mask.ids| == |s|
    case Lists(ss) => mask.Lists? && |mask.lists| == |ss| && forall k | 0 <= k < |ss| :: |mask.lists[k]| == |ss[k]|
    case _ => false
  }

  lemma RenderedAligned(item: Item, sections: seq<Section>, c: Config, t: Tokenizer, topLevel: bool, filterText: bool)
    ensures var r := RenderOne(item, sections, c, t, topLevel, filterText);
            r.Some? ==> |r.value.ids| == |r.value.mask| > 0
  {
  }

  lemma {:induction false} KeptAligned(items: seq<Item>, s: Section, c: Config, t: Tokenizer)
    ensures forall k :: 0 <= k < |Kept(items, ElementRenderer(s, c, t))| ==>
              |Kept(items, ElementRenderer(s, c, t))[k].ids| == |Kept(items, ElementRenderer(s, c, t))[k].mask| > 0
  {
    if items != [] {
      KeptAligned(items[..|items| - 1], s, c, t);
      RenderedAligned(items[|items| - 1], [ListSection(s)], c, t, false, false);
    }
  }

  lemma {:induction false} ListsAligned(item: Item, sections: seq<Section>, c: Config, t: Tokenizer)
    ensures forall k :: 0 <= k < |ListOf(item, sections, c, t)| ==>
              |ListOf(item, sections, c, t)[k].ids| == |ListOf(item, sections, c, t)[k].mask| > 0
  {
    if sections != [] {
      var s := sections[|sections| - 1];
      ListsAligned(item, sections[..|sections| - 1], c, t);
      KeptAligned(Wrappers(item, s, t), s, c, t);
    }
  }

  /** Every ids list has a mask of the same length, in every kind of output. */
  lemma MasksAligned(item: Item, spec: Spec, c: Config, t: Tokenizer)
    ensures var p := SourceOf(item, spec, c, t);
            p.Some? && p.value.mask.Some? ==> SameShape(p.value.ids, p.value.mask.value)
  {
    ListsAligned(item, spec.sections, c, t);
    RenderedAligned(item, spec.sections, c, t, true, true);
  }
}
