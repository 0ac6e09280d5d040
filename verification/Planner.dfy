/**
  The bitset planner: open bins are stacked by remaining capacity, and bit r of
  `available` says that some stack r is non-empty, so that one shift and one
  lowest-set-bit find the tightest bin.
 */
module Planner {
  import opened Sequences
  import opened Bits
  import opened BestFit

  /** Stacked bins are open and have exactly the remaining capacity of their stack. */
  ghost predicate Sound(lengths: seq<int>, capacity: int, bins: seq<seq<nat>>, stacks: seq<seq<nat>>) {
    forall r, q :: 0 <= r < |stacks| && 0 <= q < |stacks[r]|
                   ==> r > 0 && stacks[r][q] < |bins| && Load(bins[stacks[r][q]], lengths) == capacity - r
  }

  /** Every bin with capacity left is stacked, except possibly bin b. */
  ghost predicate CompleteBut(lengths: seq<int>, capacity: int, bins: seq<seq<nat>>, stacks: seq<seq<nat>>, b: int) {
    forall s :: 0 <= s < |bins| && s != b && 0 <= Load(bins[s], lengths) < capacity && |stacks| == capacity + 1
                ==> s in stacks[capacity - Load(bins[s], lengths)]
  }

  ghost predicate FilledBefore(lengths: seq<int>, bins: seq<seq<nat>>, s: nat, t: nat) {
    && s < |bins| && t < |bins| && bins[s] != [] && bins[t] != []
    && Before(lengths, bins[s][|bins[s]| - 1], bins[t][|bins[t]| - 1])
  }

  /** Within a stack, later entries were filled later. */
  ghost predicate Recent(lengths: seq<int>, bins: seq<seq<nat>>, stacks: seq<seq<nat>>) {
    forall r, p, q :: 0 <= r < |stacks| && 0 <= p < q < |stacks[r]| ==>
      FilledBefore(lengths, bins, stacks[r][p], stacks[r][q])
  }

  /** Bit r is set exactly when stack r holds a bin. */
  ghost predicate Mirrors(available: int, stacks: seq<seq<nat>>) {
    && available >= 0
    && forall r: nat :: Bit(available, r) <==> r < |stacks| && stacks[r] != []
  }

  ghost predicate Absent(stacks: seq<seq<nat>>, b: nat) {
    forall r, q :: 0 <= r < |stacks| && 0 <= q < |stacks[r]| ==> stacks[r][q] != b
  }

  ghost predicate Indexed(lengths: seq<int>, capacity: int, bins: seq<seq<nat>>, stacks: seq<seq<nat>>,
        available: int) {
    && |stacks| == capacity + 1
    && Sound(lengths, capacity, bins, stacks)
    && CompleteBut(lengths, capacity, bins, stacks, -1)
    && Recent(lengths, bins, stacks)
    && Mirrors(available, stacks)
  }

  lemma SetBit(available: int, r: nat)
    requires available >= 0
    ensures var a := Or(available, ShiftLeft(1, r));
            a >= 0 && forall i: nat :: Bit(a, i) <==> i == r || Bit(available, i)
  {
    OrNonNegative(available, Pow2(r));
    forall i: nat
      ensures Bit(Or(available, Pow2(r)), i) <==> i == r || Bit(available, i)
    {
      OrBit(available, Pow2(r), i);
      Pow2Bit(r, i);
    }
  }

  lemma ClearBit(available: int, r: nat)
    requires available >= 0
    ensures var a := And(available, Not(ShiftLeft(1, r)));
            a >= 0 && forall i: nat :: Bit(a, i) <==> i != r && Bit(available, i)
  {
    AndNonNegative(available, Not(Pow2(r)));
    forall i: nat
      ensures Bit(And(available, Not(Pow2(r))), i) <==> i != r && Bit(available, i)
    {
      AndBit(available, Not(Pow2(r)), i);
      NotBit(Pow2(r), i);
      Pow2Bit(r, i);
    }
  }

  /** The smallest remaining capacity that takes an item, read off the bitset. */
  method TightestStack(available: int, length: nat, ghost stacks: seq<seq<nat>>) returns (remaining: int)
    requires Mirrors(available, stacks)
    ensures remaining == -1 <==> forall r :: length <= r < |stacks| ==> stacks[r] == []
    ensures remaining != -1 ==> length <= remaining < |stacks| && stacks[remaining] != []
                                && forall r :: length <= r < remaining ==> stacks[r] == []
  {
    var candidates := ShiftRight(available, length);
    ShiftRightNonNegative(available, length);
    if candidates != 0 {
      LowestBit(candidates);
      remaining := length + BitLength(And(candidates, -candidates)) - 1;
      ShiftRightBit(available, length, remaining - length);
      forall r | length <= r < remaining
        ensures !Bit(available, r)
      {
        ShiftRightBit(available, length, r - length);
      }
    } else {
      remaining := -1;
      forall r: nat | length <= r
        ensures !Bit(available, r)
      {
        ShiftRightBit(available, length, r - length);
        ConstantBits(r - length);
      }
    }
  }

  /** The top of the tightest stack is the bin that naive best fit scans for. */
  lemma TopIsBest(lengths: seq<int>, capacity: int, bins: seq<seq<nat>>, stacks: seq<seq<nat>>, available: int,
        x: nat, remaining: nat)
    requires Indexed(lengths, capacity, bins, stacks, available) && WithinCapacity(lengths, capacity, bins)
    requires ValidLengths(lengths, capacity) && x < |lengths|
    requires lengths[x] <= remaining < |stacks| && stacks[remaining] != []
    requires forall r :: lengths[x] <= r < remaining ==> stacks[r] == []
    ensures Scan(lengths, capacity, bins, x) == stacks[remaining][|stacks[remaining]| - 1]
  {
    var top := stacks[remaining][|stacks[remaining]| - 1];
    forall s | 0 <= s < |bins| && s != top && Fits(lengths, capacity, bins[s], x)
      ensures Prefer(lengths, bins[top], bins[s])
    {
      LoadNonNegative(bins[s], lengths);
      assert s in stacks[capacity - Load(bins[s], lengths)];
      if Load(bins[s], lengths) == Load(bins[top], lengths) {
        var q :| 0 <= q < |stacks[remaining]| && stacks[remaining][q] == s;
        assert FilledBefore(lengths, bins, s, top);
      }
    }
    ScanFinds(lengths, capacity, bins, x, top);
  }

  lemma NoStackNoBin(lengths: seq<int>, capacity: int, bins: seq<seq<nat>>, stacks: seq<seq<nat>>, available: int,
        x: nat)
    requires Indexed(lengths, capacity, bins, stacks, available) && WithinCapacity(lengths, capacity, bins)
    requires ValidLengths(lengths, capacity) && x < |lengths|
    requires forall r :: lengths[x] <= r < |stacks| ==> stacks[r] == []
    ensures Scan(lengths, capacity, bins, x) == -1
  {
    forall s | 0 <= s < |bins|
      ensures !Fits(lengths, capacity, bins[s], x)
    {
      LoadNonNegative(bins[s], lengths);
      assert Load(bins[s], lengths) < capacity ==> s in stacks[capacity - Load(bins[s], lengths)];
    }
  }

  /** Taking the top bin off its stack leaves every other bin indexed. */
  lemma PopKeeps(lengths: seq<int>, capacity: int, bins: seq<seq<nat>>, stacks: seq<seq<nat>>, available: int,
        r: nat, top: nat)
    requires Indexed(lengths, capacity, bins, stacks, available)
    requires r < |stacks| && stacks[r] != [] && top == stacks[r][|stacks[r]| - 1]
    ensures var popped := stacks[r := stacks[r][..|stacks[r]| - 1]];
            && Sound(lengths, capacity, bins, popped)
            && CompleteBut(lengths, capacity, bins, popped, top)
            && Recent(lengths, bins, popped)
            && Absent(popped, top)
  {
    var popped := stacks[r := stacks[r][..|stacks[r]| - 1]];
    forall i, q | 0 <= i < |popped| && 0 <= q < |popped[i]|
      ensures popped[i][q] != top
    {
      assert popped[i][q] == stacks[i][q];
      assert i == r ==> FilledBefore(lengths, bins, stacks[r][q], top);
    }
    forall s | 0 <= s < |bins| && s != top && 0 <= Load(bins[s], lengths) < capacity
      ensures s in popped[capacity - Load(bins[s], lengths)]
    {
      var i := capacity - Load(bins[s], lengths);
      var q :| 0 <= q < |stacks[i]| && stacks[i][q] == s;
      assert popped[i][q] == s;
    }
  }

  /** Only bin b differs, and it is not stacked. */
  ghost predicate Refilled(bins: seq<seq<nat>>, bins': seq<seq<nat>>, stacks: seq<seq<nat>>, b: nat) {
    && Absent(stacks, b)
    && |bins| <= |bins'| <= |bins| + 1 && b < |bins'| && (|bins'| > |bins| ==> b == |bins|)
    && (forall s :: 0 <= s < |bins'| ==> bins'[s] != [])
    && forall s :: 0 <= s < |bins| && s != b ==> bins'[s] == bins[s]
  }

  lemma RefillKeeps(lengths: seq<int>, capacity: int, bins: seq<seq<nat>>, bins': seq<seq<nat>>,
        stacks: seq<seq<nat>>, b: nat)
    requires Sound(lengths, capacity, bins, stacks) && Recent(lengths, bins, stacks) && Refilled(bins, bins', stacks, b)
    ensures Sound(lengths, capacity, bins', stacks) && Recent(lengths, bins', stacks)
  {
    forall i, p, q | 0 <= i < |stacks| && 0 <= p < q < |stacks[i]|
      ensures FilledBefore(lengths, bins', stacks[i][p], stacks[i][q])
    {
      assert FilledBefore(lengths, bins, stacks[i][p], stacks[i][q]);
    }
  }

  lemma PushedAt(lengths: seq<int>, capacity: int, bins: seq<seq<nat>>, stacks: seq<seq<nat>>, b: nat, r: nat,
        i: nat, q: nat)
    requires Sound(lengths, capacity, bins, stacks) && 0 < r < |stacks| && b < |bins|
    requires r == capacity - Load(bins[b], lengths)
    requires i < |stacks| && q < |stacks[r := stacks[r] + [b]][i]|
    ensures var x := stacks[r := stacks[r] + [b]][i][q]; i > 0 && x < |bins| && Load(bins[x], lengths) == capacity - i
  {
    if i != r || q < |stacks[r]| { assert stacks[r := stacks[r] + [b]][i][q] == stacks[i][q]; }
  }

  lemma PushSound(lengths: seq<int>, capacity: int, bins: seq<seq<nat>>, stacks: seq<seq<nat>>, b: nat, r: nat)
    requires Sound(lengths, capacity, bins, stacks) && 0 < r < |stacks| && b < |bins|
    requires r == capacity - Load(bins[b], lengths)
    ensures Sound(lengths, capacity, bins, stacks[r := stacks[r] + [b]])
  {
    var pushed := stacks[r := stacks[r] + [b]];
    forall i: nat, q: nat | i < |pushed| && q < |pushed[i]|
      ensures i > 0 && pushed[i][q] < |bins| && Load(bins[pushed[i][q]], lengths) == capacity - i
    {
      PushedAt(lengths, capacity, bins, stacks, b, r, i, q);
    }
    assert Sound(lengths, capacity, bins, pushed);
  }

  lemma RefillComplete(lengths: seq<int>, capacity: int, bins: seq<seq<nat>>, bins': seq<seq<nat>>,
        stacks: seq<seq<nat>>, b: nat, r: nat)
    requires |stacks| == capacity + 1 && CompleteBut(lengths, capacity, bins, stacks, b)
    requires Refilled(bins, bins', stacks, b)
    requires r == capacity - Load(bins'[b], lengths)
    ensures r == 0 ==> CompleteBut(lengths, capacity, bins', stacks, -1)
    ensures 0 < r <= capacity ==> CompleteBut(lengths, capacity, bins', stacks[r := stacks[r] + [b]], -1)
  {
    forall s | 0 <= s < |bins'| && s != b && 0 <= Load(bins'[s], lengths) < capacity
      ensures s in stacks[capacity - Load(bins'[s], lengths)]
    {
      assert s in stacks[capacity - Load(bins[s], lengths)];
    }
    if 0 < r <= capacity {
      assert (stacks[r] + [b])[|stacks[r]|] == b;
    }
  }

  lemma PushRecent(lengths: seq<int>, bins: seq<seq<nat>>, stacks: seq<seq<nat>>, b: nat, x: nat, r: nat)
    requires Recent(lengths, bins, stacks) && r < |stacks|
    requires b < |bins| && bins[b] != [] && bins[b][|bins[b]| - 1] == x
    requires forall q :: 0 <= q < |stacks[r]| ==> FilledBefore(lengths, bins, stacks[r][q], b)
    ensures Recent(lengths, bins, stacks[r := stacks[r] + [b]])
  {
    var pushed := stacks[r := stacks[r] + [b]];
    forall i, p, q | 0 <= i < |pushed| && 0 <= p < q < |pushed[i]|
      ensures FilledBefore(lengths, bins, pushed[i][p], pushed[i][q])
    {
      assert pushed[i][p] == stacks[i][p];
      if q < |stacks[i]| { assert pushed[i][q] == stacks[i][q]; }
    }
  }

  /** Bin b now ends with x; stacking it under its remaining capacity restores the index. */
  lemma PushKeeps(lengths: seq<int>, capacity: int, bins: seq<seq<nat>>, bins': seq<seq<nat>>,
        stacks: seq<seq<nat>>, b: nat, x: nat, r: nat)
    requires |stacks| == capacity + 1
    requires Sound(lengths, capacity, bins, stacks) && CompleteBut(lengths, capacity, bins, stacks, b)
    requires Recent(lengths, bins, stacks) && Refilled(bins, bins', stacks, b)
    requires forall s :: 0 <= s < |bins| && s != b && bins[s] != [] ==> Before(lengths, bins[s][|bins[s]| - 1], x)
    requires bins'[b][|bins'[b]| - 1] == x && r == capacity - Load(bins'[b], lengths)
    ensures r == 0 ==>
              && Sound(lengths, capacity, bins', stacks) && CompleteBut(lengths, capacity, bins', stacks, -1)
              && Recent(lengths, bins', stacks)
    ensures 0 < r <= capacity ==>
              var pushed := stacks[r := stacks[r] + [b]];
              && Sound(lengths, capacity, bins', pushed) && CompleteBut(lengths, capacity, bins', pushed, -1)
              && Recent(lengths, bins', pushed)
  {
    RefillKeeps(lengths, capacity, bins, bins', stacks, b);
    RefillComplete(lengths, capacity, bins, bins', stacks, b, r);
    if 0 < r <= capacity {
      PushSound(lengths, capacity, bins', stacks, b, r);
      forall q | 0 <= q < |stacks[r]|
        ensures FilledBefore(lengths, bins', stacks[r][q], b)
      {
        assert stacks[r][q] < |bins'| && stacks[r][q] != b && stacks[r][q] < |bins|;
      }
      PushRecent(lengths, bins', stacks, b, x, r);
    }
  }

  function MinOf(bin: seq<nat>): (m: nat)
    ensures bin != [] ==> m in bin
    ensures forall i :: 0 <= i < |bin| ==> m <= bin[i]
  {
    if bin == [] then 0
    else if |bin| == 1 then bin[0]
    else
      var m := MinOf(bin[..|bin| - 1]);
      if m <= bin[|bin| - 1] then m else bin[|bin| - 1]
  }

  function InsertByMin(sorted: seq<seq<nat>>, bin: seq<nat>): (r: seq<seq<nat>>)
    ensures multiset(r) == multiset(sorted) + multiset{bin}
    ensures forall a :: 0 <= a < |r| ==> r[a] == bin || r[a] in sorted
  {
    if sorted == [] then [bin]
    else
      var n := |sorted| - 1;
      if MinOf(sorted[n]) <= MinOf(bin) then sorted + [bin]
      else
        assert sorted == sorted[..n] + [sorted[n]];
        InsertByMin(sorted[..n], bin) + [sorted[n]]
  }

  /** Python's sorted(bins, key=min). */
  function SortByMin(bins: seq<seq<nat>>): (r: seq<seq<nat>>)
    ensures multiset(r) == multiset(bins)
  {
    if bins == [] then []
    else
      var n := |bins| - 1;
      assert bins == bins[..n] + [bins[n]];
      InsertByMin(SortByMin(bins[..n]), bins[n])
  }

  ghost predicate MinSorted(bins: seq<seq<nat>>) {
    forall a, b :: 0 <= a < b < |bins| ==> MinOf(bins[a]) <= MinOf(bins[b])
  }

  ghost predicate MinsAtMost(bins: seq<seq<nat>>, m: nat) {
    forall a :: 0 <= a < |bins| ==> MinOf(bins[a]) <= m
  }

  lemma {:induction false} InsertAtMost(sorted: seq<seq<nat>>, bin: seq<nat>, m: nat)
    requires MinsAtMost(sorted, m) && MinOf(bin) <= m
    ensures MinsAtMost(InsertByMin(sorted, bin), m)
  {
    if sorted != [] && MinOf(sorted[|sorted| - 1]) > MinOf(bin) {
      InsertAtMost(sorted[..|sorted| - 1], bin, m);
    }
  }

  lemma AppendMinSorted(bins: seq<seq<nat>>, last: seq<nat>)
    requires MinSorted(bins) && MinsAtMost(bins, MinOf(last))
    ensures MinSorted(bins + [last])
  {
  }

  lemma {:induction false} InsertKeepsMinSorted(sorted: seq<seq<nat>>, bin: seq<nat>)
    requires MinSorted(sorted)
    ensures MinSorted(InsertByMin(sorted, bin))
  {
    if sorted != [] {
      var n := |sorted| - 1;
      if MinOf(sorted[n]) <= MinOf(bin) {
        AppendMinSorted(sorted, bin);
      } else {
        InsertKeepsMinSorted(sorted[..n], bin);
        InsertAtMost(sorted[..n], bin, MinOf(sorted[n]));
        AppendMinSorted(InsertByMin(sorted[..n], bin), sorted[n]);
      }
    }
  }

  lemma {:induction false} SortIsMinSorted(bins: seq<seq<nat>>)
    ensures MinSorted(SortByMin(bins))
  {
    if bins != [] {
      SortIsMinSorted(bins[..|bins| - 1]);
      InsertKeepsMinSorted(SortByMin(bins[..|bins| - 1]), bins[|bins| - 1]);
    }
  }

  lemma OrderFacts(lengths: seq<int>)
    ensures |DescendingOrder(lengths)| == |lengths|
    ensures InOrder(lengths, DescendingOrder(lengths))
  {
    var order := DescendingOrder(lengths);
    assert |order| == |multiset(order)| == |multiset(Range(|lengths|))|;
    OrderPrefixSorted(lengths, |lengths|);
  }

  ghost predicate AllBefore(lengths: seq<int>, bins: seq<seq<nat>>, x: nat) {
    forall s :: 0 <= s < |bins| && bins[s] != [] ==> Before(lengths, bins[s][|bins[s]| - 1], x)
  }

  lemma PackedBefore(lengths: seq<int>, capacity: int, order: seq<nat>, x: nat)
    requires forall c :: 0 <= c < |order| ==> Before(lengths, order[c], x)
    ensures AllBefore(lengths, Pack(lengths, capacity, order), x)
  {
    var bins := Pack(lengths, capacity, order);
    PackPlacesAll(lengths, capacity, order);
    forall s | 0 <= s < |bins|
      ensures Before(lengths, bins[s][|bins[s]| - 1], x)
    {
      var y := bins[s][|bins[s]| - 1];
      FlattenMember(bins, y);
      assert y in multiset(Flatten(bins));
      var c :| 0 <= c < |order| && order[c] == y;
    }
  }

  /** Unstack the tightest bin that takes the item, or name a fresh bin when none does. */
  method TakeBin(lengths: seq<int>, capacity: int, bins: seq<seq<nat>>, stacks: seq<seq<nat>>, available: int,
        index: nat)
    returns (binId: nat, remaining: int, stacks': seq<seq<nat>>, available': int)
    requires ValidLengths(lengths, capacity) && index < |lengths|
    requires WithinCapacity(lengths, capacity, bins) && Indexed(lengths, capacity, bins, stacks, available)
    ensures var b := Scan(lengths, capacity, bins, index);
            if b == -1 then binId == |bins| && remaining == capacity
            else binId == b && remaining == capacity - Load(bins[b], lengths)
    ensures |stacks'| == capacity + 1 && Mirrors(available', stacks')
    ensures Sound(lengths, capacity, bins, stacks') && CompleteBut(lengths, capacity, bins, stacks', binId)
    ensures Recent(lengths, bins, stacks') && Absent(stacks', binId)
  {
    stacks', available' := stacks, available;
    remaining := TightestStack(available, lengths[index], stacks);
    if remaining != -1 {
      TopIsBest(lengths, capacity, bins, stacks, available, index, remaining);
      binId := stacks[remaining][|stacks[remaining]| - 1];
      PopKeeps(lengths, capacity, bins, stacks, available, remaining, binId);
      stacks' := stacks[remaining := stacks[remaining][..|stacks[remaining]| - 1]];
      if stacks'[remaining] == [] {
        ClearBit(available, remaining);
        available' := And(available, Not(ShiftLeft(1, remaining)));
      }
    } else {
      NoStackNoBin(lengths, capacity, bins, stacks, available, index);
      binId := |bins|;
      remaining := capacity;
    }
  }

  /** Stack a bin under its remaining capacity; a full bin is not stacked. */
  method StackBin(stacks: seq<seq<nat>>, available: int, remaining: nat, binId: nat)
    returns (stacks': seq<seq<nat>>, available': int)
    requires Mirrors(available, stacks) && remaining < |stacks|
    ensures stacks' == if remaining == 0 then stacks else stacks[remaining := stacks[remaining] + [binId]]
    ensures Mirrors(available', stacks')
  {
    stacks', available' := stacks, available;
    if remaining != 0 {
      SetBit(available, remaining);
      stacks' := stacks[remaining := stacks[remaining] + [binId]];
      available' := Or(available, ShiftLeft(1, remaining));
    }
  }

  /** One step of the planner: the item goes where the naive scan puts it, and the index is kept. */
  method PlaceIndexed(lengths: seq<int>, capacity: int, bins: seq<seq<nat>>, stacks: seq<seq<nat>>,
        available: int, index: nat)
    returns (bins': seq<seq<nat>>, stacks': seq<seq<nat>>, available': int)
    requires ValidLengths(lengths, capacity) && index < |lengths|
    requires WithinCapacity(lengths, capacity, bins) && Indexed(lengths, capacity, bins, stacks, available)
    requires AllBefore(lengths, bins, index)
    ensures bins' == Place(lengths, capacity, bins, index)
    ensures Indexed(lengths, capacity, bins', stacks', available')
  {
    var binId, remaining;
    binId, remaining, stacks', available' := TakeBin(lengths, capacity, bins, stacks, available, index);
    if binId == |bins| {
      bins' := bins + [[]];
      assert bins'[binId] + [index] == [index];
      LoadSingle(index, lengths);
    } else {
      bins' := bins;
      LoadAppend(bins[binId], index, lengths);
    }
    bins' := bins'[binId := bins'[binId] + [index]];
    remaining := remaining - lengths[index];
    assert bins' == Place(lengths, capacity, bins, index);
    PlaceWithinCapacity(lengths, capacity, bins, index);
    LoadNonNegative(bins'[binId], lengths);
    PushKeeps(lengths, capacity, bins, bins', stacks', binId, index, remaining);
    stacks', available' := StackBin(stacks', available', remaining, binId);
  }

  lemma NothingIndexed(lengths: seq<int>, capacity: int, stacks: seq<seq<nat>>)
    requires |stacks| == capacity + 1 && forall r :: 0 <= r < |stacks| ==> stacks[r] == []
    ensures Indexed(lengths, capacity, [], stacks, 0)
  {
    forall i: nat
      ensures !Bit(0, i)
    {
      ConstantBits(i);
    }
  }

  lemma PrefixBefore(lengths: seq<int>, order: seq<nat>, k: nat)
    requires InOrder(lengths, order) && k < |order|
    requires forall a :: 0 <= a < |order| ==> order[a] < |lengths|
    ensures InOrder(lengths, order[..k]) && order[k] < |lengths|
    ensures forall c :: 0 <= c < k ==> order[..k][c] < |lengths| && Before(lengths, order[..k][c], order[k])
  {
  }

  /** The planner's loop: place the items in order, keeping the index. */
  method PackIndexed(lengths: seq<int>, capacity: int, order: seq<nat>) returns (bins: seq<seq<nat>>)
    requires ValidLengths(lengths, capacity) && InOrder(lengths, order)
    requires forall a :: 0 <= a < |order| ==> order[a] < |lengths|
    ensures bins == Pack(lengths, capacity, order)
  {
    bins := [];
    var stacks: seq<seq<nat>> := seq(capacity + 1, _ => []);
    var available := 0;
    assert order[..0] == [];
    NothingIndexed(lengths, capacity, stacks);
    for k := 0 to |order|
      invariant bins == Pack(lengths, capacity, order[..k])
      invariant Indexed(lengths, capacity, bins, stacks, available)
    {
      PrefixBefore(lengths, order, k);
      PackKeepsInvariant(lengths, capacity, order[..k]);
      PackedBefore(lengths, capacity, order[..k], order[k]);
      assert order[..k + 1][..k] == order[..k];
      bins, stacks, available := PlaceIndexed(lengths, capacity, bins, stacks, available, order[k]);
    }
    assert order[..|order|] == order;
  }

  /** The planner's result: the bins of best-fit decreasing, by smallest index. */
  function Plan(lengths: seq<int>, capacity: int): seq<seq<nat>> {
    SortByMin(BestFitDecreasing(lengths, capacity))
  }

  /**
    Best-fit decreasing with the bitset index. It fails on an impossible length
    and otherwise returns exactly the bins of the naive scan, by smallest index.
   */
  method PlanBfd(lengths: seq<int>, capacity: int) returns (r: Result<seq<seq<nat>>>)
    ensures r.Success? <==> ValidLengths(lengths, capacity)
    ensures r.Success? ==> r.value == Plan(lengths, capacity)
  {
    if capacity <= 0 || exists i :: 0 <= i < |lengths| && (lengths[i] <= 0 || lengths[i] > capacity) {
      return Failure;
    }
    OrderFacts(lengths);
    var bins := PackIndexed(lengths, capacity, DescendingOrder(lengths));
    return Success(SortByMin(bins));
  }

  lemma {:induction false} RangeOnce(n: nat, x: nat)
    ensures multiset(Range(n))[x] <= 1
  {
    if n > 0 {
      RangeOnce(n - 1, x);
      assert Range(n) == Range(n - 1) + [n - 1];
      assert x == n - 1 ==> x !in multiset(Range(n - 1));
    }
  }

  /** No index sits in two bins of a partition. */
  lemma DisjointBins(bins: seq<seq<nat>>, n: nat, a: nat, b: nat, x: nat)
    requires Partition(bins, n) && a < b < |bins| && x in bins[a]
    ensures x !in bins[b]
  {
    RangeOnce(n, x);
    FlattenMultiset(bins, b);
    var rest := bins[..b] + bins[b + 1..];
    assert rest[a] == bins[a];
    FlattenMember(rest, x);
    assert x in multiset(Flatten(rest));
    assert multiset(bins[b])[x] == 0;
  }

  lemma SortedPlanIsPacking(bins: seq<seq<nat>>, lengths: seq<int>, capacity: int)
    requires Packing(bins, lengths, capacity) && forall b :: 0 <= b < |bins| ==> bins[b] != []
    ensures var plan := SortByMin(bins);
            Packing(plan, lengths, capacity) && |plan| == |bins| && forall b :: 0 <= b < |plan| ==> plan[b] != []
  {
    var plan := SortByMin(bins);
    FlattenPermutation(plan, bins);
    forall b | 0 <= b < |plan|
      ensures plan[b] != [] && Load(plan[b], lengths) <= capacity
    {
      assert plan[b] in multiset(plan);
      assert plan[b] in bins;
    }
    assert |plan| == |multiset(plan)| == |multiset(bins)|;
  }

  lemma MinsDiffer(bins: seq<seq<nat>>, n: nat, a: nat, b: nat)
    requires Partition(bins, n) && a < b < |bins| && bins[a] != [] && bins[b] != []
    ensures MinOf(bins[a]) != MinOf(bins[b])
  {
    DisjointBins(bins, n, a, b, MinOf(bins[a]));
  }

  /** The plan holds every index once, overfills no bin, and lists the bins by smallest index. */
  lemma PlanIsPacking(lengths: seq<int>, capacity: int)
    requires ValidLengths(lengths, capacity)
    ensures Packing(Plan(lengths, capacity), lengths, capacity)
    ensures var plan := Plan(lengths, capacity);
            && (forall b :: 0 <= b < |plan| ==> plan[b] != [])
            && (forall a, b :: 0 <= a < b < |plan| ==> MinOf(plan[a]) < MinOf(plan[b]))
  {
    var plan := Plan(lengths, capacity);
    RunIsValid(lengths, capacity);
    SortedPlanIsPacking(BestFitDecreasing(lengths, capacity), lengths, capacity);
    SortIsMinSorted(BestFitDecreasing(lengths, capacity));
    forall a, b | 0 <= a < b < |plan|
      ensures MinOf(plan[a]) < MinOf(plan[b])
    {
      MinsDiffer(plan, |lengths|, a, b);
    }
  }

  /** No packing into bins of the same capacity saves more than a third of the plan's bins. */
  lemma PlanIsThreeHalves(lengths: seq<int>, capacity: int, other: seq<seq<nat>>)
    requires ValidLengths(lengths, capacity) && Packing(other, lengths, capacity)
    ensures 2 * |Plan(lengths, capacity)| <= 3 * |other|
  {
    RunIsValid(lengths, capacity);
    SortedPlanIsPacking(BestFitDecreasing(lengths, capacity), lengths, capacity);
    ThreeHalves(lengths, capacity, other);
  }
}
