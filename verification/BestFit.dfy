/**
  Naive best-fit decreasing, the reference that the bitset planner refines,
  and its approximation bound: never more than 3/2 of any packing.
 */
module BestFit {
  import opened Sequences
  import opened Arithmetic

  ghost predicate ValidLengths(lengths: seq<int>, capacity: int) {
    capacity > 0 && forall i :: 0 <= i < |lengths| ==> 0 < lengths[i] <= capacity
  }

  /** Processing order: longer first, ties by source index (a stable sort with the order reversed). */
  predicate Before(lengths: seq<int>, i: nat, j: nat) {
    At(lengths, i) > At(lengths, j) || (At(lengths, i) == At(lengths, j) && i < j)
  }

  function Insert(lengths: seq<int>, sorted: seq<nat>, x: nat): (r: seq<nat>)
    ensures multiset(r) == multiset(sorted) + multiset{x}
    ensures forall a :: 0 <= a < |r| ==> r[a] == x || r[a] in sorted
  {
    if sorted == [] then [x]
    else if At(lengths, sorted[|sorted| - 1]) >= At(lengths, x) then sorted + [x]
    else
      var n := |sorted| - 1;
      assert sorted == sorted[..n] + [sorted[n]];
      Insert(lengths, sorted[..n], x) + [sorted[n]]
  }

  function OrderPrefix(lengths: seq<int>, n: nat): (r: seq<nat>)
    ensures multiset(r) == multiset(Range(n))
    ensures forall a :: 0 <= a < |r| ==> r[a] < n
  {
    if n == 0 then []
    else
      assert Range(n) == Range(n - 1) + [n - 1];
      Insert(lengths, OrderPrefix(lengths, n - 1), n - 1)
  }

  function DescendingOrder(lengths: seq<int>): seq<nat> {
    OrderPrefix(lengths, |lengths|)
  }

  ghost predicate InOrder(lengths: seq<int>, order: seq<nat>) {
    forall a, b :: 0 <= a < b < |order| ==> Before(lengths, order[a], order[b])
  }

  lemma {:induction false} InsertKeepsOrder(lengths: seq<int>, sorted: seq<nat>, x: nat)
    requires InOrder(lengths, sorted)
    requires forall a :: 0 <= a < |sorted| ==> sorted[a] < x
    ensures InOrder(lengths, Insert(lengths, sorted, x))
  {
    if sorted == [] {
    } else if At(lengths, sorted[|sorted| - 1]) >= At(lengths, x) {
      var n := |sorted| - 1;
      forall a | 0 <= a < |sorted|
        ensures Before(lengths, sorted[a], x)
      {
        assert a < n ==> Before(lengths, sorted[a], sorted[n]);
      }
    } else {
      var n := |sorted| - 1;
      InsertKeepsOrder(lengths, sorted[..n], x);
      var r := Insert(lengths, sorted[..n], x);
      forall a | 0 <= a < |r|
        ensures Before(lengths, r[a], sorted[n])
      {
        if r[a] != x {
          var c :| 0 <= c < n && sorted[..n][c] == r[a];
          assert Before(lengths, sorted[c], sorted[n]);
        }
      }
      assert Insert(lengths, sorted, x) == r + [sorted[n]];
    }
  }

  lemma {:induction false} OrderPrefixSorted(lengths: seq<int>, n: nat)
    ensures InOrder(lengths, OrderPrefix(lengths, n))
  {
    if n > 0 {
      OrderPrefixSorted(lengths, n - 1);
      InsertKeepsOrder(lengths, OrderPrefix(lengths, n - 1), n - 1);
    }
  }

  predicate Fits(lengths: seq<int>, capacity: int, bin: seq<nat>, x: nat) {
    Load(bin, lengths) + At(lengths, x) <= capacity
  }

  /** Bin a is preferred over bin b: fuller, and among equally full the one filled most recently. */
  predicate Prefer(lengths: seq<int>, a: seq<nat>, b: seq<nat>)
    requires a != [] && b != []
  {
    Load(a, lengths) > Load(b, lengths)
    || (Load(a, lengths) == Load(b, lengths) && Before(lengths, b[|b| - 1], a[|a| - 1]))
  }

  /** Linear scan for the fullest bin that still takes item x; -1 when none does. */
  function Scan(lengths: seq<int>, capacity: int, bins: seq<seq<nat>>, x: nat): (b: int)
    requires forall s :: 0 <= s < |bins| ==> bins[s] != []
    ensures -1 <= b < |bins|
    ensures b == -1 <==> forall s :: 0 <= s < |bins| ==> !Fits(lengths, capacity, bins[s], x)
    ensures b >= 0 ==> Fits(lengths, capacity, bins[b], x)
    ensures b >= 0 ==> forall s :: 0 <= s < |bins| && Fits(lengths, capacity, bins[s], x)
                             ==> Load(bins[s], lengths) <= Load(bins[b], lengths)
  {
    if bins == [] then -1
    else
      var n := |bins| - 1;
      var b := Scan(lengths, capacity, bins[..n], x);
      if !Fits(lengths, capacity, bins[n], x) then b
      else if b == -1 || Prefer(lengths, bins[n], bins[b]) then n
      else b
  }

  /** A fitting bin preferred over every other fitting bin is the one the scan finds. */
  lemma {:induction false} ScanFinds(lengths: seq<int>, capacity: int, bins: seq<seq<nat>>, x: nat, b: nat)
    requires forall s :: 0 <= s < |bins| ==> bins[s] != []
    requires b < |bins| && Fits(lengths, capacity, bins[b], x)
    requires forall s :: 0 <= s < |bins| && s != b && Fits(lengths, capacity, bins[s], x) ==>
        Prefer(lengths, bins[b], bins[s])
    ensures Scan(lengths, capacity, bins, x) == b
  {
    var n := |bins| - 1;
    if b < n { ScanFinds(lengths, capacity, bins[..n], x, b); }
  }

  function Place(lengths: seq<int>, capacity: int, bins: seq<seq<nat>>, x: nat): (r: seq<seq<nat>>)
    requires forall s :: 0 <= s < |bins| ==> bins[s] != []
    ensures forall s :: 0 <= s < |r| ==> r[s] != []
  {
    var b := Scan(lengths, capacity, bins, x);
    if b == -1 then bins + [[x]] else bins[b := bins[b] + [x]]
  }

  /** Naive best fit over a processing order. */
  function Pack(lengths: seq<int>, capacity: int, order: seq<nat>): (bins: seq<seq<nat>>)
    ensures forall s :: 0 <= s < |bins| ==> bins[s] != []
  {
    if order == [] then []
    else Place(lengths, capacity, Pack(lengths, capacity, order[..|order| - 1]), order[|order| - 1])
  }

  ghost predicate WithinCapacity(lengths: seq<int>, capacity: int, bins: seq<seq<nat>>) {
    forall s :: 0 <= s < |bins| ==> bins[s] != [] && Load(bins[s], lengths) <= capacity
  }

  /** Items are no longer than the first item of their own or any earlier bin. */
  ghost predicate FirstsDominate(lengths: seq<int>, bins: seq<seq<nat>>) {
    forall s, t, k :: 0 <= s <= t < |bins| && 0 <= k < |bins[t]| && bins[s] != []
                      ==> At(lengths, bins[t][k]) <= At(lengths, bins[s][0])
  }

  /** The item that opened bin t fits in no earlier bin. */
  ghost predicate OpenersFitNowhere(lengths: seq<int>, capacity: int, bins: seq<seq<nat>>) {
    forall s, t :: 0 <= s < t < |bins| && bins[t] != [] ==> Load(bins[s], lengths) + At(lengths, bins[t][0]) > capacity
  }

  /** Nor does the second item of a bin opened by an item of at most half the capacity. */
  ghost predicate SecondsFitNowhere(lengths: seq<int>, capacity: int, bins: seq<seq<nat>>) {
    forall s, t :: 0 <= s < t < |bins| && |bins[t]| >= 2 && 2 * At(lengths, bins[t][0]) <= capacity
                   ==> Load(bins[s], lengths) + At(lengths, bins[t][1]) > capacity
  }

  /** What every prefix of a decreasing run keeps true of the open bins. */
  ghost predicate RunInvariant(lengths: seq<int>, capacity: int, bins: seq<seq<nat>>) {
    && WithinCapacity(lengths, capacity, bins)
    && FirstsDominate(lengths, bins)
    && OpenersFitNowhere(lengths, capacity, bins)
    && SecondsFitNowhere(lengths, capacity, bins)
  }

  ghost predicate NoneShorter(lengths: seq<int>, bins: seq<seq<nat>>, x: nat) {
    forall s, k :: 0 <= s < |bins| && 0 <= k < |bins[s]| ==> At(lengths, x) <= At(lengths, bins[s][k])
  }

  lemma LoadAppend(bin: seq<nat>, x: nat, lengths: seq<int>)
    ensures Load(bin + [x], lengths) == Load(bin, lengths) + At(lengths, x)
  {
    assert (bin + [x])[..|bin|] == bin;
  }

  lemma LoadSingle(x: nat, lengths: seq<int>)
    ensures Load([x], lengths) == At(lengths, x)
  {
    assert [] + [x] == [x];
    LoadAppend([], x, lengths);
  }

  /** Placing x changes one bin, by appending x, or opens a bin for x alone. */
  lemma PlaceEffect(lengths: seq<int>, capacity: int, bins: seq<seq<nat>>, x: nat)
    requires WithinCapacity(lengths, capacity, bins) && At(lengths, x) > 0
    ensures var r := Place(lengths, capacity, bins, x);
            |bins| <= |r| && forall s :: 0 <= s < |bins| ==>
              Load(bins[s], lengths) <= Load(r[s], lengths) && r[s][0] == bins[s][0]
  {
    var b := Scan(lengths, capacity, bins, x);
    if b != -1 { LoadAppend(bins[b], x, lengths); }
  }

  lemma PlaceWithinCapacity(lengths: seq<int>, capacity: int, bins: seq<seq<nat>>, x: nat)
    requires WithinCapacity(lengths, capacity, bins) && 0 < At(lengths, x) <= capacity
    ensures WithinCapacity(lengths, capacity, Place(lengths, capacity, bins, x))
  {
    var b := Scan(lengths, capacity, bins, x);
    LoadSingle(x, lengths);
    if b != -1 { LoadAppend(bins[b], x, lengths); }
  }

  lemma PlaceFirstsDominate(lengths: seq<int>, capacity: int, bins: seq<seq<nat>>, x: nat)
    requires WithinCapacity(lengths, capacity, bins) && FirstsDominate(lengths, bins) && NoneShorter(lengths, bins, x)
    ensures FirstsDominate(lengths, Place(lengths, capacity, bins, x))
  {
    var b := Scan(lengths, capacity, bins, x);
    var r := Place(lengths, capacity, bins, x);
    forall s, t, k | 0 <= s <= t < |r| && 0 <= k < |r[t]|
      ensures At(lengths, r[t][k]) <= At(lengths, r[s][0])
    {
      if t < |bins| && k < |bins[t]| {
        assert r[t][k] == bins[t][k] && r[s][0] == bins[s][0];
      } else {
        assert r[t][k] == x;
        assert s < |bins| ==> r[s][0] == bins[s][0];
      }
    }
  }

  lemma PlaceOpeners(lengths: seq<int>, capacity: int, bins: seq<seq<nat>>, x: nat)
    requires WithinCapacity(lengths, capacity, bins) && OpenersFitNowhere(lengths, capacity, bins) && At(lengths, x) > 0
    ensures OpenersFitNowhere(lengths, capacity, Place(lengths, capacity, bins, x))
  {
    PlaceEffect(lengths, capacity, bins, x);
    var r := Place(lengths, capacity, bins, x);
    forall s, t | 0 <= s < t < |r|
      ensures Load(r[s], lengths) + At(lengths, r[t][0]) > capacity
    {
      if t < |bins| {
        assert Load(bins[s], lengths) + At(lengths, bins[t][0]) > capacity;
      } else {
        assert !Fits(lengths, capacity, bins[s], x);
      }
    }
  }

  /** A second item just placed in bin t fits no earlier bin: best fit would have found it no emptier than bin t. */
  lemma NewSecond(lengths: seq<int>, capacity: int, bins: seq<seq<nat>>, x: nat, s: nat, t: nat)
    requires RunInvariant(lengths, capacity, bins) && At(lengths, x) > 0
    requires s < t < |bins| && t == Scan(lengths, capacity, bins, x) && |bins[t]| == 1
    requires 2 * At(lengths, bins[t][0]) <= capacity
    ensures Load(bins[s], lengths) + At(lengths, x) > capacity
  {
    assert bins[t] == [bins[t][0]];
    LoadSingle(bins[t][0], lengths);
    assert Load(bins[s], lengths) + At(lengths, bins[t][0]) > capacity;
    assert !Fits(lengths, capacity, bins[s], x);
  }

  lemma PlaceSeconds(lengths: seq<int>, capacity: int, bins: seq<seq<nat>>, x: nat)
    requires RunInvariant(lengths, capacity, bins) && At(lengths, x) > 0
    ensures SecondsFitNowhere(lengths, capacity, Place(lengths, capacity, bins, x))
  {
    PlaceEffect(lengths, capacity, bins, x);
    var b := Scan(lengths, capacity, bins, x);
    var r := Place(lengths, capacity, bins, x);
    forall s, t | 0 <= s < t < |r| && |r[t]| >= 2 && 2 * At(lengths, r[t][0]) <= capacity
      ensures Load(r[s], lengths) + At(lengths, r[t][1]) > capacity
    {
      if |bins[t]| >= 2 {
        assert r[t][1] == bins[t][1];
        assert Load(bins[s], lengths) + At(lengths, bins[t][1]) > capacity;
      } else {
        NewSecond(lengths, capacity, bins, x, s, t);
      }
    }
  }

  lemma PlacedBefore(lengths: seq<int>, bins: seq<seq<nat>>, placed: seq<nat>, x: nat)
    requires multiset(Flatten(bins)) == multiset(placed)
    requires forall a :: 0 <= a < |placed| ==> Before(lengths, placed[a], x)
    ensures NoneShorter(lengths, bins, x)
  {
    forall s, k | 0 <= s < |bins| && 0 <= k < |bins[s]|
      ensures At(lengths, x) <= At(lengths, bins[s][k])
    {
      FlattenMember(bins, bins[s][k]);
      assert bins[s][k] in multiset(Flatten(bins));
      assert bins[s][k] in placed;
    }
  }

  lemma PlaceAdds(lengths: seq<int>, capacity: int, bins: seq<seq<nat>>, x: nat)
    requires forall s :: 0 <= s < |bins| ==> bins[s] != []
    ensures multiset(Flatten(Place(lengths, capacity, bins, x))) == multiset(Flatten(bins)) + multiset{x}
  {
    var b := Scan(lengths, capacity, bins, x);
    var r := Place(lengths, capacity, bins, x);
    if b == -1 {
      assert r[..|bins|] == bins;
    } else {
      FlattenMultiset(bins, b);
      FlattenMultiset(r, b);
      assert r[..b] == bins[..b] && r[b + 1..] == bins[b + 1..];
    }
  }

  lemma {:induction false} PackPlacesAll(lengths: seq<int>, capacity: int, order: seq<nat>)
    ensures multiset(Flatten(Pack(lengths, capacity, order))) == multiset(order)
  {
    if order != [] {
      var n := |order| - 1;
      PackPlacesAll(lengths, capacity, order[..n]);
      PlaceAdds(lengths, capacity, Pack(lengths, capacity, order[..n]), order[n]);
      assert order == order[..n] + [order[n]];
    }
  }

  lemma {:induction false} PackKeepsInvariant(lengths: seq<int>, capacity: int, order: seq<nat>)
    requires ValidLengths(lengths, capacity) && InOrder(lengths, order)
    requires forall a :: 0 <= a < |order| ==> order[a] < |lengths|
    ensures RunInvariant(lengths, capacity, Pack(lengths, capacity, order))
  {
    if order != [] {
      var n := |order| - 1;
      var x := order[n];
      PackKeepsInvariant(lengths, capacity, order[..n]);
      var bins := Pack(lengths, capacity, order[..n]);
      PackPlacesAll(lengths, capacity, order[..n]);
      PlacedBefore(lengths, bins, order[..n], x);
      PlaceWithinCapacity(lengths, capacity, bins, x);
      PlaceFirstsDominate(lengths, capacity, bins, x);
      PlaceOpeners(lengths, capacity, bins, x);
      PlaceSeconds(lengths, capacity, bins, x);
    }
  }

  /** Best-fit decreasing, bins in creation order. */
  function BestFitDecreasing(lengths: seq<int>, capacity: int): seq<seq<nat>> {
    Pack(lengths, capacity, DescendingOrder(lengths))
  }

  lemma RunIsValid(lengths: seq<int>, capacity: int)
    requires ValidLengths(lengths, capacity)
    ensures RunInvariant(lengths, capacity, BestFitDecreasing(lengths, capacity))
    ensures Partition(BestFitDecreasing(lengths, capacity), |lengths|)
  {
    var order := DescendingOrder(lengths);
    OrderPrefixSorted(lengths, |lengths|);
    PackKeepsInvariant(lengths, capacity, order);
    PackPlacesAll(lengths, capacity, order);
  }

  /** Any two bins together exceed the capacity. */
  lemma TwoBinsExceed(lengths: seq<int>, capacity: int, s: nat, t: nat)
    requires ValidLengths(lengths, capacity)
    requires s < |BestFitDecreasing(lengths, capacity)| && t < |BestFitDecreasing(lengths, capacity)| && s != t
    ensures var bins := BestFitDecreasing(lengths, capacity);
            Load(bins[s], lengths) + Load(bins[t], lengths) > capacity
  {
    RunIsValid(lengths, capacity);
    var bins := BestFitDecreasing(lengths, capacity);
    LoadAtLeastMember(bins[s], lengths, 0);
    LoadAtLeastMember(bins[t], lengths, 0);
  }

  // ---------- The 3/2 bound ----------

  /** One for items longer than half the capacity, else zero. */
  function Large(lengths: seq<int>, capacity: int): (r: seq<int>)
    ensures |r| == |lengths|
    ensures forall i :: 0 <= i < |r| ==> r[i] == if 2 * lengths[i] > capacity then 1 else 0
  {
    seq(|lengths|, i requires 0 <= i < |lengths| => if 2 * lengths[i] > capacity then 1 else 0)
  }

  lemma {:induction false} LargeWeigh(items: seq<nat>, lengths: seq<int>, capacity: int)
    requires ValidLengths(lengths, capacity)
    ensures 2 * Load(items, lengths) >= (capacity + 1) * Load(items, Large(lengths, capacity))
  {
    if items != [] {
      var n := |items| - 1;
      LargeWeigh(items[..n], lengths, capacity);
      var one := At(Large(lengths, capacity), items[n]);
      assert one == 0 || one == 1;
      assert (capacity + 1) * (Load(items[..n], Large(lengths, capacity)) + one)
          == (capacity + 1) * Load(items[..n], Large(lengths, capacity)) + (capacity + 1) * one;
    }
  }

  ghost predicate Packing(bins: seq<seq<nat>>, lengths: seq<int>, capacity: int) {
    && Partition(bins, |lengths|)
    && forall b :: 0 <= b < |bins| ==> Load(bins[b], lengths) <= capacity
  }

  lemma HalfTwice(load: int, count: int, capacity: int)
    requires 2 * load >= (capacity + 1) * count && load <= capacity && capacity > 0
    ensures count <= 1
  {
    if count >= 2 { MulMonotone(2, count, capacity + 1); }
  }

  lemma OneLarge(items: seq<nat>, lengths: seq<int>, capacity: int)
    requires ValidLengths(lengths, capacity) && Load(items, lengths) <= capacity
    ensures Load(items, Large(lengths, capacity)) <= 1
  {
    LargeWeigh(items, lengths, capacity);
    HalfTwice(Load(items, lengths), Load(items, Large(lengths, capacity)), capacity);
  }

  /** A packing's bins hold at most one large item each. */
  lemma {:induction false} LargeNeedBins(bins: seq<seq<nat>>, lengths: seq<int>, capacity: int)
    requires ValidLengths(lengths, capacity)
    requires forall b :: 0 <= b < |bins| ==> Load(bins[b], lengths) <= capacity
    ensures TotalLoad(bins, Large(lengths, capacity)) <= |bins|
  {
    if bins != [] {
      var n := |bins| - 1;
      LargeNeedBins(bins[..n], lengths, capacity);
      OneLarge(bins[n], lengths, capacity);
    }
  }

  lemma {:induction false} LargeFirstItems(bins: seq<seq<nat>>, lengths: seq<int>, capacity: int, j: nat)
    requires j <= |bins|
    requires forall s :: 0 <= s < j ==>
        bins[s] != [] && 2 * At(lengths, bins[s][0]) > capacity && bins[s][0] < |lengths|
    ensures TotalLoad(bins, Large(lengths, capacity)) >= j
    decreases |bins|
  {
    if bins != [] {
      var n := |bins| - 1;
      var w := Large(lengths, capacity);
      LargeFirstItems(bins[..n], lengths, capacity, if j == |bins| then n else j);
      LoadNonNegative(bins[n], w);
      if j == |bins| {
        LoadAtLeastMember(bins[n], w, 0);
      }
    }
  }

  lemma {:induction false} TotalWithinCapacity(bins: seq<seq<nat>>, lengths: seq<int>, capacity: int)
    requires forall b :: 0 <= b < |bins| ==> Load(bins[b], lengths) <= capacity
    ensures TotalLoad(bins, lengths) <= |bins| * capacity
  {
    if bins != [] {
      var n := |bins| - 1;
      TotalWithinCapacity(bins[..n], lengths, capacity);
      MulStep(n, capacity);
      assert Load(bins[n], lengths) <= capacity;
    }
  }

  /** The extra items of bins j.. : two of every bin but the last, one of the last. */
  function Extras(bins: seq<seq<nat>>, j: nat): (r: seq<nat>)
    requires j < |bins|
    requires forall t :: j <= t < |bins| ==> bins[t] != []
    requires forall t :: j <= t < |bins| - 1 ==> |bins[t]| >= 2
    ensures |r| == 2 * (|bins| - 1 - j) + 1
    decreases |bins| - j
  {
    if j == |bins| - 1 then [bins[j][0]] else [bins[j][0], bins[j][1]] + Extras(bins, j + 1)
  }

  lemma {:induction false} PrefixLoadAtMost(items: seq<nat>, lengths: seq<int>, k: nat)
    requires k <= |items|
    requires forall i :: 0 <= i < |lengths| ==> lengths[i] >= 0
    ensures Load(items[..k], lengths) <= Load(items, lengths)
  {
    assert items == items[..k] + items[k..];
    LoadConcat(items[..k], items[k..], lengths);
    LoadNonNegative(items[k..], lengths);
  }

  function SuffixLoad(bins: seq<seq<nat>>, lengths: seq<int>, j: nat): int
    requires j <= |bins|
    decreases |bins| - j
  {
    if j == |bins| then 0 else Load(bins[j], lengths) + SuffixLoad(bins, lengths, j + 1)
  }

  lemma {:induction false} TotalSplits(bins: seq<seq<nat>>, lengths: seq<int>, j: nat)
    requires j <= |bins|
    ensures TotalLoad(bins, lengths) == TotalLoad(bins[..j], lengths) + SuffixLoad(bins, lengths, j)
    decreases |bins| - j
  {
    if j == |bins| {
      assert bins[..j] == bins;
    } else {
      TotalSplits(bins, lengths, j + 1);
      assert bins[..j + 1][..j] == bins[..j];
    }
  }

  lemma {:induction false} ExtrasWithinSuffix(bins: seq<seq<nat>>, lengths: seq<int>, j: nat)
    requires j < |bins|
    requires forall i :: 0 <= i < |lengths| ==> lengths[i] >= 0
    requires forall t :: j <= t < |bins| ==> bins[t] != []
    requires forall t :: j <= t < |bins| - 1 ==> |bins[t]| >= 2
    ensures Load(Extras(bins, j), lengths) <= SuffixLoad(bins, lengths, j)
    decreases |bins| - j
  {
    if j == |bins| - 1 {
      LoadSingle(bins[j][0], lengths);
      LoadAtLeastMember(bins[j], lengths, 0);
    } else {
      ExtrasWithinSuffix(bins, lengths, j + 1);
      LoadConcat([bins[j][0], bins[j][1]], Extras(bins, j + 1), lengths);
      assert bins[j][..2] == [bins[j][0], bins[j][1]];
      PrefixLoadAtMost(bins[j], lengths, 2);
    }
  }

  lemma {:induction false} ExtrasFitNowhere(bins: seq<seq<nat>>, lengths: seq<int>, capacity: int, j: nat, s: nat,
        k: nat)
    requires s < j < |bins|
    requires RunInvariant(lengths, capacity, bins)
    requires 2 * At(lengths, bins[j][0]) <= capacity
    requires forall t :: j <= t < |bins| - 1 ==> |bins[t]| >= 2
    requires k < |Extras(bins, j)|
    ensures Load(bins[s], lengths) + At(lengths, Extras(bins, j)[k]) > capacity
    decreases |bins| - j
  {
    if j < |bins| - 1 && k >= 2 {
      ExtrasFitNowhere(bins, lengths, capacity, j + 1, s, k - 2);
    }
  }

  /** Pair bin s with extra item s: each pair overflows one bin. */
  lemma {:induction false} PairsOverflow(bins: seq<seq<nat>>, extras: seq<nat>, lengths: seq<int>, capacity: int,
        m: nat)
    requires m <= |bins| && m <= |extras|
    requires forall s :: 0 <= s < m ==> Load(bins[s], lengths) + At(lengths, extras[s]) > capacity
    ensures TotalLoad(bins[..m], lengths) + Load(extras[..m], lengths) >= m * (capacity + 1)
  {
    if m > 0 {
      PairsOverflow(bins, extras, lengths, capacity, m - 1);
      assert bins[..m][..m - 1] == bins[..m - 1];
      assert extras[..m][..m - 1] == extras[..m - 1];
      MulStep(m - 1, capacity + 1);
    }
  }

  lemma LastBinHasWeight(bins: seq<seq<nat>>, lengths: seq<int>, capacity: int)
    requires ValidLengths(lengths, capacity) && bins != []
    requires forall s :: 0 <= s < |bins| ==> bins[s] != []
    requires bins[|bins| - 1][0] < |lengths|
    ensures TotalLoad(bins, lengths) > 0
  {
    TotalLoadIsFlat(bins[..|bins| - 1], lengths);
    LoadNonNegative(Flatten(bins[..|bins| - 1]), lengths);
    LoadAtLeastMember(bins[|bins| - 1], lengths, 0);
  }

  /** Small case: when bin j (counted from 0) opens with at most half, the volume exceeds j full bins. */
  lemma VolumeBound(bins: seq<seq<nat>>, lengths: seq<int>, capacity: int, j: nat)
    requires ValidLengths(lengths, capacity) && RunInvariant(lengths, capacity, bins)
    requires j < |bins| && bins[|bins| - 1][0] < |lengths|
    requires 2 * At(lengths, bins[j][0]) <= capacity
    requires j <= 2 * (|bins| - 1 - j) + 1
    ensures TotalLoad(bins, lengths) > j * capacity
  {
    var last := |bins| - 1;
    forall t | j <= t < last
      ensures |bins[t]| >= 2
    {
      assert Load(bins[t], lengths) + At(lengths, bins[last][0]) > capacity;
      assert At(lengths, bins[t][0]) <= At(lengths, bins[j][0]);
      assert At(lengths, bins[last][0]) <= At(lengths, bins[j][0]);
      if |bins[t]| == 1 {
        assert bins[t] == [bins[t][0]];
        LoadSingle(bins[t][0], lengths);
      }
    }
    var extras := Extras(bins, j);
    forall s | 0 <= s < j
      ensures Load(bins[s], lengths) + At(lengths, extras[s]) > capacity
    {
      ExtrasFitNowhere(bins, lengths, capacity, j, s, s);
    }
    PairsOverflow(bins, extras, lengths, capacity, j);
    PrefixLoadAtMost(extras, lengths, j);
    ExtrasWithinSuffix(bins, lengths, j);
    TotalSplits(bins, lengths, j);
    assert j * (capacity + 1) == j * capacity + j;
    if j == 0 {
      LastBinHasWeight(bins, lengths, capacity);
    }
  }

  lemma MembersInRange(bins: seq<seq<nat>>, n: nat, b: nat, k: nat)
    requires Partition(bins, n) && b < |bins| && k < |bins[b]|
    ensures bins[b][k] < n
  {
    FlattenMember(bins, bins[b][k]);
    assert bins[b][k] in multiset(Flatten(bins));
    assert bins[b][k] in Range(n);
  }

  lemma RunWithin(bins: seq<seq<nat>>, lengths: seq<int>, capacity: int, packing: seq<seq<nat>>)
    requires ValidLengths(lengths, capacity) && Packing(packing, lengths, capacity)
    requires RunInvariant(lengths, capacity, bins) && Partition(bins, |lengths|)
    ensures 2 * |bins| <= 3 * |packing|
  {
    if bins != [] {
      forall s | 0 <= s < |bins|
        ensures bins[s][0] < |lengths|
      {
        MembersInRange(bins, |lengths|, s, 0);
      }
      var j := (2 * |bins| + 2) / 3 - 1;
      if 2 * At(lengths, bins[j][0]) > capacity {
        LargeFirstItems(bins, lengths, capacity, j + 1);
        PartitionsWeighTheSame(bins, packing, |lengths|, Large(lengths, capacity));
        LargeNeedBins(packing, lengths, capacity);
      } else {
        VolumeBound(bins, lengths, capacity, j);
        PartitionsWeighTheSame(bins, packing, |lengths|, lengths);
        TotalWithinCapacity(packing, lengths, capacity);
        if |packing| <= j { MulMonotone(|packing|, j, capacity); }
      }
    }
  }

  /** Best-fit decreasing never opens more than 3/2 of the bins of any packing. */
  lemma ThreeHalves(lengths: seq<int>, capacity: int, packing: seq<seq<nat>>)
    requires ValidLengths(lengths, capacity) && Packing(packing, lengths, capacity)
    ensures 2 * |BestFitDecreasing(lengths, capacity)| <= 3 * |packing|
  {
    RunIsValid(lengths, capacity);
    RunWithin(BestFitDecreasing(lengths, capacity), lengths, capacity, packing);
  }
}
