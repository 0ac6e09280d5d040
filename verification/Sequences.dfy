/** Sums, concatenation and partitions of index lists: the vocabulary shared by the other modules. */
module Sequences {
  datatype Option<+T> = None | Some(value: T) {
    function UnwrapOr(default_: T): T { if Some? then value else default_ }
  }

  datatype Result<+T> = Success(value: T) | Failure

  /** The weight of index i, zero outside the list. */
  function At(w: seq<int>, i: int): int {
    if 0 <= i < |w| then w[i] else 0
  }

  /** Total weight of a list of indices. */
  function Load(items: seq<nat>, w: seq<int>): int {
    if items == [] then 0 else Load(items[..|items| - 1], w) + At(w, items[|items| - 1])
  }

  function Range(n: nat): (r: seq<nat>)
    ensures |r| == n && forall i :: 0 <= i < n ==> r[i] == i
  {
    seq(n, i requires 0 <= i < n => i)
  }

  function Flatten<T>(ss: seq<seq<T>>): seq<T> {
    if ss == [] then [] else Flatten(ss[..|ss| - 1]) + ss[|ss| - 1]
  }

  function Gather<T>(table: seq<T>, indices: seq<nat>): (r: seq<T>)
    requires forall i :: 0 <= i < |indices| ==> indices[i] < |table|
    ensures |r| == |indices| && forall i :: 0 <= i < |indices| ==> r[i] == table[indices[i]]
  {
    seq(|indices|, i requires 0 <= i < |indices| => table[indices[i]])
  }

  /** The lists of `bins` hold every index below n exactly once. */
  ghost predicate Partition(bins: seq<seq<nat>>, n: nat) {
    multiset(Flatten(bins)) == multiset(Range(n))
  }

  lemma {:induction false} FlattenConcat<T>(a: seq<seq<T>>, b: seq<seq<T>>)
    ensures Flatten(a + b) == Flatten(a) + Flatten(b)
  {
    if b == [] {
      assert a + b == a;
    } else {
      FlattenConcat(a, b[..|b| - 1]);
      assert (a + b)[..|a + b| - 1] == a + b[..|b| - 1];
    }
  }

  lemma FlattenOne<T>(s: seq<T>)
    ensures Flatten([s]) == s
  {
    assert [s][..0] == [];
  }

  lemma FlattenCons<T>(s: seq<T>, ss: seq<seq<T>>)
    ensures Flatten([s] + ss) == s + Flatten(ss)
  {
    FlattenConcat([s], ss);
    FlattenOne(s);
  }

  lemma {:induction false} FlattenPush<T>(ss: seq<seq<T>>, s: seq<T>)
    ensures Flatten(ss + [s]) == Flatten(ss) + s
  {
    assert (ss + [s])[..|ss|] == ss;
  }

  lemma FlattenUpto<T>(ss: seq<seq<T>>, n: nat)
    requires 0 < n <= |ss|
    ensures Flatten(ss[..n]) == Flatten(ss[..n - 1]) + ss[n - 1]
  {
    assert ss[..n][..n - 1] == ss[..n - 1];
  }

  /** Pieces that each carry one mark to the next carry the first mark to the last. */
  lemma {:induction false} Telescope<T>(marks: seq<seq<T>>, pieces: seq<seq<T>>)
    requires |marks| == |pieces| + 1
    requires forall r :: 0 <= r < |pieces| ==> marks[r] + pieces[r] == marks[r + 1]
    ensures marks[0] + Flatten(pieces) == marks[|pieces|]
  {
    if pieces != [] {
      var n := |pieces| - 1;
      Telescope(marks[..n + 1], pieces[..n]);
      assert marks[0] + Flatten(pieces) == marks[0] + Flatten(pieces[..n]) + pieces[n];
    }
  }

  lemma {:induction false} TelescopeFrom<T>(marks: seq<seq<T>>, pieces: seq<seq<T>>)
    requires |marks| == |pieces| + 1 && marks[0] == []
    requires forall r :: 0 <= r < |pieces| ==> marks[r] + pieces[r] == marks[r + 1]
    ensures Flatten(pieces) == marks[|pieces|]
  {
    Telescope(marks, pieces);
    assert marks[0] + Flatten(pieces) == Flatten(pieces);
  }

  lemma {:induction false} FlattenMember<T>(ss: seq<seq<T>>, x: T)
    ensures x in Flatten(ss) <==> exists b :: 0 <= b < |ss| && x in ss[b]
  {
    if ss != [] {
      FlattenMember(ss[..|ss| - 1], x);
      var last := ss[|ss| - 1];
      if x in last { assert x in ss[|ss| - 1]; }
      if exists b :: 0 <= b < |ss| && x in ss[b] {
        var b :| 0 <= b < |ss| && x in ss[b];
        if b < |ss| - 1 { assert x in ss[..|ss| - 1][b]; }
      }
      if x in Flatten(ss[..|ss| - 1]) {
        var b :| 0 <= b < |ss| - 1 && x in ss[..|ss| - 1][b];
        assert x in ss[b];
      }
    }
  }

  lemma {:induction false} FlattenMultiset<T>(ss: seq<seq<T>>, k: nat)
    requires k < |ss|
    ensures multiset(Flatten(ss)) == multiset(ss[k]) + multiset(Flatten(ss[..k] + ss[k + 1..]))
  {
    assert ss == ss[..k] + ([ss[k]] + ss[k + 1..]);
    FlattenConcat(ss[..k], [ss[k]] + ss[k + 1..]);
    FlattenCons(ss[k], ss[k + 1..]);
    FlattenConcat(ss[..k], ss[k + 1..]);
  }

  lemma RemoveAt<T>(s: seq<T>, k: nat)
    requires k < |s|
    ensures multiset(s[..k] + s[k + 1..]) == multiset(s) - multiset{s[k]}
  {
    assert s == s[..k] + [s[k]] + s[k + 1..];
  }

  /** Where the last element of a sits in a rearrangement b of a. */
  lemma MatchLast<T>(a: seq<T>, b: seq<T>) returns (k: nat)
    requires multiset(a) == multiset(b) && a != []
    ensures k < |b| && b[k] == a[|a| - 1]
    ensures multiset(a[..|a| - 1]) == multiset(b[..k] + b[k + 1..])
  {
    var n := |a| - 1;
    assert a[n] in multiset(b);
    k :| 0 <= k < |b| && b[k] == a[n];
    RemoveAt(b, k);
    RemoveAt(a, n);
    assert a[..n] + a[n + 1..] == a[..n];
  }

  /** Flattening depends only on which lists are there, not on their order. */
  lemma {:induction false} FlattenPermutation<T>(a: seq<seq<T>>, b: seq<seq<T>>)
    requires multiset(a) == multiset(b)
    ensures multiset(Flatten(a)) == multiset(Flatten(b))
    decreases |a|
  {
    if a == [] {
      assert |multiset(b)| == 0;
    } else {
      var n := |a| - 1;
      var k := MatchLast(a, b);
      FlattenPermutation(a[..n], b[..k] + b[k + 1..]);
      FlattenMultiset(b, k);
    }
  }

  lemma GatherConcat<T>(table: seq<T>, a: seq<nat>, b: seq<nat>)
    requires (forall i :: 0 <= i < |a| ==> a[i] < |table|) && (forall i :: 0 <= i < |b| ==> b[i] < |table|)
    ensures Gather(table, a + b) == Gather(table, a) + Gather(table, b)
  {
  }

  /** Reading a whole table through a rearrangement of its indices rearranges it. */
  lemma {:induction false} GatherPermutation<T>(table: seq<T>, a: seq<nat>, b: seq<nat>)
    requires multiset(a) == multiset(b)
    requires forall i :: 0 <= i < |a| ==> a[i] < |table|
    requires forall i :: 0 <= i < |b| ==> b[i] < |table|
    ensures multiset(Gather(table, a)) == multiset(Gather(table, b))
    decreases |a|
  {
    if a == [] {
      assert |multiset(b)| == 0;
    } else {
      var n := |a| - 1;
      var k := MatchLast(a, b);
      var b' := b[..k] + b[k + 1..];
      GatherPermutation(table, a[..n], b');
      assert Gather(table, a) == Gather(table, a[..n]) + [table[a[n]]];
      RemoveAt(Gather(table, b), k);
      assert Gather(table, b') == Gather(table, b)[..k] + Gather(table, b)[k + 1..];
      assert table[b[k]] == Gather(table, b)[k];
      assert table[b[k]] in multiset(Gather(table, b));
    }
  }

  /** Every index below n, each once, in any order. */
  ghost predicate Arrangement(order: seq<nat>, n: nat) {
    (forall i :: 0 <= i < |order| ==> order[i] < n) && multiset(order) == multiset(Range(n))
  }

  lemma ReadInOrder<T>(table: seq<T>)
    ensures Gather(table, Range(|table|)) == table
  {
  }

  /** Lists read in any order hold the same elements. */
  lemma {:induction false} ReadInAnyOrder<T>(table: seq<seq<T>>, order: seq<nat>)
    requires Arrangement(order, |table|)
    ensures multiset(Flatten(Gather(table, order))) == multiset(Flatten(table))
  {
    GatherPermutation(table, order, Range(|table|));
    ReadInOrder(table);
    FlattenPermutation(Gather(table, order), table);
  }

  lemma {:induction false} LoadConcat(a: seq<nat>, b: seq<nat>, w: seq<int>)
    ensures Load(a + b, w) == Load(a, w) + Load(b, w)
  {
    if b == [] {
      assert a + b == a;
    } else {
      LoadConcat(a, b[..|b| - 1], w);
      assert (a + b)[..|a + b| - 1] == a + b[..|b| - 1];
    }
  }

  lemma {:induction false} LoadPermutation(a: seq<nat>, b: seq<nat>, w: seq<int>)
    requires multiset(a) == multiset(b)
    ensures Load(a, w) == Load(b, w)
    decreases |a|
  {
    if a == [] {
      assert |multiset(b)| == 0;
    } else {
      var n := |a| - 1;
      var k := MatchLast(a, b);
      assert b == b[..k] + ([b[k]] + b[k + 1..]);
      LoadPermutation(a[..n], b[..k] + b[k + 1..], w);
      LoadConcat(b[..k], b[k + 1..], w);
      LoadConcat(b[..k], [b[k]] + b[k + 1..], w);
      LoadConcat([b[k]], b[k + 1..], w);
      assert [b[k]][..0] == [];
    }
  }

  /** Total weight over a list of lists. */
  function TotalLoad(bins: seq<seq<nat>>, w: seq<int>): int {
    if bins == [] then 0 else TotalLoad(bins[..|bins| - 1], w) + Load(bins[|bins| - 1], w)
  }

  lemma {:induction false} TotalLoadIsFlat(bins: seq<seq<nat>>, w: seq<int>)
    ensures TotalLoad(bins, w) == Load(Flatten(bins), w)
  {
    if bins != [] {
      TotalLoadIsFlat(bins[..|bins| - 1], w);
      LoadConcat(Flatten(bins[..|bins| - 1]), bins[|bins| - 1], w);
    }
  }

  /** Conservation: any two partitions of the same indices carry the same total weight. */
  lemma PartitionsWeighTheSame(a: seq<seq<nat>>, b: seq<seq<nat>>, n: nat, w: seq<int>)
    requires Partition(a, n) && Partition(b, n)
    ensures TotalLoad(a, w) == TotalLoad(b, w)
  {
    TotalLoadIsFlat(a, w);
    TotalLoadIsFlat(b, w);
    LoadPermutation(Flatten(a), Flatten(b), w);
  }

  lemma {:induction false} LoadNonNegative(items: seq<nat>, w: seq<int>)
    requires forall i :: 0 <= i < |w| ==> w[i] >= 0
    ensures Load(items, w) >= 0
  {
    if items != [] { LoadNonNegative(items[..|items| - 1], w); }
  }

  lemma {:induction false} LoadAtLeastMember(items: seq<nat>, w: seq<int>, k: nat)
    requires forall i :: 0 <= i < |w| ==> w[i] >= 0
    requires k < |items|
    ensures At(w, items[k]) <= Load(items, w)
  {
    if k < |items| - 1 {
      LoadAtLeastMember(items[..|items| - 1], w, k);
    } else {
      LoadNonNegative(items[..|items| - 1], w);
    }
  }
}
