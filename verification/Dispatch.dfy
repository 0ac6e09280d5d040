/**
  Generating the dispatch table from a sweep: cells of an (m, n) grid pick a recipe each,
  neighbouring cells merge into band rows, and looking a shape up in the merged rows must
  find what its own cell picked.
 */
module Dispatch {
  import opened Sequences
  import opened Arithmetic

  datatype Recipe = Model | Named(name: string)

  datatype Tile = Tile(cta: int, kStages: int, kTile: int)

  datatype Vocabulary = Vocabulary(ladders: map<int, seq<Recipe>>, tiles: map<Recipe, Tile>)

  ghost predicate KnownLadder(ladder: seq<Recipe>, tiles: map<Recipe, Tile>) {
    |ladder| > 0 && forall i :: 0 <= i < |ladder| ==> ladder[i] != Model && ladder[i] in tiles
  }

  /** Every class has a ladder of known tiles; the model is no tile. */
  ghost predicate Known(v: Vocabulary) {
    forall c :: c in v.ladders ==> KnownLadder(v.ladders[c], v.tiles)
  }

  // ---------- Bands ----------

  /** (min, max], with max 0 for no upper bound. */
  datatype Band = Band(min: int, max: int)

  predicate InBand(b: Band, x: int) {
    b.min < x && (b.max == 0 || x <= b.max)
  }

  ghost predicate Ascending(u: seq<int>) {
    |u| <= 1 || (u[|u| - 2] < u[|u| - 1] && Ascending(u[..|u| - 1]))
  }

  lemma {:induction false} AscendsAt(u: seq<int>, i: nat, j: nat)
    requires Ascending(u) && i < j < |u|
    ensures u[i] < u[j]
  {
    if j < |u| - 1 {
      AscendsAt(u[..|u| - 1], i, j);
    } else if i < j - 1 {
      AscendsAt(u[..|u| - 1], i, j - 1);
    }
  }

  lemma {:induction false} PairwiseAscends(u: seq<int>)
    requires forall i, j :: 0 <= i < j < |u| ==> u[i] < u[j]
    ensures Ascending(u)
  {
    if |u| > 1 { PairwiseAscends(u[..|u| - 1]); }
  }

  ghost predicate Grid(u: seq<int>) {
    |u| > 0 && Ascending(u) && u[0] > 0
  }

  /** The boundary between neighbours i and i + 1. */
  function Mid(u: seq<int>, i: nat): int
    requires i + 1 < |u|
  {
    u[i] + (u[i + 1] - u[i]) / 2
  }

  /** Bands of sorted unique values. */
  function BandEdges(u: seq<int>): (r: seq<Band>)
    ensures |r| == Max(|u|, 1)
    ensures forall i :: 0 <= i < |u| ==>
        r[i] == Band(if i == 0 then 0 else Mid(u, i - 1), if i == |u| - 1 then 0 else Mid(u, i))
  {
    if |u| <= 1 then [Band(0, 0)]
    else
      seq(|u|, i requires 0 <= i < |u| =>
        Band(if i == 0 then 0 else Mid(u, i - 1), if i == |u| - 1 then 0 else Mid(u, i)))
  }

  /** The band index of x among the first i + 1 bands: the last one that starts below x. */
  function BandOf(u: seq<int>, x: int, i: nat): (r: nat)
    requires i < |u|
    ensures r <= i && (r == 0 || Mid(u, r - 1) < x) && (r < i ==> x <= Mid(u, r))
  {
    if i == 0 || Mid(u, i - 1) < x then i else BandOf(u, x, i - 1)
  }

  lemma MidsAscend(u: seq<int>, i: nat, j: nat)
    requires Grid(u) && i <= j && j + 1 < |u|
    ensures 0 < u[i] <= Mid(u, i) < u[i + 1] && Mid(u, i) <= Mid(u, j)
  {
    if 0 < i { AscendsAt(u, 0, i); }
    AscendsAt(u, i, i + 1);
    if i + 1 < j { AscendsAt(u, i + 1, j); }
    if i < j { AscendsAt(u, j, j + 1); }
  }

  lemma StartsBelow(u: seq<int>, x: int, s: nat)
    requires Grid(u) && s < |u|
    ensures (s == 0 || Mid(u, s - 1) < x) <==> s <= BandOf(u, x, |u| - 1)
  {
    var j := BandOf(u, x, |u| - 1);
    if 0 < s <= j { MidsAscend(u, s - 1, j - 1); }
    if j < s { MidsAscend(u, j, s - 1); }
  }

  lemma EndsAbove(u: seq<int>, x: int, e: nat)
    requires Grid(u) && 0 < e <= |u|
    ensures (e == |u| || x <= Mid(u, e - 1)) <==> BandOf(u, x, |u| - 1) < e
  {
    var j := BandOf(u, x, |u| - 1);
    if e < |u| && j < e { MidsAscend(u, j, e - 1); }
    if e <= j { MidsAscend(u, e - 1, j - 1); }
  }

  /** A run of bands holds x exactly when the run holds the index of x. */
  lemma RunHolds(u: seq<int>, x: int, s: nat, e: nat)
    requires Grid(u) && x > 0 && s < e <= |u|
    ensures InBand(Band(BandEdges(u)[s].min, BandEdges(u)[e - 1].max), x) <==> s <= BandOf(u, x, |u| - 1) < e
  {
    StartsBelow(u, x, s);
    EndsAbove(u, x, e);
    if e < |u| { MidsAscend(u, e - 1, e - 1); }
  }

  lemma OwnBand(u: seq<int>, i: nat)
    requires Grid(u) && i < |u|
    ensures BandOf(u, u[i], |u| - 1) == i
  {
    StartsBelow(u, u[i], i);
    EndsAbove(u, u[i], i + 1);
    if 0 < i { MidsAscend(u, i - 1, i - 1); }
    if i + 1 < |u| { MidsAscend(u, i, i); }
  }

  lemma PositiveGrid(u: seq<int>, i: nat)
    requires Grid(u) && i < |u|
    ensures u[i] > 0
  {
    if 0 < i { AscendsAt(u, 0, i); }
  }

  lemma BandHolds(u: seq<int>, x: int, i: nat)
    requires Grid(u) && x > 0 && i < |u|
    ensures InBand(BandEdges(u)[i], x) <==> i == BandOf(u, x, |u| - 1)
  {
    RunHolds(u, x, i, i + 1);
  }

  /** The bands partition the positive integers, and each grid value lies in its own band. */
  lemma BandsPartition(u: seq<int>, x: int)
    requires Grid(u) && x > 0
    ensures BandOf(u, x, |u| - 1) < |u|
    ensures forall i :: 0 <= i < |u| ==> (InBand(BandEdges(u)[i], x) <==> i == BandOf(u, x, |u| - 1))
    ensures forall i :: 0 <= i < |u| ==> u[i] > 0 && InBand(BandEdges(u)[i], u[i])
  {
    forall i | 0 <= i < |u|
      ensures InBand(BandEdges(u)[i], x) <==> i == BandOf(u, x, |u| - 1)
    {
      BandHolds(u, x, i);
    }
    forall i | 0 <= i < |u|
      ensures u[i] > 0 && InBand(BandEdges(u)[i], u[i])
    {
      PositiveGrid(u, i);
      OwnBand(u, i);
      BandHolds(u, u[i], i);
    }
  }

  function Distance(a: int, b: int): nat {
    if a < b then b - a else a - b
  }

  lemma NearerThanBelow(u: seq<int>, x: int, i: nat, j: nat)
    requires Grid(u) && i < j < |u| && Mid(u, j - 1) < x
    ensures Distance(x, u[j]) < Distance(x, u[i])
  {
    AscendsAt(u, j - 1, j);
    if i < j - 1 { AscendsAt(u, i, j - 1); }
  }

  lemma NearerThanAbove(u: seq<int>, x: int, i: nat, j: nat)
    requires Grid(u) && j < i < |u| && x <= Mid(u, j)
    ensures Distance(x, u[j]) <= Distance(x, u[i])
  {
    AscendsAt(u, j, j + 1);
    if j + 1 < i { AscendsAt(u, j + 1, i); }
  }

  /** No grid value is nearer to x than this one, and none below it as near. */
  ghost predicate Nearest(u: seq<int>, x: int, i: nat)
    requires i < |u|
  {
    && (forall k :: 0 <= k < i ==> Distance(x, u[i]) < Distance(x, u[k]))
    && (forall k :: i <= k < |u| ==> Distance(x, u[i]) <= Distance(x, u[k]))
  }

  lemma BandIsNearest(u: seq<int>, x: int)
    requires Grid(u)
    ensures Nearest(u, x, BandOf(u, x, |u| - 1))
  {
    var j := BandOf(u, x, |u| - 1);
    forall k | 0 <= k < j
      ensures Distance(x, u[j]) < Distance(x, u[k])
    {
      NearerThanBelow(u, x, k, j);
    }
    forall k | j <= k < |u|
      ensures Distance(x, u[j]) <= Distance(x, u[k])
    {
      if j < k { NearerThanAbove(u, x, k, j); }
    }
  }

  lemma NoOtherNearest(u: seq<int>, x: int, i: nat, j: nat)
    requires i < |u| && j < |u| && i != j && Nearest(u, x, j)
    ensures !Nearest(u, x, i)
  {
    if i < j {
      assert Distance(x, u[j]) < Distance(x, u[i]);
    } else {
      assert Distance(x, u[j]) <= Distance(x, u[i]);
    }
  }

  /** The band of a shape is that of the grid value nearest to it, the smaller one of two equally near. */
  lemma NearestBand(u: seq<int>, x: int, i: nat)
    requires Grid(u) && x > 0 && i < |u|
    ensures InBand(BandEdges(u)[i], x) <==> Nearest(u, x, i)
  {
    BandHolds(u, x, i);
    BandIsNearest(u, x);
    if i != BandOf(u, x, |u| - 1) { NoOtherNearest(u, x, i, BandOf(u, x, |u| - 1)); }
  }

  // ---------- Picking a recipe for one cell ----------

  type Cell = map<Recipe, real>

  lemma {:induction false} TopExists(cell: Cell, recipes: set<Recipe>) returns (top: Recipe)
    requires recipes != {} && recipes <= cell.Keys
    ensures top in recipes && forall r :: r in recipes ==> cell[r] <= cell[top]
  {
    top :| top in recipes;
    var rest, first := recipes - {top}, top;
    assert forall r :: r in recipes ==> r == first || r in rest;
    if rest != {} {
      var other := TopExists(cell, rest);
      top := if cell[other] <= cell[first] then first else other;
    }
  }

  /** The best throughput among some recipes, or 0 when there are none. */
  function BestOf(cell: Cell, recipes: set<Recipe>): (m: real)
    requires recipes <= cell.Keys
    ensures forall r :: r in recipes ==> cell[r] <= m
    ensures if recipes == {} then m == 0.0 else exists r :: r in recipes && cell[r] == m
  {
    if recipes == {} then 0.0
    else
      var rates := set r | r in recipes :: cell[r];
      assert exists m :: m in rates && forall v :: v in rates ==> v <= m by {
        var top := TopExists(cell, recipes);
        assert cell[top] in rates;
      }
      var m :| m in rates && forall v :: v in rates ==> v <= m;
      assert forall r :: r in recipes ==> cell[r] in rates;
      m
  }

  function BestBut(cell: Cell, but: Recipe): real {
    BestOf(cell, cell.Keys - {but})
  }

  function Rate(cell: Cell, r: Recipe): real {
    if r in cell then cell[r] else 0.0
  }

  /** The first recipe of the order that reaches a throughput. */
  function FirstAt(order: seq<Recipe>, cell: Cell, rate: real): (r: Option<Recipe>)
    ensures r.Some? ==> r.value in order
  {
    if order == [] then None
    else if Rate(cell, order[0]) == rate then Some(order[0])
    else FirstAt(order[1..], cell, rate)
  }

  lemma {:induction false} FirstAtIs(order: seq<Recipe>, cell: Cell, rate: real) returns (i: nat)
    ensures i <= |order| && forall k :: 0 <= k < i ==> Rate(cell, order[k]) != rate
    ensures var r := FirstAt(order, cell, rate);
            if i == |order| then r == None else r == Some(order[i]) && Rate(cell, order[i]) == rate
  {
    if order == [] || Rate(cell, order[0]) == rate {
      i := 0;
    } else {
      var k := FirstAtIs(order[1..], cell, rate);
      i := k + 1;
      assert forall j :: 0 < j < i ==> order[j] == order[1..][j - 1];
    }
  }

  /** The lead is smaller than the required fraction of the best. */
  predicate TooClose(best: real, second: real, minGain: real) {
    best - second < minGain * best
  }

  function Winner(cell: Cell, ladder: seq<Recipe>, minGain: real): Recipe {
    if cell == map[] then Model
    else
      var first := FirstAt(ladder + [Model], cell, BestOf(cell, cell.Keys));
      if first.None? then Model
      else if first.value == Model || minGain <= 0.0 then first.value
      else if TooClose(BestOf(cell, cell.Keys), BestBut(cell, first.value), minGain) then Model
      else first.value
  }

  function BestForced(cell: Cell, ladder: seq<Recipe>): (r: Recipe)
    requires |ladder| > 0
    ensures r in ladder
  {
    var first := FirstAt(ladder, cell, BestBut(cell, Model));
    if first.Some? then first.value else ladder[0]
  }

  /** The recipes of a cell are the class's own or "model", all with a positive rate. */
  ghost predicate Measured(cell: Cell, ladder: seq<Recipe>) {
    Model !in ladder && forall r :: r in cell ==> (r == Model || r in ladder) && cell[r] > 0.0
  }

  /** r is measured, nothing beats it, and everything before it in the order is slower. */
  ghost predicate Leads(cell: Cell, order: seq<Recipe>, r: Recipe) {
    && r in cell && (forall s :: s in cell ==> cell[s] <= cell[r])
    && exists i :: 0 <= i < |order| && order[i] == r && forall k :: 0 <= k < i && order[k] in cell ==>
       cell[order[k]] < cell[r]
  }

  lemma FirstLeads(cell: Cell, ladder: seq<Recipe>)
    requires Measured(cell, ladder) && cell != map[]
    ensures var first := FirstAt(ladder + [Model], cell, BestOf(cell, cell.Keys));
            first.Some? && Leads(cell, ladder + [Model], first.value)
  {
    var order, best := ladder + [Model], BestOf(cell, cell.Keys);
    var top: Recipe :| top in cell;
    assert top in cell.Keys;
    var w :| w in cell.Keys && cell[w] == best;
    assert best > 0.0;
    assert w in order;
    var i := FirstAtIs(order, cell, best);
  }

  lemma LeadsOnce(cell: Cell, order: seq<Recipe>, a: Recipe, b: Recipe)
    requires Leads(cell, order, a) && Leads(cell, order, b)
    ensures a == b
  {
    var i :| 0 <= i < |order| && order[i] == a && forall k :: 0 <= k < i && order[k] in cell ==>
      cell[order[k]] < cell[a];
    var j :| 0 <= j < |order| && order[j] == b && forall k :: 0 <= k < j && order[k] in cell ==>
      cell[order[k]] < cell[b];
    assert cell[a] == cell[b];
  }

  lemma LeaderIsBest(cell: Cell, order: seq<Recipe>, r: Recipe)
    requires Leads(cell, order, r)
    ensures cell[r] == BestOf(cell, cell.Keys)
  {
    assert r in cell.Keys;
  }

  /** A recipe wins a cell exactly when it leads it, by the required margin if one is asked for. */
  lemma WinnerMeans(cell: Cell, ladder: seq<Recipe>, minGain: real, r: Recipe)
    requires Measured(cell, ladder) && r in ladder
    ensures Winner(cell, ladder, minGain) == r
       <==> Leads(cell, ladder + [Model], r) && (minGain <= 0.0 || !TooClose(cell[r], BestBut(cell, r), minGain))
  {
    if cell != map[] {
      FirstLeads(cell, ladder);
      var first := FirstAt(ladder + [Model], cell, BestOf(cell, cell.Keys)).value;
      LeaderIsBest(cell, ladder + [Model], first);
      if Leads(cell, ladder + [Model], r) { LeadsOnce(cell, ladder + [Model], r, first); }
    }
  }

  lemma ForcedLeads(cell: Cell, ladder: seq<Recipe>)
    requires Measured(cell, ladder) && |ladder| > 0 && cell - {Model} != map[]
    ensures Leads(cell - {Model}, ladder, BestForced(cell, ladder))
  {
    var best := BestBut(cell, Model);
    var some :| some in cell - {Model};
    assert some in cell.Keys - {Model};
    var w :| w in cell.Keys - {Model} && cell[w] == best;
    assert best > 0.0 && w in ladder;
    var i := FirstAtIs(ladder, cell, best);
  }

  /**
    With full coverage a cell picks its fastest tile, first in the ladder's order; the ladder's head if none
    was timed.
   */
  lemma BestForcedMeans(cell: Cell, ladder: seq<Recipe>, r: Recipe)
    requires Measured(cell, ladder) && |ladder| > 0
    ensures if cell - {Model} == map[] then BestForced(cell, ladder) == ladder[0]
            else BestForced(cell, ladder) == r <==> Leads(cell - {Model}, ladder, r)
  {
    if cell - {Model} == map[] {
      assert forall s :: s in cell.Keys - {Model} ==> s in cell - {Model};
      assert ladder[0] in ladder && ladder[0] !in cell.Keys - {Model};
    } else {
      ForcedLeads(cell, ladder);
      if Leads(cell - {Model}, ladder, r) { LeadsOnce(cell - {Model}, ladder, r, BestForced(cell, ladder)); }
    }
  }

  lemma Positive(x: real, y: real)
    requires y > 0.0
    ensures x > 0.0 <==> x * y > 0.0
  {
  }

  /**
    A tie for the lead goes to "model" exactly when a positive margin is asked for; otherwise a ladder recipe
    takes it.
   */
  lemma TieResolution(cell: Cell, ladder: seq<Recipe>, minGain: real, a: Recipe, b: Recipe)
    requires Measured(cell, ladder) && a in cell && b in cell && a != b && cell[a] == cell[b]
    requires forall r :: r in cell ==> cell[r] <= cell[a]
    ensures Winner(cell, ladder, minGain) == Model <==> minGain > 0.0
  {
    FirstLeads(cell, ladder);
    var order := ladder + [Model];
    var first := FirstAt(order, cell, BestOf(cell, cell.Keys)).value;
    var tied := if a == Model then b else a;
    assert tied in ladder && cell[tied] == cell[first];
    assert first != Model by {
      var i :| 0 <= i < |order| && order[i] == first && forall k :: 0 <= k < i && order[k] in cell ==>
        cell[order[k]] < cell[first];
      var k :| 0 <= k < |ladder| && ladder[k] == tied;
      assert order[k] == tied;
    }
    var other := if first == a then b else a;
    assert other in cell.Keys - {first};
    assert BestBut(cell, first) == cell[first];
    Positive(minGain, cell[first]);
  }

  /** With no margin, a tie between the model and a recipe makes a row. */
  lemma TieMakesRow()
    ensures Winner(map[Named("a") := 1.0, Model := 1.0], [Named("a")], 0.0) == Named("a")
  {
    var cell: Cell := map[Named("a") := 1.0, Model := 1.0];
    TieResolution(cell, [Named("a")], 0.0, Named("a"), Model);
    var order := [Named("a")] + [Model];
    assert order[0] == Named("a") && Rate(cell, Named("a")) == 1.0;
    assert BestOf(cell, cell.Keys) == 1.0;
  }

  // ---------- Rows and lookup ----------

  datatype Row = Row(m: Band, n: Band, perfClass: int, tile: Tile)

  datatype Shape = Shape(perfClass: int, m: int, n: int)

  predicate Matches(row: Row, q: Shape) {
    row.perfClass == q.perfClass && InBand(row.m, q.m) && InBand(row.n, q.n)
  }

  /** The tiles of all matching rows, in table order; a lookup takes the first. */
  function Hits(rows: seq<Row>, q: Shape): seq<Tile> {
    if rows == [] then []
    else
      var n := |rows| - 1;
      Hits(rows[..n], q) + if Matches(rows[n], q) then [rows[n].tile] else []
  }

  lemma {:induction false} HitsConcat(a: seq<Row>, b: seq<Row>, q: Shape)
    ensures Hits(a + b, q) == Hits(a, q) + Hits(b, q)
  {
    if b == [] {
      assert a + b == a;
    } else {
      HitsConcat(a, b[..|b| - 1], q);
      assert (a + b)[..|a + b| - 1] == a + b[..|b| - 1];
    }
  }

  /** Keep the first of identical rows. */
  function Distinct(rows: seq<Row>): seq<Row> {
    if rows == [] then []
    else
      var n := |rows| - 1;
      if rows[n] in rows[..n] then Distinct(rows[..n]) else Distinct(rows[..n]) + [rows[n]]
  }

  lemma {:induction false} SomeHit(rows: seq<Row>, q: Shape, row: Row)
    requires row in rows && Matches(row, q)
    ensures Hits(rows, q) != []
  {
    var n := |rows| - 1;
    if rows[n] != row { SomeHit(rows[..n], q, row); }
  }

  lemma HitsPush(rows: seq<Row>, row: Row, q: Shape)
    ensures Hits(rows + [row], q) == Hits(rows, q) + if Matches(row, q) then [row.tile] else []
  {
    assert (rows + [row])[..|rows|] == rows;
  }

  /** Dropping duplicates never changes the row a lookup takes. */
  lemma {:induction false} DistinctHits(rows: seq<Row>, q: Shape)
    ensures |Hits(Distinct(rows), q)| <= |Hits(rows, q)|
    ensures Hits(rows, q) != [] ==> Hits(Distinct(rows), q) != [] && Hits(Distinct(rows), q)[0] == Hits(rows, q)[0]
  {
    if rows != [] {
      var before, row := rows[..|rows| - 1], rows[|rows| - 1];
      DistinctHits(before, q);
      if row in before {
        if Matches(row, q) { SomeHit(before, q, row); }
      } else {
        HitsPush(Distinct(before), row, q);
      }
    }
  }

  // ---------- Merging runs ----------

  /** Where the run of equal recipes from s ends. */
  function RunEnd(recipes: seq<Recipe>, s: nat, e: nat): (r: nat)
    requires s < e <= |recipes|
    ensures e <= r <= |recipes|
    decreases |recipes| - e
  {
    if e == |recipes| || recipes[e] != recipes[s] then e else RunEnd(recipes, s, e + 1)
  }

  lemma {:induction false} RunAlike(recipes: seq<Recipe>, s: nat, e: nat, j: nat)
    requires s < e <= |recipes| && (j == s || e <= j < RunEnd(recipes, s, e))
    ensures recipes[j] == recipes[s]
    decreases |recipes| - e
  {
    if e < j { RunAlike(recipes, s, e + 1, j); }
  }

  function RunRow(u: seq<int>, recipes: seq<Recipe>, n: Band, perfClass: int, tiles: map<Recipe, Tile>, s: nat,
        e: nat): seq<Row>
    requires s < e <= |recipes| == |u|
  {
    if recipes[s] !in tiles || recipes[s] == Model then []
    else [Row(Band(BandEdges(u)[s].min, BandEdges(u)[e - 1].max), n, perfClass, tiles[recipes[s]])]
  }

  /** The rows of all runs from s on. */
  function RunRows(u: seq<int>, recipes: seq<Recipe>, n: Band, perfClass: int, tiles: map<Recipe, Tile>,
          s: nat): seq<Row>
    requires s <= |recipes| == |u|
    decreases |recipes| - s
  {
    if s == |recipes| then []
    else
      var e := RunEnd(recipes, s, s + 1);
      RunRow(u, recipes, n, perfClass, tiles, s, e) + RunRows(u, recipes, n, perfClass, tiles, e)
  }

  lemma Associate<T>(a: seq<T>, b: seq<T>, c: seq<T>)
    ensures a + (b + c) == a + b + c
  {
  }

  lemma NextRun(u: seq<int>, recipes: seq<Recipe>, n: Band, perfClass: int, tiles: map<Recipe, Tile>, s: nat,
        e: nat, rows: seq<Row>)
    requires s < e <= |recipes| == |u| && RunEnd(recipes, s, s + 1) == e
    ensures rows + RunRows(u, recipes, n, perfClass, tiles, s)
         == rows + RunRow(u, recipes, n, perfClass, tiles, s, e) + RunRows(u, recipes, n, perfClass, tiles, e)
  {
    Associate(rows, RunRow(u, recipes, n, perfClass, tiles, s, e), RunRows(u, recipes, n, perfClass, tiles, e));
  }

  /** Adjacent m bands that pick the same recipe become one row. */
  method MergeRuns(u: seq<int>, recipes: seq<Recipe>, n: Band, perfClass: int, tiles: map<Recipe, Tile>)
    returns (rows: seq<Row>)
    requires |recipes| == |u| && forall r :: r in recipes ==> r == Model || r in tiles
    ensures rows == RunRows(u, recipes, n, perfClass, tiles, 0)
  {
    rows := [];
    var runStart := 0;
    for i := 1 to |recipes| + 1
      invariant runStart < i && runStart <= |recipes|
      invariant runStart < |recipes| ==>
          i <= |recipes| && RunEnd(recipes, runStart, runStart + 1) == RunEnd(recipes, runStart, i)
      invariant rows + RunRows(u, recipes, n, perfClass, tiles, runStart) == RunRows(u, recipes, n, perfClass, tiles, 0)
    {
      if i == |recipes| || recipes[i] != recipes[runStart] {
        NextRun(u, recipes, n, perfClass, tiles, runStart, i, rows);
        rows := rows + RunRow(u, recipes, n, perfClass, tiles, runStart, i);
        runStart := i;
      }
    }
  }

  /** What one cell contributes: a tile, or nothing for the model. */
  function Served(recipe: Recipe, tiles: map<Recipe, Tile>): seq<Tile> {
    if recipe == Model || recipe !in tiles then [] else [tiles[recipe]]
  }

  lemma RunServes(u: seq<int>, recipes: seq<Recipe>, n: Band, perfClass: int, tiles: map<Recipe, Tile>, s: nat,
        e: nat, q: Shape)
    requires Grid(u) && |recipes| == |u| && s < e <= |u| && q.m > 0
    ensures Hits(RunRow(u, recipes, n, perfClass, tiles, s, e), q)
         == if q.perfClass == perfClass && InBand(n, q.n) && s <= BandOf(u, q.m, |u| - 1) < e
            then Served(recipes[s], tiles) else []
  {
    RunHolds(u, q.m, s, e);
    var rows := RunRow(u, recipes, n, perfClass, tiles, s, e);
    if rows != [] { HitsPush([], rows[0], q); }
  }

  /** Merged rows serve each shape with what its own m band picked. */
  lemma {:induction false} RunsServe(u: seq<int>, recipes: seq<Recipe>, n: Band, perfClass: int,
        tiles: map<Recipe, Tile>, s: nat, q: Shape, j: nat)
    requires Grid(u) && |recipes| == |u| && s <= |u| && q.m > 0 && j == BandOf(u, q.m, |u| - 1)
    ensures Hits(RunRows(u, recipes, n, perfClass, tiles, s), q)
         == if q.perfClass == perfClass && InBand(n, q.n) && s <= j then Served(recipes[j], tiles) else []
    decreases |u| - s
  {
    if s < |u| {
      var e := RunEnd(recipes, s, s + 1);
      if s <= j < e { RunAlike(recipes, s, s + 1, j); }
      RunServes(u, recipes, n, perfClass, tiles, s, e, q);
      RunsServe(u, recipes, n, perfClass, tiles, e, q, j);
      HitsConcat(RunRow(u, recipes, n, perfClass, tiles, s, e), RunRows(u, recipes, n, perfClass, tiles, e), q);
    }
  }

  // ---------- Sweep results ----------

  /** One timed launch: `planned` is what the planner reported serving, when recorded. */
  datatype Point = Point(perfClass: int, m: int, n: int, recipe: string, planned: Option<string>, rate: real)

  type Aggregate = map<Shape, Cell>

  /** Timings of another recipe than the requested one are not attributed to it. */
  predicate Accepted(p: Point) {
    p.planned.Some? ==> p.planned.value in if p.recipe == "model" then {"model", "heuristic"} else {"override"}
  }

  function RecipeOf(p: Point): Recipe {
    var k := |p.recipe| - 5;
    var name := if k >= 0 && p.recipe[k..] == "_Fast" then p.recipe[..k] else p.recipe;
    if name == "model" then Model else Named(name)
  }

  function CellOf(p: Point): Shape {
    Shape(p.perfClass, p.m, p.n)
  }

  /** A recipe is legal for a class when that class's ladder carries it. */
  predicate Legal(p: Point, v: Vocabulary) {
    p.perfClass in v.ladders && (RecipeOf(p) == Model || RecipeOf(p) in v.ladders[p.perfClass])
  }

  function CellAt(aggregate: Aggregate, key: Shape): Cell {
    if key in aggregate then aggregate[key] else map[]
  }

  function Record(aggregate: Aggregate, key: Shape, r: Recipe, rate: real): Aggregate {
    var over := CellAt(aggregate, key);
    aggregate[key := over[r := if Rate(over, r) >= rate then Rate(over, r) else rate]]
  }

  function AggregateOf(points: seq<Point>): Aggregate {
    if points == [] then map[]
    else
      var p, before := points[|points| - 1], AggregateOf(points[..|points| - 1]);
      if Accepted(p) then Record(before, CellOf(p), RecipeOf(p), p.rate) else before
  }

  predicate IsSample(p: Point, key: Shape, r: Recipe, rate: real) {
    Accepted(p) && CellOf(p) == key && RecipeOf(p) == r && p.rate == rate
  }

  ghost predicate Sampled(points: seq<Point>, key: Shape, r: Recipe, rate: real) {
    exists i :: 0 <= i < |points| && IsSample(points[i], key, r, rate)
  }

  ghost predicate Positives(points: seq<Point>) {
    forall i :: 0 <= i < |points| ==> points[i].rate > 0.0 && points[i].m > 0 && points[i].n > 0
  }

  lemma SampledStep(points: seq<Point>, key: Shape, r: Recipe, rate: real)
    requires points != []
    ensures Sampled(points, key, r, rate)
       <==> Sampled(points[..|points| - 1], key, r, rate) || IsSample(points[|points| - 1], key, r, rate)
  {
    var before := points[..|points| - 1];
    if Sampled(before, key, r, rate) {
      var i :| 0 <= i < |before| && IsSample(before[i], key, r, rate);
      assert IsSample(points[i], key, r, rate);
    }
    if Sampled(points, key, r, rate) {
      var i :| 0 <= i < |points| && IsSample(points[i], key, r, rate);
      assert i < |before| ==> IsSample(before[i], key, r, rate);
    }
  }

  ghost predicate BestSampled(points: seq<Point>, key: Shape, r: Recipe, cell: Cell) {
    && (r in cell ==> Sampled(points, key, r, cell[r]))
    && forall rate :: Sampled(points, key, r, rate) ==> r in cell && rate <= cell[r]
  }

  /** A cell holds exactly the recipes sampled there, each at its best rate. */
  lemma {:induction false} AggregateIsBest(points: seq<Point>, key: Shape, r: Recipe)
    requires Positives(points)
    ensures BestSampled(points, key, r, CellAt(AggregateOf(points), key))
  {
    if points != [] {
      var n := |points| - 1;
      AggregateIsBest(points[..n], key, r);
      var before, after, p := CellAt(AggregateOf(points[..n]), key), CellAt(AggregateOf(points), key), points[n];
      if r in after { SampledStep(points, key, r, after[r]); }
      forall rate | Sampled(points, key, r, rate)
        ensures r in after && rate <= after[r]
      {
        SampledStep(points, key, r, rate);
      }
    }
  }

  // ---------- The table ----------

  lemma {:induction false} LeastExists(s: set<int>) returns (least: int)
    requires s != {}
    ensures least in s && forall x :: x in s ==> least <= x
  {
    assert (forall x :: x !in s) ==> s == {};
    least :| least in s;
    var rest, first := s - {least}, least;
    assert forall x :: x in s ==> x == first || x in rest;
    if rest != {} {
      var other := LeastExists(rest);
      least := if first <= other then first else other;
    }
  }

  function Sorted(s: set<int>): seq<int> {
    if s == {} then []
    else
      assert exists least :: least in s && forall x :: x in s ==> least <= x by { var least := LeastExists(s); }
      var least :| least in s && forall x :: x in s ==> least <= x;
      [least] + Sorted(s - {least})
  }

  lemma {:induction false} SortedMembers(s: set<int>, x: int)
    ensures x in Sorted(s) <==> x in s
  {
    if s != {} { SortedMembers(s - {Sorted(s)[0]}, x); }
  }

  lemma {:induction false} SortedPairwise(s: set<int>, i: nat, j: nat)
    requires i < j < |Sorted(s)|
    ensures Sorted(s)[i] < Sorted(s)[j]
  {
    var rest := s - {Sorted(s)[0]};
    SortedMembers(rest, Sorted(s)[j]);
    assert Sorted(s)[j] == Sorted(rest)[j - 1];
    if i > 0 { SortedPairwise(rest, i - 1, j - 1); }
  }

  lemma SortedAscends(s: set<int>)
    ensures Ascending(Sorted(s))
  {
    forall i, j | 0 <= i < j < |Sorted(s)|
      ensures Sorted(s)[i] < Sorted(s)[j]
    {
      SortedPairwise(s, i, j);
    }
    PairwiseAscends(Sorted(s));
  }

  /** A collected sweep: the cells, the sorted grid and the sorted classes. */
  datatype Sweep = Sweep(aggregate: Aggregate, ms: seq<int>, ns: seq<int>, classes: seq<int>, minGain: real,
      full: bool, v: Vocabulary) {
    ghost predicate Ready() {
      Known(v) && |ms| > 0 && |ns| > 0 && forall i :: 0 <= i < |classes| ==> classes[i] in v.ladders
    }

    ghost predicate Valid() {
      Ready() && Grid(ms) && Grid(ns) && Ascending(classes)
    }

    /** What one cell picks: with full coverage always a tile, else possibly the model. */
    function Pick(key: Shape): Recipe
      requires key.perfClass in v.ladders && |v.ladders[key.perfClass]| > 0
    {
      if full then BestForced(CellAt(aggregate, key), v.ladders[key.perfClass])
      else Winner(CellAt(aggregate, key), v.ladders[key.perfClass], minGain)
    }

    function Picks(perfClass: int, n: int): (r: seq<Recipe>)
      requires perfClass in v.ladders && |v.ladders[perfClass]| > 0
      ensures |r| == |ms| && forall i :: 0 <= i < |r| ==> r[i] == Pick(Shape(perfClass, ms[i], n))
    {
      seq(|ms|, i requires 0 <= i < |ms| => Pick(Shape(perfClass, ms[i], n)))
    }

    /** The rows of one n band of a class. */
    function BandRows(perfClass: int, k: nat): seq<Row>
      requires perfClass in v.ladders && |v.ladders[perfClass]| > 0 && k < |ns|
    {
      RunRows(ms, Picks(perfClass, ns[k]), BandEdges(ns)[k], perfClass, v.tiles, 0)
    }

    function AllBands(perfClass: int): (r: seq<seq<Row>>)
      requires perfClass in v.ladders && |v.ladders[perfClass]| > 0
      ensures |r| == |ns| && forall k :: 0 <= k < |r| ==> r[k] == BandRows(perfClass, k)
    {
      seq(|ns|, k requires 0 <= k < |ns| => BandRows(perfClass, k))
    }

    /** With full coverage, a last row for every shape: what the largest cell picks. */
    function CatchAll(perfClass: int): seq<Row>
      requires perfClass in v.ladders && |v.ladders[perfClass]| > 0 && |ms| > 0 && |ns| > 0
    {
      var corner := BestForced(CellAt(aggregate, Shape(perfClass, ms[|ms| - 1], ns[|ns| - 1])), v.ladders[perfClass]);
      if full && corner in v.tiles then [Row(Band(0, 0), Band(0, 0), perfClass, v.tiles[corner])] else []
    }

    function ClassRows(perfClass: int): seq<Row>
      requires perfClass in v.ladders && |v.ladders[perfClass]| > 0 && |ms| > 0 && |ns| > 0
    {
      Flatten(AllBands(perfClass)) + CatchAll(perfClass)
    }

    ghost function AllClasses(): (r: seq<seq<Row>>)
      requires Ready()
      ensures |r| == |classes| && forall i :: 0 <= i < |r| ==> r[i] == ClassRows(classes[i])
    {
      seq(|classes|, i requires 0 <= i < |classes| => ClassRows(classes[i]))
    }

    ghost function Table(): seq<Row>
      requires Ready()
    {
      Distinct(Flatten(AllClasses()))
    }
  }

  ghost predicate Covers(sw: Sweep, q: Shape) {
    sw.Valid() && q.m > 0 && q.n > 0
  }

  /** The grid cell that stands for a shape. */
  ghost function CellFor(sw: Sweep, q: Shape): Shape
    requires Covers(sw, q)
  {
    Shape(q.perfClass, sw.ms[BandOf(sw.ms, q.m, |sw.ms| - 1)], sw.ns[BandOf(sw.ns, q.n, |sw.ns| - 1)])
  }

  /** Among parts of which only number j serves a shape, the whole serves it the same way. */
  lemma {:induction false} OnePartServes(parts: seq<seq<Row>>, q: Shape, j: nat, offer: seq<Tile>)
    requires forall k :: 0 <= k < |parts| ==> Hits(parts[k], q) == if k == j then offer else []
    ensures Hits(Flatten(parts), q) == if j < |parts| then offer else []
  {
    if parts != [] {
      var n := |parts| - 1;
      OnePartServes(parts[..n], q, j, offer);
      HitsConcat(Flatten(parts[..n]), parts[n], q);
    }
  }

  lemma OneBandServes(ms: seq<int>, picks: seq<Recipe>, ns: seq<int>, i: nat, c: int, tiles: map<Recipe, Tile>,
        q: Shape, j: nat)
    requires Grid(ms) && Grid(ns) && |picks| == |ms| && i < |ns| && q.m > 0 && j == BandOf(ms, q.m, |ms| - 1)
    requires InBand(BandEdges(ns)[i], q.n) <==> BandOf(ns, q.n, |ns| - 1) == i
    ensures Hits(RunRows(ms, picks, BandEdges(ns)[i], c, tiles, 0), q)
         == if q.perfClass == c && BandOf(ns, q.n, |ns| - 1) == i then Served(picks[j], tiles) else []
  {
    RunsServe(ms, picks, BandEdges(ns)[i], c, tiles, 0, q, j);
  }

  lemma BandServes(sw: Sweep, c: int, i: nat, q: Shape, jm: nat, jn: nat)
    requires Grid(sw.ms) && Grid(sw.ns) && q.m > 0 && q.n > 0 && i < |sw.ns|
    requires c in sw.v.ladders && |sw.v.ladders[c]| > 0
    requires jm == BandOf(sw.ms, q.m, |sw.ms| - 1) && jn == BandOf(sw.ns, q.n, |sw.ns| - 1)
    ensures Hits(sw.BandRows(c, i), q)
         == if q.perfClass == c && i == jn then Served(sw.Picks(c, sw.ns[i])[jm], sw.v.tiles) else []
  {
    BandHolds(sw.ns, q.n, i);
    OneBandServes(sw.ms, sw.Picks(c, sw.ns[i]), sw.ns, i, c, sw.v.tiles, q, jm);
  }

  lemma BandsServe(sw: Sweep, c: int, q: Shape, jm: nat, jn: nat, offer: seq<Tile>)
    requires Grid(sw.ms) && Grid(sw.ns) && q.m > 0 && q.n > 0
    requires c in sw.v.ladders && |sw.v.ladders[c]| > 0
    requires jm == BandOf(sw.ms, q.m, |sw.ms| - 1) && jn == BandOf(sw.ns, q.n, |sw.ns| - 1)
    requires offer == if q.perfClass == c then Served(sw.Picks(c, sw.ns[jn])[jm], sw.v.tiles) else []
    ensures Hits(Flatten(sw.AllBands(c)), q) == offer
  {
    forall k | 0 <= k < |sw.ns|
      ensures Hits(sw.AllBands(c)[k], q) == if k == jn then offer else []
    {
      BandServes(sw, c, k, q, jm, jn);
    }
    OnePartServes(sw.AllBands(c), q, jn, offer);
  }

  lemma PickedAt(sw: Sweep, c: int, i: nat, j: nat)
    requires c in sw.v.ladders && |sw.v.ladders[c]| > 0 && i < |sw.ns| && j < |sw.ms|
    ensures sw.Picks(c, sw.ns[i])[j] == sw.Pick(Shape(c, sw.ms[j], sw.ns[i]))
  {
  }

  /** What a class's rows offer a shape, in order: its cell's pick, then the catch-all. */
  ghost function Offers(sw: Sweep, q: Shape): seq<Tile>
    requires Covers(sw, q) && q.perfClass in sw.v.ladders
  {
    Served(sw.Pick(CellFor(sw, q)), sw.v.tiles) + Hits(sw.CatchAll(q.perfClass), q)
  }

  lemma CellIs(sw: Sweep, q: Shape, jm: nat, jn: nat)
    requires Covers(sw, q)
    requires jm == BandOf(sw.ms, q.m, |sw.ms| - 1) && jn == BandOf(sw.ns, q.n, |sw.ns| - 1)
    ensures CellFor(sw, q) == Shape(q.perfClass, sw.ms[jm], sw.ns[jn])
  {
  }

  lemma OwnClass(sw: Sweep, q: Shape, jm: nat, jn: nat, cell: Shape)
    requires Grid(sw.ms) && Grid(sw.ns) && q.m > 0 && q.n > 0
    requires q.perfClass in sw.v.ladders && |sw.v.ladders[q.perfClass]| > 0
    requires jm == BandOf(sw.ms, q.m, |sw.ms| - 1) && jn == BandOf(sw.ns, q.n, |sw.ns| - 1)
    requires cell == Shape(q.perfClass, sw.ms[jm], sw.ns[jn])
    ensures Hits(Flatten(sw.AllBands(q.perfClass)), q) == Served(sw.Pick(cell), sw.v.tiles)
  {
    PickedAt(sw, q.perfClass, jn, jm);
    BandsServe(sw, q.perfClass, q, jm, jn, Served(sw.Picks(q.perfClass, sw.ns[jn])[jm], sw.v.tiles));
  }

  lemma OtherClass(sw: Sweep, c: int, q: Shape)
    requires c in sw.v.ladders && |sw.v.ladders[c]| > 0 && |sw.ms| > 0 && |sw.ns| > 0 && q.perfClass != c
    ensures Hits(sw.CatchAll(c), q) == []
  {
    var last := sw.CatchAll(c);
    if last != [] { HitsPush([], last[0], q); }
  }

  lemma ClassServes(sw: Sweep, c: int, q: Shape)
    requires Covers(sw, q) && c in sw.v.ladders
    ensures Hits(sw.ClassRows(c), q) == if q.perfClass == c then Offers(sw, q) else []
  {
    var jm, jn := BandOf(sw.ms, q.m, |sw.ms| - 1), BandOf(sw.ns, q.n, |sw.ns| - 1);
    HitsConcat(Flatten(sw.AllBands(c)), sw.CatchAll(c), q);
    if q.perfClass == c {
      CellIs(sw, q, jm, jn);
      OwnClass(sw, q, jm, jn, CellFor(sw, q));
    } else {
      OtherClass(sw, c, q);
      BandsServe(sw, c, q, jm, jn, []);
    }
  }

  /** The classes before the table is cleaned of duplicates: only the shape's own class serves it. */
  lemma ClassesServe(sw: Sweep, q: Shape)
    requires Covers(sw, q)
    ensures q.perfClass in sw.classes ==> q.perfClass in sw.v.ladders
    ensures Hits(Flatten(sw.AllClasses()), q) == if q.perfClass in sw.classes then Offers(sw, q) else []
  {
    var j: nat := |sw.classes|;
    if q.perfClass in sw.classes { j :| 0 <= j < |sw.classes| && sw.classes[j] == q.perfClass; }
    var offer := if q.perfClass in sw.classes then Offers(sw, q) else [];
    forall k | 0 <= k < |sw.classes|
      ensures Hits(sw.AllClasses()[k], q) == if k == j then offer else []
    {
      ClassServes(sw, sw.classes[k], q);
      if k < j < |sw.classes| { AscendsAt(sw.classes, k, j); }
      if j < k { AscendsAt(sw.classes, j, k); }
    }
    OnePartServes(sw.AllClasses(), q, j, offer);
  }

  lemma ShortHits(rows: seq<Row>, q: Shape)
    requires |Hits(rows, q)| <= 1
    ensures Hits(Distinct(rows), q) == Hits(rows, q)
  {
    DistinctHits(rows, q);
  }

  /**
    Without full coverage the table finds, for every shape, exactly what its own cell picked: one row, or
    none for the model.
   */
  lemma TableAgrees(sw: Sweep, q: Shape)
    requires Covers(sw, q) && !sw.full
    ensures Hits(sw.Table(), q)
         == if q.perfClass in sw.classes
            then
              var winner := Winner(CellAt(sw.aggregate, CellFor(sw, q)), sw.v.ladders[q.perfClass], sw.minGain);
              Served(winner, sw.v.tiles)
            else []
  {
    ClassesServe(sw, q);
    ShortHits(Flatten(sw.AllClasses()), q);
  }

  /** With full coverage no shape of a swept class misses, and the first row is its own cell's best recipe. */
  lemma TableCovers(sw: Sweep, q: Shape)
    requires Covers(sw, q) && sw.full && q.perfClass in sw.classes
    ensures q.perfClass in sw.v.ladders
    ensures var best := BestForced(CellAt(sw.aggregate, CellFor(sw, q)), sw.v.ladders[q.perfClass]);
            best in sw.v.tiles && Hits(sw.Table(), q) != [] && Hits(sw.Table(), q)[0] == sw.v.tiles[best]
  {
    ClassesServe(sw, q);
    DistinctHits(Flatten(sw.AllClasses()), q);
  }

  /** What a lookup owes a shape: its own cell's pick, and nothing to a class that was not swept. */
  ghost predicate FindsOwnCell(sw: Sweep, rows: seq<Row>, q: Shape)
    requires Covers(sw, q)
  {
    if q.perfClass !in sw.classes then Hits(rows, q) == []
    else
      assert q.perfClass in sw.v.ladders by { ClassesServe(sw, q); }
      var cell, ladder := CellAt(sw.aggregate, CellFor(sw, q)), sw.v.ladders[q.perfClass];
      if sw.full then
        var best := BestForced(cell, ladder);
        best in sw.v.tiles && Hits(rows, q) != [] && Hits(rows, q)[0] == sw.v.tiles[best]
      else Hits(rows, q) == Served(Winner(cell, ladder, sw.minGain), sw.v.tiles)
  }

  lemma TableFindsOwnCell(sw: Sweep, q: Shape)
    requires Covers(sw, q)
    ensures FindsOwnCell(sw, sw.Table(), q)
  {
    if q.perfClass !in sw.classes {
      ClassesServe(sw, q);
      ShortHits(Flatten(sw.AllClasses()), q);
    } else if sw.full {
      TableCovers(sw, q);
    } else {
      TableAgrees(sw, q);
    }
  }

  // ---------- Building it ----------

  /** A named recipe that the class's ladder does not carry. */
  predicate Foreign(p: Point, v: Vocabulary) {
    Accepted(p) && RecipeOf(p) != Model && !Legal(p, v)
  }

  lemma CollectStep(points: seq<Point>, i: nat)
    requires i < |points|
    ensures var p, before := points[i], AggregateOf(points[..i]);
            AggregateOf(points[..i + 1])
              == if Accepted(p) then Record(before, CellOf(p), RecipeOf(p), p.rate) else before
  {
    assert points[..i + 1][..i] == points[..i];
  }

  /** Group the accepted points by cell; a recipe outside its class's ladder is an error. */
  method Collect(points: seq<Point>, v: Vocabulary) returns (r: Option<Aggregate>)
    ensures r.None? <==> exists p :: p in points && Foreign(p, v)
    ensures r.Some? ==> r.value == AggregateOf(points)
  {
    var aggregate: Aggregate := map[];
    for i := 0 to |points|
      invariant aggregate == AggregateOf(points[..i])
      invariant forall k :: 0 <= k < i ==> !Foreign(points[k], v)
    {
      var p := points[i];
      CollectStep(points, i);
      if Foreign(p, v) { return None; }
      if Accepted(p) { aggregate := Record(aggregate, CellOf(p), RecipeOf(p), p.rate); }
    }
    assert points[..|points|] == points;
    return Some(aggregate);
  }

  lemma {:induction false} AggregateKeys(points: seq<Point>, key: Shape)
    ensures key in AggregateOf(points)
        <==> exists i :: 0 <= i < |points| && Accepted(points[i]) && CellOf(points[i]) == key
  {
    if points != [] {
      var n := |points| - 1;
      AggregateKeys(points[..n], key);
      assert forall i :: 0 <= i < n ==> points[..n][i] == points[i];
    }
  }

  function Ms(aggregate: Aggregate): set<int> {
    set key | key in aggregate :: key.m
  }

  function Ns(aggregate: Aggregate): set<int> {
    set key | key in aggregate :: key.n
  }

  function Classes(aggregate: Aggregate): set<int> {
    set key | key in aggregate :: key.perfClass
  }

  function SweepOf(aggregate: Aggregate, minGain: real, full: bool, v: Vocabulary): Sweep {
    Sweep(aggregate, Sorted(Ms(aggregate)), Sorted(Ns(aggregate)), Sorted(Classes(aggregate)), minGain, full, v)
  }

  lemma ClassSampled(points: seq<Point>, c: int)
    ensures c in Sorted(Classes(AggregateOf(points)))
        <==> exists i :: 0 <= i < |points| && Accepted(points[i]) && points[i].perfClass == c
  {
    SortedMembers(Classes(AggregateOf(points)), c);
    if c in Classes(AggregateOf(points)) {
      var key :| key in AggregateOf(points) && key.perfClass == c;
      AggregateKeys(points, key);
    }
    if exists i :: 0 <= i < |points| && Accepted(points[i]) && points[i].perfClass == c {
      var i :| 0 <= i < |points| && Accepted(points[i]) && points[i].perfClass == c;
      AggregateKeys(points, CellOf(points[i]));
      assert CellOf(points[i]).perfClass in Classes(AggregateOf(points));
    }
  }

  lemma PickKnown(sw: Sweep, key: Shape)
    requires key.perfClass in sw.v.ladders && KnownLadder(sw.v.ladders[key.perfClass], sw.v.tiles)
    ensures sw.Pick(key) == Model || sw.Pick(key) in sw.v.tiles
    ensures sw.full ==> sw.Pick(key) != Model
  {
  }

  lemma PicksKnown(sw: Sweep, c: int, n: int)
    requires Known(sw.v) && c in sw.v.ladders && |sw.v.ladders[c]| > 0
    ensures forall r :: r in sw.Picks(c, n) ==> r == Model || r in sw.v.tiles
  {
    assert KnownLadder(sw.v.ladders[c], sw.v.tiles);
    forall i | 0 <= i < |sw.ms|
      ensures sw.Picks(c, n)[i] == Model || sw.Picks(c, n)[i] in sw.v.tiles
    {
      PickKnown(sw, Shape(c, sw.ms[i], n));
    }
  }

  method BuildClass(sw: Sweep, c: int) returns (rows: seq<Row>)
    requires Known(sw.v) && c in sw.v.ladders && |sw.ms| > 0 && |sw.ns| > 0
    ensures |sw.v.ladders[c]| > 0 && rows == sw.ClassRows(c)
  {
    assert KnownLadder(sw.v.ladders[c], sw.v.tiles);
    rows := [];
    var edges := BandEdges(sw.ns);
    for k := 0 to |sw.ns|
      invariant rows == Flatten(sw.AllBands(c)[..k])
    {
      var picks := sw.Picks(c, sw.ns[k]);
      PicksKnown(sw, c, sw.ns[k]);
      var run := MergeRuns(sw.ms, picks, edges[k], c, sw.v.tiles);
      assert sw.AllBands(c)[..k + 1][..k] == sw.AllBands(c)[..k];
      rows := rows + run;
    }
    assert sw.AllBands(c)[..|sw.ns|] == sw.AllBands(c);
    rows := rows + sw.CatchAll(c);
  }

  /** The rows of class number `k`. */
  ghost predicate Built(sw: Sweep, k: nat, part: seq<Row>)
    requires |sw.ms| > 0 && |sw.ns| > 0 && k < |sw.classes|
  {
    var c := sw.classes[k];
    c in sw.v.ladders && |sw.v.ladders[c]| > 0 && part == sw.ClassRows(c)
  }

  /** The rows of the first classes, class by class. */
  ghost predicate BuiltUpto(sw: Sweep, parts: seq<seq<Row>>)
    requires |sw.ms| > 0 && |sw.ns| > 0
  {
    |parts| <= |sw.classes| && forall k :: 0 <= k < |parts| ==> Built(sw, k, parts[k])
  }

  lemma {:induction false} BuiltNext(sw: Sweep, parts: seq<seq<Row>>, next: seq<Row>)
    requires |sw.ms| > 0 && |sw.ns| > 0 && BuiltUpto(sw, parts) && |parts| < |sw.classes|
    requires Built(sw, |parts|, next)
    ensures BuiltUpto(sw, parts + [next])
  {
    var all := parts + [next];
    forall k | 0 <= k < |all|
      ensures Built(sw, k, all[k])
    {
      if k < |parts| { assert all[k] == parts[k]; }
    }
  }

  lemma BuiltAll(sw: Sweep, parts: seq<seq<Row>>)
    requires Known(sw.v) && |sw.ms| > 0 && |sw.ns| > 0 && |parts| == |sw.classes| && BuiltUpto(sw, parts)
    ensures sw.Ready() && parts == sw.AllClasses()
  {
    forall k | 0 <= k < |parts|
      ensures sw.classes[k] in sw.v.ladders && parts[k] == sw.ClassRows(sw.classes[k])
    {
      assert Built(sw, k, parts[k]);
    }
  }

  method BuildClasses(sw: Sweep) returns (r: Option<seq<Row>>)
    requires Known(sw.v) && |sw.ms| > 0 && |sw.ns| > 0
    ensures r.None? <==> exists i :: 0 <= i < |sw.classes| && sw.classes[i] !in sw.v.ladders
    ensures r.Some? ==> sw.Ready() && r.value == Flatten(sw.AllClasses())
  {
    var rows: seq<Row> := [];
    ghost var parts: seq<seq<Row>> := [];
    for i := 0 to |sw.classes|
      invariant |parts| == i && BuiltUpto(sw, parts) && rows == Flatten(parts)
    {
      if sw.classes[i] !in sw.v.ladders { return None; }
      var classRows := BuildClass(sw, sw.classes[i]);
      BuiltNext(sw, parts, classRows);
      FlattenPush(parts, classRows);
      parts := parts + [classRows];
      rows := rows + classRows;
    }
    BuiltAll(sw, parts);
    return Some(rows);
  }

  /** An accepted timing that its class could not dispatch. */
  predicate Illegal(p: Point, v: Vocabulary) {
    Accepted(p) && !Legal(p, v)
  }

  lemma GridNonEmpty(aggregate: Aggregate)
    requires aggregate != map[]
    ensures |Sorted(Ms(aggregate))| > 0 && |Sorted(Ns(aggregate))| > 0
  {
    var key :| key in aggregate;
    assert key.m in Ms(aggregate) && key.n in Ns(aggregate);
    SortedMembers(Ms(aggregate), key.m);
    SortedMembers(Ns(aggregate), key.n);
  }

  lemma NoClasses(aggregate: Aggregate)
    ensures Sorted(Classes(aggregate)) == [] <==> aggregate == map[]
  {
    if aggregate == map[] {
      assert Classes(aggregate) == {};
    } else {
      var key :| key in aggregate;
      assert key.perfClass in Classes(aggregate);
    }
  }

  lemma AllLegal(points: seq<Point>, classes: seq<int>, v: Vocabulary)
    requires classes == Sorted(Classes(AggregateOf(points))) && forall p :: p in points ==> !Foreign(p, v)
    ensures (exists p :: p in points && Illegal(p, v)) <==> exists i :: 0 <= i < |classes| && classes[i] !in v.ladders
  {
    if exists p :: p in points && Illegal(p, v) {
      var p :| p in points && Illegal(p, v);
      ClassSampled(points, p.perfClass);
    }
    if exists i :: 0 <= i < |classes| && classes[i] !in v.ladders {
      var i :| 0 <= i < |classes| && classes[i] !in v.ladders;
      ClassSampled(points, classes[i]);
      var k :| 0 <= k < |points| && Accepted(points[k]) && points[k].perfClass == classes[i];
      assert points[k] in points && Illegal(points[k], v);
    }
  }

  lemma GridPositive(points: seq<Point>, m: int, n: int)
    requires Positives(points) && m in Sorted(Ms(AggregateOf(points))) && n in Sorted(Ns(AggregateOf(points)))
    ensures m > 0 && n > 0
  {
    SortedMembers(Ms(AggregateOf(points)), m);
    SortedMembers(Ns(AggregateOf(points)), n);
    var km :| km in AggregateOf(points) && km.m == m;
    var kn :| kn in AggregateOf(points) && kn.n == n;
    AggregateKeys(points, km);
    AggregateKeys(points, kn);
  }

  /** A sweep of positive shapes over known classes is one that the lookup theorems apply to. */
  lemma SweepIsValid(points: seq<Point>, sw: Sweep)
    requires sw == SweepOf(AggregateOf(points), sw.minGain, sw.full, sw.v)
    requires Positives(points) && sw.aggregate != map[] && sw.Ready()
    ensures sw.Valid()
  {
    SortedAscends(Ms(sw.aggregate));
    SortedAscends(Ns(sw.aggregate));
    SortedAscends(Classes(sw.aggregate));
    GridPositive(points, sw.ms[0], sw.ns[0]);
  }

  lemma TableServes(points: seq<Point>, sw: Sweep)
    requires sw == SweepOf(AggregateOf(points), sw.minGain, sw.full, sw.v)
    requires Positives(points) && sw.aggregate != map[] && sw.Ready()
    ensures forall q: Shape | q.m > 0 && q.n > 0 :: Covers(sw, q) && FindsOwnCell(sw, sw.Table(), q)
  {
    SweepIsValid(points, sw);
    forall q: Shape | q.m > 0 && q.n > 0
      ensures Covers(sw, q) && FindsOwnCell(sw, sw.Table(), q)
    {
      TableFindsOwnCell(sw, q);
    }
  }

  /**
    The whole table: refused exactly when an accepted timing names something its class cannot dispatch.
    In a table built from positive shapes, every lookup finds what the shape's own cell picked.
   */
  method BuildRows(points: seq<Point>, minGain: real, full: bool, v: Vocabulary) returns (r: Result<seq<Row>>)
    requires Known(v)
    ensures r.Failure? <==> exists p :: p in points && Illegal(p, v)
    ensures r.Success? ==>
              var sw := SweepOf(AggregateOf(points), minGain, full, v);
              if sw.aggregate == map[] then r.value == [] else sw.Ready() && r.value == sw.Table()
    ensures r.Success? && Positives(points) && AggregateOf(points) != map[] ==>
              var sw := SweepOf(AggregateOf(points), minGain, full, v);
              forall q: Shape | q.m > 0 && q.n > 0 :: Covers(sw, q) && FindsOwnCell(sw, r.value, q)
  {
    var collected := Collect(points, v);
    if collected.None? { return Failure; }
    var sw := SweepOf(collected.value, minGain, full, v);
    NoClasses(sw.aggregate);
    AllLegal(points, sw.classes, v);
    if sw.aggregate == map[] { return Success([]); }
    GridNonEmpty(sw.aggregate);
    var rows := BuildClasses(sw);
    if rows.None? { return Failure; }
    if Positives(points) { TableServes(points, sw); }
    return Success(Distinct(rows.value));
  }

  // ---------- Clamping ----------

  function ClampRow(row: Row, floor: int): seq<Row> {
    if row.m.max != 0 && row.m.max <= floor then []
    else [row.(m := Band(Max(row.m.min, floor), row.m.max))]
  }

  function Clamped(rows: seq<Row>, floor: int): seq<Row> {
    if rows == [] then []
    else Clamped(rows[..|rows| - 1], floor) + ClampRow(rows[|rows| - 1], floor)
  }

  /** Raise every row's lower m bound to the swept floor; rows wholly below it go. */
  method ClampMDomain(rows: seq<Row>, floor: int) returns (out: seq<Row>)
    ensures out == Clamped(rows, floor)
  {
    out := [];
    for i := 0 to |rows|
      invariant out == Clamped(rows[..i], floor)
    {
      var row := rows[i];
      assert rows[..i + 1][..i] == rows[..i];
      if row.m.max != 0 && row.m.max <= floor { continue; }
      if row.m.min < floor { row := row.(m := Band(floor, row.m.max)); }
      out := out + [row];
    }
    assert rows[..|rows|] == rows;
  }

  lemma ClampRowKeeps(row: Row, floor: int, q: Shape)
    ensures Hits(ClampRow(row, floor), q) == if q.m > floor && Matches(row, q) then [row.tile] else []
  {
    var clamped := ClampRow(row, floor);
    if clamped != [] { HitsPush([], clamped[0], q); }
  }

  /** Clamping keeps every match above the floor and removes every match at or below it. */
  lemma {:induction false} ClampKeeps(rows: seq<Row>, floor: int, q: Shape)
    ensures Hits(Clamped(rows, floor), q) == if q.m > floor then Hits(rows, q) else []
  {
    if rows != [] {
      var n := |rows| - 1;
      ClampKeeps(rows[..n], floor, q);
      ClampRowKeeps(rows[n], floor, q);
      HitsConcat(Clamped(rows[..n], floor), ClampRow(rows[n], floor), q);
    }
  }
}
