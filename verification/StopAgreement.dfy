/**
  Stop agreement between ranks that run at their own pace: any interleaving of rank
  steps, with a signal reaching any rank at any moment. Ranks meet only in collectives.
 */
module StopAgreement {
  import opened Arithmetic
  import opened StepPlan
  import opened Sampler

  /** What every rank is going to run: the windows of each epoch and the updates of each window. */
  datatype Plan = Plan(start: int, epochs: int, windows: int -> nat, updates: (int, nat) -> nat)

  datatype Point = LoopCheck | EpochCheck | CommitCheck

  datatype Kind =
    | Agree(at: Point, epoch: int, window: nat)
    | Gradients(epoch: int, window: nat, update: nat)
    | Totals(epoch: int, window: nat, update: nat)

  datatype Pc = LoopTop | EpochBegin | WindowTop | UpdateTop | Reducing | Committed | EpochEnd | Stopped

  datatype Commit = Commit(epoch: int, window: nat, update: nat)

  datatype Control = Control(pc: Pc, epoch: int, window: nat, update: nat, agreed: bool, commits: seq<Commit>)

  datatype Move = Silent(next: Control) | Collective(kind: Kind) | Halt

  /** What a rank does next, given where it is; its own stop request plays no part. */
  function Local(p: Plan, c: Control): Move {
    match c.pc
    case LoopTop =>
      if c.epoch >= p.epochs || c.agreed then Silent(c.(pc := Stopped)) else Collective(Agree(LoopCheck, c.epoch, 0))
    case EpochBegin =>
      if c.agreed then Silent(c.(pc := WindowTop, window := 0)) else Collective(Agree(EpochCheck, c.epoch, 0))
    case WindowTop =>
      if c.window >= p.windows(c.epoch) || c.agreed then Silent(c.(pc := EpochEnd))
      else Silent(c.(pc := UpdateTop, update := 0))
    case UpdateTop => Collective(Gradients(c.epoch, c.window, c.update))
    case Reducing => Collective(Totals(c.epoch, c.window, c.update))
    case Committed =>
      if c.update + 1 < p.updates(c.epoch, c.window) then Silent(c.(pc := UpdateTop, update := c.update + 1))
      else Collective(Agree(CommitCheck, c.epoch, c.window))
    case EpochEnd => Silent(c.(pc := LoopTop, epoch := c.epoch + 1))
    case Stopped => Halt
  }

  /** What a rank does with the result of the collective it posted. */
  function Receive(c: Control, stop: bool): Control {
    match c.pc
    case LoopTop => c.(pc := if stop then Stopped else EpochBegin, agreed := c.agreed || stop)
    case EpochBegin => c.(pc := WindowTop, window := 0, agreed := c.agreed || stop)
    case UpdateTop => c.(pc := Reducing)
    case Reducing => c.(pc := Committed, commits := c.commits + [Commit(c.epoch, c.window, c.update)])
    case Committed => c.(pc := WindowTop, window := c.window + 1, agreed := c.agreed || stop)
    case _ => c
  }

  function Weight(pc: Pc): nat {
    match pc
    case Committed => 5
    case EpochBegin => 4
    case WindowTop => 3
    case EpochEnd => 2
    case LoopTop => 1
    case _ => 0
  }

  /** Run silent steps up to the next collective or the end. */
  function Settle(p: Plan, c: Control): Control
    decreases Weight(c.pc)
  {
    match Local(p, c)
    case Silent(next) => Settle(p, next)
    case _ => c
  }

  function Start(p: Plan): Control {
    Control(LoopTop, p.start, 0, 0, false, [])
  }

  /** Where every rank ends up after these collective results, whatever was requested of it. */
  function Expect(p: Plan, results: seq<bool>): Control {
    if results == [] then Settle(p, Start(p))
    else Settle(p, Receive(Expect(p, results[..|results| - 1]), results[|results| - 1]))
  }

  datatype Post = Post(kind: Kind, stop: bool)

  /** `requestedAt` is the number of posts the rank had made when a stop was first requested of it. */
  datatype Rank = Rank(control: Control, waiting: bool, delivered: nat, log: seq<Post>, requested: bool,
      requestedAt: nat)

  /** `results` holds the reductions that are complete: everyone has posted them. */
  datatype State = State(ranks: seq<Rank>, results: seq<bool>)

  function Initial(p: Plan, n: nat): State {
    State(seq(n, i => Rank(Start(p), false, 0, [], false, 0)), [])
  }

  /** The MAX reduction of the stop flags of the k-th collective. */
  ghost predicate AnyStop(ranks: seq<Rank>, k: nat) {
    exists r :: 0 <= r < |ranks| && k < |ranks[r].log| && ranks[r].log[k].stop
  }

  ghost predicate AllPosted(s: State) {
    forall r :: 0 <= r < |s.ranks| ==> |s.ranks[r].log| > |s.results|
  }

  /** A request reaches a rank; the first one is remembered. */
  function Asked(rank: Rank, stop: bool): Rank {
    if rank.requested || !stop then rank else rank.(requested := true, requestedAt := |rank.log|)
  }

  /** A signal may reach any rank at any time. */
  ghost predicate Signal(s: State, s': State, r: nat) {
    && r < |s.ranks| && s'.results == s.results
    && s'.ranks == s.ranks[r := Asked(s.ranks[r], true)]
  }

  ghost predicate Advance(p: Plan, s: State, s': State, r: nat) {
    && r < |s.ranks| && s'.results == s.results
    && !s.ranks[r].waiting && Local(p, s.ranks[r].control).Silent?
    && s'.ranks == s.ranks[r := s.ranks[r].(control := Local(p, s.ranks[r].control).next)]
  }

  /** The rank posts its part of the collective it is at, with its own request flag. */
  function Posted(p: Plan, rank: Rank): Rank
    requires Local(p, rank.control).Collective?
  {
    rank.(waiting := true, log := rank.log + [Post(Local(p, rank.control).kind, rank.requested)])
  }

  /** Enter a collective; the last rank to enter completes it. */
  ghost predicate Enter(p: Plan, s: State, s': State, r: nat) {
    && r < |s.ranks|
    && !s.ranks[r].waiting && Local(p, s.ranks[r].control).Collective?
    && var posted := s.ranks[r := Posted(p, s.ranks[r])];
       && s'.ranks == posted
       && s'.results
          == if AllPosted(State(posted, s.results)) then s.results + [AnyStop(posted, |s.results|)] else s.results
  }

  /** The rank takes the result; an agreement that says stop also sets the rank's own request. */
  function Left(p: Plan, rank: Rank, stop: bool): Rank {
    var agreed := Local(p, rank.control).Collective? && Local(p, rank.control).kind.Agree? && stop;
    Asked(rank, agreed).(waiting := false, delivered := rank.delivered + 1, control := Receive(rank.control, stop))
  }

  /** Leave a complete collective with its result. */
  ghost predicate Leave(p: Plan, s: State, s': State, r: nat) {
    && r < |s.ranks| && s'.results == s.results
    && s.ranks[r].waiting && s.ranks[r].delivered < |s.results|
    && s'.ranks == s.ranks[r := Left(p, s.ranks[r], s.results[s.ranks[r].delivered])]
  }

  ghost predicate Next(p: Plan, s: State, s': State) {
    exists r: nat :: Signal(s, s', r) || Advance(p, s, s', r) || Enter(p, s, s', r) || Leave(p, s, s', r)
  }

  ghost predicate Run(p: Plan, n: nat, states: seq<State>) {
    && states != [] && n > 0 && states[0] == Initial(p, n)
    && forall i :: 0 < i < |states| ==> Next(p, states[i - 1], states[i])
  }

  // ---------- The invariant ----------

  ghost predicate RankInvariant(p: Plan, rank: Rank, results: seq<bool>) {
    && rank.delivered <= |results| <= |rank.log| <= |results| + 1
    && |rank.log| == rank.delivered + (if rank.waiting then 1 else 0)
    && Settle(p, rank.control) == Expect(p, results[..rank.delivered])
    && (rank.waiting ==> Local(p, rank.control).Collective?)
    && (forall k :: 0 <= k < |rank.log| ==> Local(p, Expect(p, results[..k])) == Collective(rank.log[k].kind))
    && (rank.requested ==> rank.requestedAt <= |rank.log|)
    && (forall k :: 0 <= k < |rank.log| ==> (rank.log[k].stop <==> rank.requested && rank.requestedAt <= k))
  }

  ghost predicate Invariant(p: Plan, s: State) {
    && s.ranks != []
    && (forall r :: 0 <= r < |s.ranks| ==> RankInvariant(p, s.ranks[r], s.results))
    && (forall k :: 0 <= k < |s.results| ==> (s.results[k] <==> AnyStop(s.ranks, k)))
    && !AllPosted(s)
  }

  lemma SettledStays(p: Plan, c: Control)
    requires !Local(p, c).Silent?
    ensures Settle(p, c) == c
  {
  }

  /** Results that arrive later change nothing before them. */
  lemma MoreResults(p: Plan, rank: Rank, results: seq<bool>, b: bool)
    requires RankInvariant(p, rank, results) && |rank.log| == |results| + 1
    ensures RankInvariant(p, rank, results + [b])
  {
    forall k | 0 <= k <= |results|
      ensures (results + [b])[..k] == results[..k]
    {
    }
  }

  lemma SameLogs(s: State, s': State)
    requires |s.ranks| == |s'.ranks| && s.results == s'.results && forall r :: 0 <= r < |s.ranks| ==>
        s.ranks[r].log == s'.ranks[r].log
    ensures forall k: nat :: AnyStop(s.ranks, k) == AnyStop(s'.ranks, k)
    ensures AllPosted(s) == AllPosted(s')
  {
    forall k: nat
      ensures AnyStop(s.ranks, k) == AnyStop(s'.ranks, k)
    {
      if AnyStop(s.ranks, k) {
        var r :| 0 <= r < |s.ranks| && k < |s.ranks[r].log| && s.ranks[r].log[k].stop;
        assert s'.ranks[r].log[k].stop;
      }
      if AnyStop(s'.ranks, k) {
        var r :| 0 <= r < |s.ranks| && k < |s'.ranks[r].log| && s'.ranks[r].log[k].stop;
        assert s.ranks[r].log[k].stop;
      }
    }
    if AllPosted(s) {
      assert forall r :: 0 <= r < |s'.ranks| ==> s.ranks[r].log == s'.ranks[r].log;
    }
  }

  lemma AskedRank(p: Plan, rank: Rank, results: seq<bool>)
    requires RankInvariant(p, rank, results)
    ensures RankInvariant(p, Asked(rank, true), results)
  {
  }

  lemma SignalKeeps(p: Plan, s: State, s': State, r: nat)
    requires Invariant(p, s) && Signal(s, s', r)
    ensures Invariant(p, s')
  {
    SameLogs(s, s');
    AskedRank(p, s.ranks[r], s.results);
    forall q | 0 <= q < |s.ranks|
      ensures RankInvariant(p, s'.ranks[q], s.results)
    {
      assert q != r ==> s'.ranks[q] == s.ranks[q];
    }
  }

  lemma AdvancedRank(p: Plan, rank: Rank, results: seq<bool>)
    requires RankInvariant(p, rank, results) && !rank.waiting && Local(p, rank.control).Silent?
    ensures RankInvariant(p, rank.(control := Local(p, rank.control).next), results)
  {
  }

  lemma AdvanceKeeps(p: Plan, s: State, s': State, r: nat)
    requires Invariant(p, s) && Advance(p, s, s', r)
    ensures Invariant(p, s')
  {
    SameLogs(s, s');
    AdvancedRank(p, s.ranks[r], s.results);
    forall q | 0 <= q < |s.ranks|
      ensures RankInvariant(p, s'.ranks[q], s.results)
    {
      assert q != r ==> s'.ranks[q] == s.ranks[q];
    }
  }

  lemma LeaveRank(p: Plan, rank: Rank, results: seq<bool>)
    requires RankInvariant(p, rank, results) && rank.waiting && rank.delivered < |results|
    ensures RankInvariant(p, Left(p, rank, results[rank.delivered]), results)
  {
    SettledStays(p, rank.control);
    assert results[..rank.delivered + 1][..rank.delivered] == results[..rank.delivered];
  }

  lemma LeaveRanks(p: Plan, s: State, s': State, r: nat)
    requires Invariant(p, s) && Leave(p, s, s', r)
    ensures |s'.ranks| == |s.ranks| && forall q :: 0 <= q < |s.ranks| ==> RankInvariant(p, s'.ranks[q], s.results)
  {
    LeaveRank(p, s.ranks[r], s.results);
    forall q | 0 <= q < |s.ranks|
      ensures RankInvariant(p, s'.ranks[q], s.results)
    {
      assert q != r ==> s'.ranks[q] == s.ranks[q];
    }
  }

  lemma LeaveLogs(p: Plan, s: State, s': State, r: nat)
    requires Leave(p, s, s', r)
    ensures forall k: nat :: AnyStop(s.ranks, k) == AnyStop(s'.ranks, k)
    ensures AllPosted(s) == AllPosted(s')
  {
    SameLogs(s, s');
  }

  lemma LeaveKeeps(p: Plan, s: State, s': State, r: nat)
    requires Invariant(p, s) && Leave(p, s, s', r)
    ensures Invariant(p, s')
  {
    LeaveRanks(p, s, s', r);
    LeaveLogs(p, s, s', r);
  }

  lemma EnterRank(p: Plan, rank: Rank, results: seq<bool>)
    requires RankInvariant(p, rank, results) && !rank.waiting && Local(p, rank.control).Collective?
    ensures RankInvariant(p, Posted(p, rank), results)
  {
    SettledStays(p, rank.control);
  }

  lemma LogsGrow(before: seq<Rank>, after: seq<Rank>, n: nat)
    requires |before| == |after|
    requires forall r :: 0 <= r < |before| ==> n <= |before[r].log| && before[r].log <= after[r].log
    ensures forall k :: 0 <= k < n ==> AnyStop(before, k) == AnyStop(after, k)
  {
    forall k | 0 <= k < n
      ensures AnyStop(before, k) == AnyStop(after, k)
    {
      if AnyStop(before, k) {
        var r :| 0 <= r < |before| && k < |before[r].log| && before[r].log[k].stop;
        assert after[r].log[k].stop;
      }
      if AnyStop(after, k) {
        var r :| 0 <= r < |after| && k < |after[r].log| && after[r].log[k].stop;
        assert before[r].log[k].stop;
      }
    }
  }

  /** The last rank to enter completes the collective. */
  lemma CompleteKeeps(p: Plan, ranks: seq<Rank>, results: seq<bool>)
    requires ranks != [] && forall r :: 0 <= r < |ranks| ==> RankInvariant(p, ranks[r], results)
    requires forall k :: 0 <= k < |results| ==> (results[k] <==> AnyStop(ranks, k))
    requires AllPosted(State(ranks, results))
    ensures Invariant(p, State(ranks, results + [AnyStop(ranks, |results|)]))
  {
    var b := AnyStop(ranks, |results|);
    forall q | 0 <= q < |ranks|
      ensures RankInvariant(p, ranks[q], results + [b])
    {
      MoreResults(p, ranks[q], results, b);
    }
    assert |ranks[0].log| == |results| + 1;
  }

  lemma EnterRanks(p: Plan, s: State, s': State, r: nat)
    requires Invariant(p, s) && Enter(p, s, s', r)
    ensures |s'.ranks| == |s.ranks| && forall q :: 0 <= q < |s.ranks| ==> RankInvariant(p, s'.ranks[q], s.results)
  {
    EnterRank(p, s.ranks[r], s.results);
    forall q | 0 <= q < |s.ranks|
      ensures RankInvariant(p, s'.ranks[q], s.results)
    {
      assert q != r ==> s'.ranks[q] == s.ranks[q];
    }
  }

  lemma {:induction false} EnterKeeps(p: Plan, s: State, s': State, r: nat)
    requires Invariant(p, s) && Enter(p, s, s', r)
    ensures Invariant(p, s')
  {
    EnterRanks(p, s, s', r);
    LogsGrow(s.ranks, s'.ranks, |s.results|);
    if AllPosted(State(s'.ranks, s.results)) {
      CompleteKeeps(p, s'.ranks, s.results);
    }
  }

  lemma InitialHolds(p: Plan, n: nat)
    requires n > 0
    ensures Invariant(p, Initial(p, n))
  {
    var s := Initial(p, n);
    assert |s.ranks[0].log| == 0;
    assert s.results[..0] == [];
  }

  lemma {:induction false} RunKeepsInvariant(p: Plan, n: nat, states: seq<State>, i: nat)
    requires Run(p, n, states) && i < |states|
    ensures Invariant(p, states[i]) && |states[i].ranks| == n
  {
    if i == 0 {
      InitialHolds(p, n);
    } else {
      RunKeepsInvariant(p, n, states, i - 1);
      var s, s' := states[i - 1], states[i];
      var r: nat :| Signal(s, s', r) || Advance(p, s, s', r) || Enter(p, s, s', r) || Leave(p, s, s', r);
      if Signal(s, s', r) {
        SignalKeeps(p, s, s', r);
      } else if Advance(p, s, s', r) {
        AdvanceKeeps(p, s, s', r);
      } else if Enter(p, s, s', r) {
        EnterKeeps(p, s, s', r);
      } else {
        LeaveKeeps(p, s, s', r);
      }
    }
  }

  // ---------- What follows for every run ----------

  /** All ranks enter the same collectives in the same order, never more than one apart. */
  lemma SameCollectives(p: Plan, n: nat, states: seq<State>, i: nat, a: nat, b: nat)
    requires Run(p, n, states) && i < |states| && a < n && b < n
    ensures |states[i].ranks| == n
    ensures var x, y := states[i].ranks[a], states[i].ranks[b];
            && |x.log| <= |y.log| + 1
            && forall k :: 0 <= k < |x.log| && k < |y.log| ==> x.log[k].kind == y.log[k].kind
  {
    RunKeepsInvariant(p, n, states, i);
  }

  /**
    Ranks that have left equally many collectives are on the way to the same point, with the same verdict and
    commits.
   */
  lemma Lockstep(p: Plan, n: nat, states: seq<State>, i: nat, a: nat, b: nat)
    requires Run(p, n, states) && i < |states| && a < n && b < n
    ensures |states[i].ranks| == n
    ensures var x, y := states[i].ranks[a], states[i].ranks[b];
            x.delivered == y.delivered ==> Settle(p, x.control) == Settle(p, y.control)
  {
    RunKeepsInvariant(p, n, states, i);
  }

  /** At rest between collectives, the verdict and the commits are part of what ranks share. */
  lemma SettleKeepsVerdict(p: Plan, c: Control)
    ensures Settle(p, c).agreed == c.agreed && Settle(p, c).commits == c.commits
    decreases Weight(c.pc)
  {
    if Local(p, c).Silent? { SettleKeepsVerdict(p, Local(p, c).next); }
  }

  lemma SameVerdict(p: Plan, n: nat, states: seq<State>, i: nat, a: nat, b: nat)
    requires Run(p, n, states) && i < |states| && a < n && b < n
    ensures |states[i].ranks| == n
    ensures var x, y := states[i].ranks[a], states[i].ranks[b];
            x.delivered == y.delivered ==>
              x.control.agreed == y.control.agreed && x.control.commits == y.control.commits
  {
    Lockstep(p, n, states, i, a, b);
    SettleKeepsVerdict(p, states[i].ranks[a].control);
    SettleKeepsVerdict(p, states[i].ranks[b].control);
  }

  /** After an agreement that says stop, nothing is left to do but leave. */
  lemma StopEndsRun(p: Plan, c: Control)
    requires Local(p, c).Collective? && Local(p, c).kind.Agree?
    ensures Settle(p, Receive(c, true)).pc == Stopped
  {
    var d := Receive(c, true);
    if d.pc == WindowTop {
      var e := d.(pc := EpochEnd);
      assert Local(p, d) == Silent(e);
      var f := e.(pc := LoopTop, epoch := e.epoch + 1);
      assert Local(p, e) == Silent(f);
      assert Local(p, f) == Silent(f.(pc := Stopped));
      SettledStays(p, f.(pc := Stopped));
      assert Settle(p, f) == f.(pc := Stopped);
      assert Settle(p, e) == Settle(p, f);
    }
  }

  lemma HaltAfter(p: Plan, results: seq<bool>, k: nat)
    requires k < |results| && results[k]
    requires Local(p, Expect(p, results[..k])).Collective? && Local(p, Expect(p, results[..k])).kind.Agree?
    ensures Expect(p, results[..k + 1]).pc == Stopped
  {
    assert results[..k + 1][..k] == results[..k];
    StopEndsRun(p, Expect(p, results[..k]));
  }

  lemma PostedAt(p: Plan, rank: Rank, results: seq<bool>, k: nat)
    requires RankInvariant(p, rank, results) && k <= |results|
    ensures k < |rank.log| ==> Local(p, Expect(p, results[..k])) == Collective(rank.log[k].kind)
  {
  }

  lemma LastCollective(p: Plan, rank: Rank, results: seq<bool>, k: nat)
    requires RankInvariant(p, rank, results) && k < |results| && Expect(p, results[..k + 1]).pc == Stopped
    ensures |results| == k + 1 == |rank.log|
    ensures rank.delivered == k + 1 ==> Settle(p, rank.control).pc == Stopped
  {
    PostedAt(p, rank, results, k + 1);
  }

  /** The first agreement that says stop is every rank's last collective. */
  lemma NothingAfterStop(p: Plan, n: nat, states: seq<State>, i: nat, k: nat, a: nat, b: nat)
    requires Run(p, n, states) && i < |states| && a < n && b < n
    requires |states[i].ranks| == n && k < |states[i].results| && states[i].results[k]
    requires k < |states[i].ranks[a].log| && states[i].ranks[a].log[k].kind.Agree?
    ensures |states[i].results| == k + 1
    ensures |states[i].ranks[b].log| == k + 1
    ensures states[i].ranks[b].delivered == k + 1 ==> Settle(p, states[i].ranks[b].control).pc == Stopped
  {
    RunKeepsInvariant(p, n, states, i);
    var s := states[i];
    PostedAt(p, s.ranks[a], s.results, k);
    HaltAfter(p, s.results, k);
    LastCollective(p, s.ranks[b], s.results, k);
  }

  /** A request made before a rank enters an agreement decides that agreement. */
  lemma RequestIsHonoured(p: Plan, n: nat, states: seq<State>, i: nat, r: nat, k: nat)
    requires Run(p, n, states) && i < |states| && r < n && |states[i].ranks| == n
    requires states[i].ranks[r].requested && states[i].ranks[r].requestedAt <= k < |states[i].results|
    requires k < |states[i].ranks[r].log| && states[i].ranks[r].log[k].kind.Agree?
    ensures states[i].results[k] && |states[i].results| == k + 1
  {
    RunKeepsInvariant(p, n, states, i);
    var s := states[i];
    assert RankInvariant(p, s.ranks[r], s.results);
    assert s.ranks[r].log[k].stop;
    assert AnyStop(s.ranks, k);
    NothingAfterStop(p, n, states, i, k, r, r);
  }

  /** No agreement says stop unless a stop was requested of some rank before it entered. */
  lemma StopWasRequested(p: Plan, n: nat, states: seq<State>, i: nat, k: nat)
    requires Run(p, n, states) && i < |states| && k < |states[i].results| && states[i].results[k]
    ensures exists r: nat ::
              r < |states[i].ranks| && states[i].ranks[r].requested && states[i].ranks[r].requestedAt <= k
  {
    RunKeepsInvariant(p, n, states, i);
    var s := states[i];
    var r: nat :| r < |s.ranks| && k < |s.ranks[r].log| && s.ranks[r].log[k].stop;
    assert RankInvariant(p, s.ranks[r], s.results);
  }

  lemma {:induction false} NoStopNoVerdict(p: Plan, results: seq<bool>)
    requires forall k :: 0 <= k < |results| ==> !results[k]
    ensures !Expect(p, results).agreed
  {
    if results == [] {
      SettleKeepsVerdict(p, Start(p));
    } else {
      var n := |results| - 1;
      NoStopNoVerdict(p, results[..n]);
      SettleKeepsVerdict(p, Receive(Expect(p, results[..n]), results[n]));
    }
  }

  ghost predicate CanStep(p: Plan, s: State, r: nat) {
    && r < |s.ranks|
    && (if s.ranks[r].waiting then s.ranks[r].delivered < |s.results| else !Local(p, s.ranks[r].control).Halt?)
  }

  ghost predicate AllStopped(s: State) {
    forall r :: 0 <= r < |s.ranks| ==> !s.ranks[r].waiting && s.ranks[r].control.pc == Stopped
  }

  /** A rank that cannot step is at the point that all results lead to. */
  lemma StuckRank(p: Plan, rank: Rank, results: seq<bool>)
    requires RankInvariant(p, rank, results)
    requires if rank.waiting then rank.delivered >= |results| else Local(p, rank.control).Halt?
    ensures |rank.log| == |results| + (if rank.waiting then 1 else 0)
    ensures rank.control == Expect(p, results)
    ensures rank.waiting <==> Local(p, Expect(p, results)).Collective?
    ensures !rank.waiting ==> rank.control.pc == Stopped
  {
    assert results[..|results|] == results;
    SettledStays(p, rank.control);
  }

  lemma StuckMeansStopped(p: Plan, s: State)
    requires Invariant(p, s) && forall r :: 0 <= r < |s.ranks| ==> !CanStep(p, s, r)
    ensures AllStopped(s)
  {
    var r :| 0 <= r < |s.ranks| && |s.ranks[r].log| <= |s.results|;
    assert !CanStep(p, s, r);
    StuckRank(p, s.ranks[r], s.results);
    forall q | 0 <= q < |s.ranks|
      ensures !s.ranks[q].waiting && s.ranks[q].control.pc == Stopped
    {
      assert !CanStep(p, s, q);
      StuckRank(p, s.ranks[q], s.results);
    }
  }

  /** No rank is ever stranded in a collective: either all have stopped, or someone can step. */
  lemma NoRankStranded(p: Plan, n: nat, states: seq<State>, i: nat)
    requires Run(p, n, states) && i < |states|
    ensures AllStopped(states[i]) || exists r: nat :: CanStep(p, states[i], r)
  {
    RunKeepsInvariant(p, n, states, i);
    if forall r :: 0 <= r < |states[i].ranks| ==> !CanStep(p, states[i], r) {
      StuckMeansStopped(p, states[i]);
    }
  }

  /** When all ranks have stopped they have committed exactly the same updates. */
  lemma SameCommits(p: Plan, n: nat, states: seq<State>, i: nat, a: nat, b: nat)
    requires Run(p, n, states) && i < |states| && a < n && b < n && AllStopped(states[i])
    ensures |states[i].ranks| == n && states[i].ranks[a].control == states[i].ranks[b].control
  {
    RunKeepsInvariant(p, n, states, i);
    StuckRank(p, states[i].ranks[a], states[i].results);
    StuckRank(p, states[i].ranks[b], states[i].results);
  }

  /** A run of which no stop was requested ends without one. */
  lemma UnaskedRunsThrough(p: Plan, n: nat, states: seq<State>, i: nat, a: nat)
    requires Run(p, n, states) && i < |states| && a < n && AllStopped(states[i]) && |states[i].ranks| == n
    requires forall r :: 0 <= r < n ==> !states[i].ranks[r].requested
    ensures !states[i].ranks[a].control.agreed
  {
    RunKeepsInvariant(p, n, states, i);
    forall k | 0 <= k < |states[i].results|
      ensures !states[i].results[k]
    {
      if states[i].results[k] { StopWasRequested(p, n, states, i, k); }
    }
    StuckRank(p, states[i].ranks[a], states[i].results);
    NoStopNoVerdict(p, states[i].results);
  }

  // ---------- Every run ends ----------

  /** What the windows of an epoch cost from one of them on: its three steps per update, and one to enter it. */
  function WindowsCost(p: Plan, e: int, w: nat): nat
    decreases p.windows(e) - w
  {
    if w >= p.windows(e) then 0 else 1 + 3 * Max(p.updates(e, w), 1) + WindowsCost(p, e, w + 1)
  }

  function LoopCost(p: Plan, e: int): nat
    decreases p.epochs - e
  {
    if e >= p.epochs then 1 else 4 + WindowsCost(p, e, 0) + LoopCost(p, e + 1)
  }

  /** An upper bound on the silent steps and collectives that still lie before a rank. */
  function Remaining(p: Plan, c: Control): nat {
    var after := LoopCost(p, c.epoch + 1);
    var updates := 3 * Max(p.updates(c.epoch, c.window) - c.update, 1);
    match c.pc
    case LoopTop => LoopCost(p, c.epoch)
    case EpochBegin => 3 + WindowsCost(p, c.epoch, 0) + after
    case WindowTop => 2 + WindowsCost(p, c.epoch, c.window) + after
    case UpdateTop => 2 + updates + WindowsCost(p, c.epoch, c.window + 1) + after
    case Reducing => 1 + updates + WindowsCost(p, c.epoch, c.window + 1) + after
    case Committed => updates + WindowsCost(p, c.epoch, c.window + 1) + after
    case EpochEnd => 1 + after
    case Stopped => 0
  }

  lemma SilentProgress(p: Plan, c: Control)
    requires Local(p, c).Silent?
    ensures Remaining(p, Local(p, c).next) < Remaining(p, c)
  {
  }

  lemma CollectiveProgress(p: Plan, c: Control, stop: bool)
    requires Local(p, c).Collective?
    ensures Remaining(p, Receive(c, stop)) < Remaining(p, c)
  {
  }

  /** A collective takes two steps: entering it and leaving it. */
  function RankRemaining(p: Plan, rank: Rank): int {
    2 * Remaining(p, rank.control) - if rank.waiting then 1 else 0
  }

  function AllRemaining(p: Plan, ranks: seq<Rank>): int {
    if ranks == [] then 0
    else AllRemaining(p, ranks[..|ranks| - 1]) + RankRemaining(p, ranks[|ranks| - 1])
  }

  lemma {:induction false} OneRankMoves(p: Plan, ranks: seq<Rank>, r: nat, rank: Rank)
    requires r < |ranks|
    ensures AllRemaining(p, ranks[r := rank])
         == AllRemaining(p, ranks) - RankRemaining(p, ranks[r]) + RankRemaining(p, rank)
  {
    var n, moved := |ranks| - 1, ranks[r := rank];
    if r == n {
      assert moved[..n] == ranks[..n];
    } else {
      OneRankMoves(p, ranks[..n], r, rank);
      assert moved[..n] == ranks[..n][r := rank];
    }
  }

  lemma {:induction false} NothingNegative(p: Plan, ranks: seq<Rank>)
    requires forall r :: 0 <= r < |ranks| && ranks[r].waiting ==> Local(p, ranks[r].control).Collective?
    ensures AllRemaining(p, ranks) >= 0
  {
    if ranks != [] {
      var n := |ranks| - 1;
      NothingNegative(p, ranks[..n]);
      if ranks[n].waiting { CollectiveProgress(p, ranks[n].control, false); }
    }
  }

  /** A rank moves; a signal alone is no work. */
  ghost predicate Works(p: Plan, s: State, s': State) {
    exists r: nat :: Advance(p, s, s', r) || Enter(p, s, s', r) || Leave(p, s, s', r)
  }

  ghost predicate CanWork(p: Plan, s: State) {
    exists s' :: Works(p, s, s')
  }

  lemma WorkProgress(p: Plan, s: State, s': State)
    requires Invariant(p, s) && Works(p, s, s')
    ensures AllRemaining(p, s'.ranks) < AllRemaining(p, s.ranks)
  {
    var r: nat :| Advance(p, s, s', r) || Enter(p, s, s', r) || Leave(p, s, s', r);
    var rank := s.ranks[r];
    OneRankMoves(p, s.ranks, r, s'.ranks[r]);
    if Advance(p, s, s', r) {
      SilentProgress(p, rank.control);
    } else if Leave(p, s, s', r) {
      assert RankInvariant(p, rank, s.results);
      CollectiveProgress(p, rank.control, s.results[rank.delivered]);
    }
  }

  lemma SignalProgress(p: Plan, s: State, s': State, r: nat)
    requires Signal(s, s', r)
    ensures AllRemaining(p, s'.ranks) == AllRemaining(p, s.ranks)
  {
    OneRankMoves(p, s.ranks, r, s'.ranks[r]);
  }

  /** How many steps of a run are a rank's own. */
  ghost function Worked(p: Plan, states: seq<State>): nat {
    if |states| <= 1 then 0
    else
      var n := |states| - 1;
      Worked(p, states[..n]) + if Works(p, states[n - 1], states[n]) then 1 else 0
  }

  lemma {:induction false} InitialRemaining(p: Plan, n: nat)
    ensures AllRemaining(p, Initial(p, n).ranks) == n * (2 * LoopCost(p, p.start))
  {
    if n > 0 {
      InitialRemaining(p, n - 1);
      assert Initial(p, n).ranks[..n - 1] == Initial(p, n - 1).ranks;
      assert n * (2 * LoopCost(p, p.start)) == (n - 1) * (2 * LoopCost(p, p.start)) + 2 * LoopCost(p, p.start);
    }
  }

  lemma StepProgress(p: Plan, s: State, s': State)
    requires Invariant(p, s) && Next(p, s, s')
    ensures AllRemaining(p, s'.ranks) + (if Works(p, s, s') then 1 else 0) <= AllRemaining(p, s.ranks)
  {
    if Works(p, s, s') {
      WorkProgress(p, s, s');
    } else {
      var r: nat :| Signal(s, s', r) || Advance(p, s, s', r) || Enter(p, s, s', r) || Leave(p, s, s', r);
      SignalProgress(p, s, s', r);
    }
  }

  lemma RunUpto(p: Plan, n: nat, states: seq<State>, k: nat)
    requires Run(p, n, states) && 0 < k < |states|
    ensures Run(p, n, states[..k]) && Next(p, states[k - 1], states[k])
  {
  }

  lemma {:induction false} WorkUsesUp(p: Plan, n: nat, states: seq<State>)
    requires Run(p, n, states)
    ensures Worked(p, states) + AllRemaining(p, states[|states| - 1].ranks) <= n * (2 * LoopCost(p, p.start))
  {
    var k := |states| - 1;
    if k == 0 {
      InitialRemaining(p, n);
    } else {
      RunUpto(p, n, states, k);
      WorkUsesUp(p, n, states[..k]);
      RunKeepsInvariant(p, n, states, k - 1);
      StepProgress(p, states[k - 1], states[k]);
    }
  }

  /** A rank that can step has a step to make. */
  lemma StepExists(p: Plan, s: State, r: nat)
    requires CanStep(p, s, r)
    ensures CanWork(p, s)
  {
    var rank := s.ranks[r];
    if rank.waiting {
      var s' := State(s.ranks[r := Left(p, rank, s.results[rank.delivered])], s.results);
      assert Leave(p, s, s', r) && Works(p, s, s');
    } else if Local(p, rank.control).Silent? {
      var s' := State(s.ranks[r := rank.(control := Local(p, rank.control).next)], s.results);
      assert Advance(p, s, s', r) && Works(p, s, s');
    } else {
      var posted := s.ranks[r := Posted(p, rank)];
      var s' := State(posted, if AllPosted(State(posted, s.results)) then s.results + [AnyStop(posted, |s.results|)]
                              else s.results);
      assert Enter(p, s, s', r) && Works(p, s, s');
    }
  }

  /**
    Every run ends, whatever the signals and the interleaving: its ranks make no more steps than the plan allows
    for, and a run in which no rank has a step left is one that has stopped on all of them.
   */
  lemma EveryRunEnds(p: Plan, n: nat, states: seq<State>)
    requires Run(p, n, states)
    ensures Worked(p, states) <= n * (2 * LoopCost(p, p.start))
    ensures AllStopped(states[|states| - 1]) || CanWork(p, states[|states| - 1])
  {
    var last := states[|states| - 1];
    WorkUsesUp(p, n, states);
    RunKeepsInvariant(p, n, states, |states| - 1);
    forall r | 0 <= r < |last.ranks| && last.ranks[r].waiting
      ensures Local(p, last.ranks[r].control).Collective?
    {
      assert RankInvariant(p, last.ranks[r], last.results);
    }
    NothingNegative(p, last.ranks);
    NoRankStranded(p, n, states, |states| - 1);
    if !AllStopped(last) {
      var r: nat :| CanStep(p, last, r);
      StepExists(p, last, r);
    }
  }

  // ---------- What a run commits ----------

  ghost predicate ValidPlan(p: Plan) {
    forall e: int, w: nat :: w < p.windows(e) ==> p.updates(e, w) > 0
  }

  ghost function UpdatesBefore(e: int, w: nat, u: nat): seq<Commit> {
    if u == 0 then [] else UpdatesBefore(e, w, u - 1) + [Commit(e, w, u - 1)]
  }

  ghost function WindowsBefore(p: Plan, e: int, w: nat): seq<Commit> {
    if w == 0 then [] else WindowsBefore(p, e, w - 1) + UpdatesBefore(e, w - 1, p.updates(e, w - 1))
  }

  ghost function EpochsBefore(p: Plan, e: int): seq<Commit>
    decreases e - p.start
  {
    if e <= p.start then [] else EpochsBefore(p, e - 1) + WindowsBefore(p, e - 1, p.windows(e - 1))
  }

  /** All updates of the windows before window w of epoch e, in program order. */
  ghost function WholeWindows(p: Plan, e: int, w: nat): seq<Commit> {
    EpochsBefore(p, e) + WindowsBefore(p, e, w)
  }

  /** The commits of a rank are exactly those its place in the program calls for. */
  ghost predicate InOrder(p: Plan, c: Control) {
    && c.epoch >= p.start
    && if c.agreed then
         && c.pc in {WindowTop, EpochEnd, LoopTop, Stopped}
         && exists e: int, w: nat :: p.start <= e <= p.epochs && w <= p.windows(e) && c.commits == WholeWindows(p, e, w)
       else
         match c.pc
         case LoopTop => (c.epoch <= p.epochs || c.epoch == p.start) && c.commits == EpochsBefore(p, c.epoch)
         case EpochBegin => c.epoch < p.epochs && c.commits == EpochsBefore(p, c.epoch)
         case WindowTop => c.epoch < p.epochs && c.window <= p.windows(c.epoch)
           && c.commits == WholeWindows(p, c.epoch, c.window)
         case EpochEnd => c.epoch < p.epochs && c.commits == EpochsBefore(p, c.epoch + 1)
         case Stopped => c.commits == EpochsBefore(p, p.epochs)
         case _ =>
           && c.epoch < p.epochs && c.window < p.windows(c.epoch) && c.update < p.updates(c.epoch, c.window)
           && c.commits == WholeWindows(p, c.epoch, c.window)
              + UpdatesBefore(c.epoch, c.window, c.update + (if c.pc == Committed then 1 else 0))
  }

  lemma EmptyWindows(p: Plan, e: int)
    ensures WholeWindows(p, e, 0) == EpochsBefore(p, e)
  {
  }

  lemma LocalKeepsOrder(p: Plan, c: Control)
    requires ValidPlan(p) && InOrder(p, c) && Local(p, c).Silent?
    ensures InOrder(p, Local(p, c).next)
  {
    if !c.agreed {
      EmptyWindows(p, c.epoch);
      if c.pc == WindowTop && c.window < p.windows(c.epoch) {
        assert WholeWindows(p, c.epoch, c.window) + UpdatesBefore(c.epoch, c.window, 0)
          == WholeWindows(p, c.epoch, c.window);
      }
    }
  }

  lemma NextCommit(p: Plan, epoch: int, window: nat, update: nat)
    ensures WholeWindows(p, epoch, window) + UpdatesBefore(epoch, window, update) + [Commit(epoch, window, update)]
         == WholeWindows(p, epoch, window) + UpdatesBefore(epoch, window, update + 1)
  {
  }

  lemma NextWindow(p: Plan, epoch: int, window: nat)
    ensures WholeWindows(p, epoch, window) + UpdatesBefore(epoch, window, p.updates(epoch, window))
        == WholeWindows(p, epoch, window + 1)
  {
  }

  lemma ReceiveKeepsOrder(p: Plan, c: Control, stop: bool)
    requires ValidPlan(p) && InOrder(p, c) && Local(p, c).Collective?
    ensures InOrder(p, Receive(c, stop))
  {
    EmptyWindows(p, c.epoch);
    if c.pc == Committed {
      NextWindow(p, c.epoch, c.window);
      assert Receive(c, stop).commits == WholeWindows(p, c.epoch, c.window + 1);
    } else if c.pc == Reducing {
      NextCommit(p, c.epoch, c.window, c.update);
    } else if c.pc == LoopTop || c.pc == EpochBegin {
      assert c.commits == WholeWindows(p, c.epoch, 0);
    }
  }

  lemma {:induction false} SettleKeepsOrder(p: Plan, c: Control)
    requires ValidPlan(p) && InOrder(p, c)
    ensures InOrder(p, Settle(p, c))
    decreases Weight(c.pc)
  {
    if Local(p, c).Silent? {
      LocalKeepsOrder(p, c);
      SettleKeepsOrder(p, Local(p, c).next);
    }
  }

  lemma {:induction false} ExpectInOrder(p: Plan, results: seq<bool>)
    requires ValidPlan(p)
    requires forall k :: 0 <= k < |results| ==> Local(p, Expect(p, results[..k])).Collective?
    ensures InOrder(p, Expect(p, results))
  {
    if results == [] {
      SettleKeepsOrder(p, Start(p));
    } else {
      var n := |results| - 1;
      forall k | 0 <= k < n
        ensures Local(p, Expect(p, results[..n][..k])).Collective?
      {
        assert results[..n][..k] == results[..k];
      }
      ExpectInOrder(p, results[..n]);
      ReceiveKeepsOrder(p, Expect(p, results[..n]), results[n]);
      SettleKeepsOrder(p, Receive(Expect(p, results[..n]), results[n]));
    }
  }

  lemma StoppedInOrder(p: Plan, rank: Rank, results: seq<bool>)
    requires ValidPlan(p) && RankInvariant(p, rank, results) && !rank.waiting && rank.control.pc == Stopped
    ensures InOrder(p, rank.control)
  {
    StuckRank(p, rank, results);
    forall k | 0 <= k < |results|
      ensures Local(p, Expect(p, results[..k])).Collective?
    {
      PostedAt(p, rank, results, k);
    }
    ExpectInOrder(p, results);
  }

  /**
    When the ranks have stopped, each has committed whole windows only: all windows of the plan, or,
    after an agreed stop, all windows before one point that is the same for every rank.
   */
  lemma StopNeverTearsWindow(p: Plan, n: nat, states: seq<State>, i: nat, r: nat)
    requires ValidPlan(p) && Run(p, n, states) && i < |states| && r < n && AllStopped(states[i])
    ensures |states[i].ranks| == n
    ensures var c := states[i].ranks[r].control;
            if c.agreed then
              exists e: int, w: nat ::
                p.start <= e <= p.epochs && w <= p.windows(e) && c.commits == WholeWindows(p, e, w)
            else c.commits == EpochsBefore(p, p.epochs)
  {
    RunKeepsInvariant(p, n, states, i);
    StoppedInOrder(p, states[i].ranks[r], states[i].results);
  }

  // ---------- Runs over a sampler layout ----------

  function EpochWindows(l: Layout, start: int, offset: nat, e: int): seq<Window>
    requires ValidLayout(l)
  {
    Windows(l, if e == start then offset else 0)
  }

  function UpdateCount(count: nat, passes: int, slice: int): nat {
    match LearnerUpdateSlices(count, passes, slice) case Success(s) => |s| case Failure => 0
  }

  /** The plan of a run over a sampler layout: every rank computes it from the same cursor. */
  function PlanOf(l: Layout, start: int, offset: nat, epochs: int, replay: Replay): Plan
    requires ValidLayout(l)
  {
    Plan(start, epochs,
         (e: int) => |EpochWindows(l, start, offset, e)|,
         (e: int, w: nat) =>
           if w < |EpochWindows(l, start, offset, e)|
           then UpdateCount(EpochWindows(l, start, offset, e)[w].count, replay.Passes(), replay.Slice()) else 0)
  }

  lemma PlanIsValid(l: Layout, start: int, offset: nat, epochs: int, replay: Replay)
    requires ValidLayout(l) && replay.updateEpochs > 0
    ensures ValidPlan(PlanOf(l, start, offset, epochs, replay))
  {
    var p := PlanOf(l, start, offset, epochs, replay);
    forall e: int, w: nat | w < p.windows(e)
      ensures p.updates(e, w) > 0
    {
      WindowsAreValid(l, if e == start then offset else 0, w);
      ReplayVisitsEachOnce(EpochWindows(l, start, offset, e)[w].count, replay.Passes(), replay.Slice());
    }
  }

  lemma {:induction false} UpdatesBeforeCount(e: int, w: nat, u: nat)
    ensures |UpdatesBefore(e, w, u)| == u
  {
    if u > 0 { UpdatesBeforeCount(e, w, u - 1); }
  }

  lemma {:induction false} CommitCountAppend(windows: seq<Window>, w: Window, passes: int, slice: int)
    ensures CommitCount(windows + [w], passes, slice)
        == CommitCount(windows, passes, slice) + UpdateCount(w.count, passes, slice)
  {
    if windows == [] {
      assert [w][1..] == [];
    } else {
      CommitCountAppend(windows[1..], w, passes, slice);
      assert (windows + [w])[1..] == windows[1..] + [w];
    }
  }

  lemma {:induction false} WindowsBeforeCount(p: Plan, e: int, windows: seq<Window>, w: nat, passes: int, slice: int)
    requires w <= |windows| && forall k: nat :: k < |windows| ==>
        p.updates(e, k) == UpdateCount(windows[k].count, passes, slice)
    ensures |WindowsBefore(p, e, w)| == CommitCount(windows[..w], passes, slice)
  {
    if w > 0 {
      WindowsBeforeCount(p, e, windows, w - 1, passes, slice);
      UpdatesBeforeCount(e, w - 1, p.updates(e, w - 1));
      CommitCountAppend(windows[..w - 1], windows[w - 1], passes, slice);
      assert windows[..w] == windows[..w - 1] + [windows[w - 1]];
    }
  }

  /** What scheduling computes for one epoch of the run. */
  function StepsOf(l: Layout, start: int, offset: nat, e: int, replay: Replay): int
    requires ValidLayout(l)
  {
    EpochSteps(l, if e == start then offset else 0, replay)
  }

  /** The commits an epoch contributes to a run are the ones scheduling counts for it, online and offline. */
  lemma EpochCommitsMatchSteps(l: Layout, start: int, offset: nat, epochs: int, e: int, replay: Replay)
    requires ValidLayout(l) && offset <= l.numSamples && replay.updateEpochs > 0
    ensures var p := PlanOf(l, start, offset, epochs, replay);
            |WindowsBefore(p, e, p.windows(e))| == StepsOf(l, start, offset, e, replay)
  {
    var p := PlanOf(l, start, offset, epochs, replay);
    var windows := EpochWindows(l, start, offset, e);
    WindowsBeforeCount(p, e, windows, |windows|, replay.Passes(), replay.Slice());
    assert windows[..|windows|] == windows;
    CommitsMatchSteps(l, if e == start then offset else 0, replay.online, replay.updateEpochs, replay.minibatch);
  }

  /** What scheduling computes for the epochs of a run before epoch `e`. */
  function StepsBefore(l: Layout, start: int, offset: nat, e: int, replay: Replay): int
    requires ValidLayout(l)
    decreases e - start
  {
    if e <= start then 0 else StepsBefore(l, start, offset, e - 1, replay) + StepsOf(l, start, offset, e - 1, replay)
  }

  lemma {:induction false} EpochsBeforeCount(l: Layout, start: int, offset: nat, epochs: int, e: int, replay: Replay)
    requires ValidLayout(l) && offset <= l.numSamples && replay.updateEpochs > 0
    ensures |EpochsBefore(PlanOf(l, start, offset, epochs, replay), e)| == StepsBefore(l, start, offset, e, replay)
    decreases e - start
  {
    if e > start {
      EpochsBeforeCount(l, start, offset, epochs, e - 1, replay);
      EpochCommitsMatchSteps(l, start, offset, epochs, e - 1, replay);
    }
  }

  /**
    Every run of the trainer over a layout, under any signals and any interleaving: when the ranks have stopped,
    each has made the commits of whole windows only, up to one common point; with no stop agreed they number
    exactly what scheduling was told.
   */
  lemma TrainingStopsWhole(l: Layout, start: int, offset: nat, epochs: int, replay: Replay, n: nat, states: seq<State>,
        i: nat, a: nat, b: nat)
    requires ValidLayout(l) && offset <= l.numSamples && replay.updateEpochs > 0
    requires Run(PlanOf(l, start, offset, epochs, replay), n, states) && i < |states| && AllStopped(states[i])
    requires a < n && b < n
    ensures |states[i].ranks| == n && states[i].ranks[a].control == states[i].ranks[b].control
    ensures var p, c := PlanOf(l, start, offset, epochs, replay), states[i].ranks[a].control;
            if c.agreed then
              exists e: int, w: nat ::
                start <= e <= epochs && w <= |EpochWindows(l, start, offset, e)| && c.commits == WholeWindows(p, e, w)
            else
              c.commits == EpochsBefore(p, epochs) && |c.commits| == StepsBefore(l, start, offset, epochs, replay)
  {
    PlanIsValid(l, start, offset, epochs, replay);
    var p := PlanOf(l, start, offset, epochs, replay);
    SameCommits(p, n, states, i, a, b);
    StopNeverTearsWindow(p, n, states, i, a);
    EpochsBeforeCount(l, start, offset, epochs, epochs, replay);
  }
}
