/**
  What can be told of a training run before it starts: the calls it makes, the positions it trains on,
  the steps its observer saves at, and whether it can leave a checkpoint that disagrees with its epoch.
  Exceptions and agreed stops come from an arbitrary environment.
 */
module Runs {
  import opened Sequences
  import opened Arithmetic
  import opened StepPlan
  import opened Sampler

  // ---------- The environment ----------

  /** Where a commit can raise, in program order. */
  datatype Phase = BeforeStep | PolicyStep | AfterUpdate | ZeroGrad | Schedule | MetricCommit

  /**
    What the environment decides: which calls into other code raise (in which phase, when the call is a
    commit; whether a checkpoint due in it had been renamed into place before, when it is one to the
    observers), and which agreements say stop. Calls and agreements are numbered in the order made.
   */
  datatype Environment = Environment(raises: nat -> bool, phase: nat -> Phase, renamed: nat -> bool,
                                     stops: nat -> bool)

  /** A checkpoint saved in this call reaches the disk. */
  predicate Lands(env: Environment, call: nat) {
    !env.raises(call) || env.renamed(call)
  }

  /** None of the calls `from` up to `to` raises. */
  ghost predicate Quiet(env: Environment, from: nat, to: nat) {
    forall c: nat | from <= c < to :: !env.raises(c)
  }

  /** Call number `at` is the first one, counting from `from`, that raises. */
  ghost predicate FirstRaise(env: Environment, from: nat, at: int) {
    from <= at && Quiet(env, from, at) && env.raises(at)
  }

  /** The calls `from` up to `to` were made: none raised, or only the last one did. */
  ghost predicate Called(env: Environment, from: nat, to: nat, ok: bool) {
    if ok then from <= to && Quiet(env, from, to) else FirstRaise(env, from, to - 1)
  }

  /**
    The agreements `from` up to `to` were made: none once a stop stands, and `after` says whether the last one
    made it stand.
   */
  ghost predicate Agreed(env: Environment, before: bool, from: nat, after: bool, to: nat) {
    if before then after && to == from
    else
      && from <= to && (forall a: nat | from <= a && a + 1 < to :: !env.stops(a))
      && (after <==> from < to && env.stops(to - 1))
  }

  /** Agreement number `at` is the first one, counting from `from`, that says stop. */
  ghost predicate FirstStop(env: Environment, from: nat, at: int) {
    from <= at && env.stops(at) && forall a: nat | from <= a < at :: !env.stops(a)
  }

  /** How many calls and agreements were made, and whether a stop stands. */
  datatype Moment = Moment(clock: nat, stopped: bool, agreements: nat)

  /** From one moment to the next, all answers were the environment's; `ok` says that no call raised. */
  ghost predicate Ran(env: Environment, from: Moment, to: Moment, ok: bool) {
    && Called(env, from.clock, to.clock, ok)
    && Agreed(env, from.stopped, from.agreements, to.stopped, to.agreements)
  }

  lemma RanChain(env: Environment, from: Moment, at: Moment, to: Moment, ok: bool)
    requires Ran(env, from, at, true) && Ran(env, at, to, ok)
    ensures Ran(env, from, to, ok)
  {
  }

  // ---------- Checkpoints ----------

  /** Checkpoints go to `epoch_{epoch}_step_{step}`. */
  datatype Directory = Directory(epoch: int, step: int)

  /** The cursor that a checkpoint stores. */
  datatype Snapshot = Snapshot(epoch: int, step: int, consumed: int, offset: int) {
    function Where(): Directory {
      Directory(epoch, step)
    }
  }

  type Checkpoints = map<Directory, Snapshot>

  function EpochStart(epoch: int, n: nat): int {
    epoch * n
  }

  lemma EpochEnd(epoch: int, n: nat)
    ensures EpochStart(epoch + 1, n) == EpochStart(epoch, n) + n
  {
    MulStep(epoch, n);
  }

  /** The samples counted are the whole epochs before and the offset, which is a committed boundary. */
  ghost predicate Agrees(l: Layout, s: Snapshot)
    requires ValidLayout(l)
  {
    s.offset >= 0 && Boundary(l, s.offset) && s.consumed == EpochStart(s.epoch, l.numSamples) + s.offset
  }

  /** The cursor counts all of its epoch but names it as the one to train, from the start. */
  ghost predicate Overcounts(l: Layout, s: Snapshot) {
    s.offset == 0 && s.consumed == EpochStart(s.epoch + 1, l.numSamples)
  }

  lemma OvercountedDisagrees(l: Layout, s: Snapshot)
    requires ValidLayout(l) && Overcounts(l, s)
    ensures !Agrees(l, s)
  {
    EpochEnd(s.epoch, l.numSamples);
  }

  // ---------- Windows and epochs ----------

  lemma ZeroIsBoundary(l: Layout)
    requires ValidLayout(l)
    ensures Boundary(l, 0)
  {
    DivBelow(0, GlobalBatch(l));
  }

  lemma WindowEndIsBoundary(l: Layout, w: Window)
    requires ValidLayout(l) && ValidWindow(l, w) && Boundary(l, w.start)
    ensures Boundary(l, w.start + w.count)
  {
    if w.count == GlobalBatch(l) {
      DivStep(w.start, GlobalBatch(l));
    }
  }

  lemma HeadWindow(n: nat, g: int, c: int, policy: TailPolicy, offset: nat)
    requires g > 0 && c > 0 && offset <= n && WindowsFrom(n, g, c, policy, offset) != []
    ensures var w := WindowsFrom(n, g, c, policy, offset)[0];
            && w.start == offset && w.start + w.count <= n
            && WindowsFrom(n, g, c, policy, w.start + w.count) == WindowsFrom(n, g, c, policy, offset)[1..]
            && EndFrom(n, g, policy, w.start + w.count) == EndFrom(n, g, policy, offset)
  {
    if offset + g <= n {
      EndStep(n, g, policy, offset);
    } else {
      WindowsUnroll(n, g, c, policy, offset);
    }
  }

  /** The head of the window list starts at the offset, and the rest is the list from its end. */
  lemma WindowsAdvance(l: Layout, offset: nat)
    requires ValidLayout(l) && Windows(l, offset) != [] && offset <= l.numSamples
    ensures var w := Windows(l, offset)[0];
            && ValidWindow(l, w) && w.start == offset
            && Windows(l, w.start + w.count) == Windows(l, offset)[1..]
            && EndOf(l, w.start + w.count) == EndOf(l, offset)
  {
    WindowsAreValid(l, offset, 0);
    HeadWindow(l.numSamples, GlobalBatch(l), Capacity(l), l.tailPolicy, offset);
  }

  lemma NoWindowsLeft(l: Layout, offset: nat)
    requires ValidLayout(l) && Windows(l, offset) == [] && offset <= l.numSamples
    ensures EndOf(l, offset) == offset
  {
    DivBelow(l.numSamples - offset, GlobalBatch(l));
  }

  /** An epoch from this offset ends before its dataset does: what a caller can tell from the layout. */
  ghost predicate DropsTail(l: Layout, offset: nat)
    requires ValidLayout(l)
  {
    l.tailPolicy == Drop && offset < l.numSamples && l.numSamples % GlobalBatch(l) != 0
  }

  lemma TailLeft(l: Layout, offset: nat)
    requires ValidLayout(l) && Boundary(l, offset)
    ensures EndOf(l, offset) < l.numSamples <==> DropsTail(l, offset)
  {
    var n, g := l.numSamples, GlobalBatch(l);
    if offset < n {
      DivUnique(n - offset, g, n / g - offset / g, n % g) by {
        assert n == n / g * g + n % g && offset == offset / g * g;
        MulMinus(n / g, offset / g, g);
      }
      assert n - offset == (n - offset) / g * g + (n - offset) % g;
    } else {
      DivBelow(0, g);
    }
  }

  // ---------- Counting commits and calls ----------

  lemma CommitCountSplit(windows: seq<Window>, r: Replay)
    requires windows != []
    ensures CommitCount(windows, r.Passes(), r.Slice())
        == CommitCount([windows[0]], r.Passes(), r.Slice()) + CommitCount(windows[1..], r.Passes(), r.Slice())
  {
    assert [windows[0]][1..] == [];
  }

  lemma {:induction false} CommitCountUpto(windows: seq<Window>, i: nat, r: Replay)
    requires i <= |windows|
    ensures CommitCount(windows, r.Passes(), r.Slice())
        == CommitCount(windows[..i], r.Passes(), r.Slice()) + CommitCount(windows[i..], r.Passes(), r.Slice())
  {
    if i == 0 {
      assert windows[0..] == windows;
    } else {
      CommitCountUpto(windows[1..], i - 1, r);
      assert windows[1..][..i - 1] == windows[..i][1..] && windows[1..][i - 1..] == windows[i..];
    }
  }

  /** Calls made by windows that raise nothing: two each, and three for every update. */
  function Calls(windows: seq<Window>, r: Replay): nat {
    2 * |windows| + 3 * CommitCount(windows, r.Passes(), r.Slice())
  }

  /** Calls made by an epoch that raises nothing; the last of them is its end. */
  function EpochCalls(l: Layout, offset: nat, r: Replay): nat
    requires ValidLayout(l)
  {
    2 + Calls(Windows(l, offset), r)
  }

  /**
    Where the cursor stands when agreement number `k` of an epoch is made: before the epoch, at its begin, and then
    after each of its windows.
   */
  function StandsAt(l: Layout, offset: nat, k: nat): nat
    requires ValidLayout(l) && k < 2 + |Windows(l, offset)|
  {
    if k < 2 then offset else Windows(l, offset)[k - 2].start + Windows(l, offset)[k - 2].count
  }

  /** The commits of an epoch up to its agreement number `k`. */
  function CommitsAt(l: Layout, offset: nat, k: nat, r: Replay): nat
    requires ValidLayout(l) && k < 2 + |Windows(l, offset)|
  {
    CommitCount(Windows(l, offset)[..if k < 2 then 0 else k - 1], r.Passes(), r.Slice())
  }

  /** Where an epoch of the run starts: the first one at the resumed offset, the others at zero. */
  function Resumed(offset: nat, done: nat): nat {
    if done == 0 then offset else 0
  }

  /** Calls made by the first `n` epochs of a run, which raise nothing. */
  function RunCalls(l: Layout, offset: nat, n: nat, r: Replay): nat
    requires ValidLayout(l)
  {
    if n == 0 then 0
    else RunCalls(l, offset, n - 1, r) + EpochCalls(l, Resumed(offset, n - 1), r)
  }

  /** Agreements made in the first `n` epochs of a run that never says stop: two for each, and one for every window. */
  function RunAgreements(l: Layout, offset: nat, n: nat): nat
    requires ValidLayout(l)
  {
    if n == 0 then 0 else RunAgreements(l, offset, n - 1) + 2 + |Windows(l, Resumed(offset, n - 1))|
  }

  lemma {:induction false} RunAgreementsGrow(l: Layout, offset: nat, m: nat, n: nat)
    requires ValidLayout(l) && m < n
    ensures RunAgreements(l, offset, m) + 2 <= RunAgreements(l, offset, n)
    decreases n
  {
    if m < n - 1 { RunAgreementsGrow(l, offset, m, n - 1); }
  }

  lemma {:induction false} RunCallsGrow(l: Layout, offset: nat, m: nat, n: nat, r: Replay)
    requires ValidLayout(l) && m < n
    ensures RunCalls(l, offset, m, r) + 2 <= RunCalls(l, offset, n, r)
    decreases n
  {
    if m < n - 1 { RunCallsGrow(l, offset, m, n - 1, r); }
  }

  /** One window ahead: the rest of the epoch starts where it ends. */
  lemma NextWindow(l: Layout, windows: seq<Window>, i: nat, offset: nat, r: Replay)
    requires ValidLayout(l) && offset <= l.numSamples && i < |windows| && Windows(l, offset) == windows[i..]
    ensures var w := windows[i];
            && ValidWindow(l, w) && w.start == offset
            && Windows(l, w.start + w.count) == windows[i + 1..]
            && EndOf(l, w.start + w.count) == EndOf(l, offset)
    ensures CommitCount(windows[i..], r.Passes(), r.Slice())
            == CommitCount([windows[i]], r.Passes(), r.Slice()) + CommitCount(windows[i + 1..], r.Passes(), r.Slice())
    ensures Calls(windows[i..], r)
        == Calls([windows[i]], r) + Calls(windows[i + 1..], r)
  {
    WindowsAdvance(l, offset);
    assert windows[i..][0] == windows[i] && windows[i..][1..] == windows[i + 1..];
    CommitCountSplit(windows[i..], r);
  }

  /** What scheduling computes for the first `n` epochs of a run. */
  function ScheduledSteps(l: Layout, offset: nat, n: nat, r: Replay): int
    requires ValidLayout(l)
  {
    if n == 0 then 0 else ScheduledSteps(l, offset, n - 1, r) + EpochSteps(l, Resumed(offset, n - 1), r)
  }

  // ---------- When the observer saves ----------

  /** The step of the last save, or the one the run began with, and the epoch of that save if there was one. */
  datatype Saving = Saving(step: int, epoch: Option<int>)

  /** At the end of a window the observer saves if `interval` steps have passed since the last save. */
  function Observed(saving: Saving, interval: int, epoch: int, step: int): Saving {
    if step - saving.step >= interval then Saving(step, Some(epoch)) else saving
  }

  /** After these windows of an epoch; nothing is saved between the updates of one. */
  function SavingAfter(windows: seq<Window>, epoch: int, step: int, saving: Saving, interval: int, r: Replay): Saving {
    if windows == [] then saving
    else
      var next := step + CommitCount([windows[0]], r.Passes(), r.Slice());
      SavingAfter(windows[1..], epoch, next, Observed(saving, interval, epoch, next), interval, r)
  }

  // ---------- What a run trains on ----------

  lemma TrainedOn(before: seq<int>, epochStart: int, from: int, at: int, to: int)
    requires from <= at <= to
    ensures before + Interval(epochStart + from, epochStart + at) + Interval(epochStart + at, epochStart + to)
         == before + Interval(epochStart + from, epochStart + to)
  {
    IntervalConcat(epochStart + from, epochStart + at, epochStart + to);
  }

  /** The cursor, the commits, the last save, the calls, the agreements and the positions trained on. */
  datatype Reached = Reached(offset: nat, steps: int, saving: Saving, clock: nat, agreements: nat, trained: seq<int>)

  /** The first `i` windows of an epoch lie between two points of the run. */
  ghost predicate WindowsDone(l: Layout, epoch: int, windows: seq<Window>, i: nat, from: Reached, to: Reached,
        interval: int, r: Replay)
    requires ValidLayout(l)
  {
    && i <= |windows| && from.offset <= to.offset <= l.numSamples
    && to.offset == (if i == 0 then from.offset else windows[i - 1].start + windows[i - 1].count)
    && to.agreements == from.agreements + i
    && Windows(l, to.offset) == windows[i..] && EndOf(l, to.offset) == EndOf(l, from.offset)
    && to.trained == from.trained + Interval(EpochStart(epoch, l.numSamples) + from.offset,
                                             EpochStart(epoch, l.numSamples) + to.offset)
    && to.steps + CommitCount(windows[i..], r.Passes(), r.Slice())
       == from.steps + CommitCount(windows, r.Passes(), r.Slice())
    && to.clock + Calls(windows[i..], r) == from.clock + Calls(windows, r)
    && SavingAfter(windows[i..], epoch, to.steps, to.saving, interval, r)
       == SavingAfter(windows, epoch, from.steps, from.saving, interval, r)
  }

  lemma NoneDone(l: Layout, epoch: int, windows: seq<Window>, from: Reached, interval: int, r: Replay)
    requires ValidLayout(l) && from.offset <= l.numSamples && windows == Windows(l, from.offset)
    ensures WindowsDone(l, epoch, windows, 0, from, from, interval, r)
  {
    assert windows[0..] == windows;
  }

  lemma OneMoreDone(l: Layout, epoch: int, windows: seq<Window>, i: nat, from: Reached, at: Reached, to: Reached,
        interval: int, r: Replay)
    requires ValidLayout(l) && WindowsDone(l, epoch, windows, i, from, at, interval, r) && i < |windows|
    requires to.offset == windows[i].start + windows[i].count
    requires to.steps == at.steps + CommitCount([windows[i]], r.Passes(), r.Slice())
    requires to.clock == at.clock + Calls([windows[i]], r) && to.agreements == at.agreements + 1
    requires to.saving == Observed(at.saving, interval, epoch, to.steps)
    requires to.trained == at.trained + Interval(EpochStart(epoch, l.numSamples) + windows[i].start,
                                                 EpochStart(epoch, l.numSamples) + to.offset)
    ensures WindowsDone(l, epoch, windows, i + 1, from, to, interval, r)
  {
    NextWindow(l, windows, i, at.offset, r);
    assert windows[i..][0] == windows[i] && windows[i..][1..] == windows[i + 1..];
    TrainedOn(from.trained, EpochStart(epoch, l.numSamples), from.offset, at.offset, to.offset);
  }

  /** The windows from the cursor on, up to the last or to an agreed stop: one agreement after each. */
  ghost predicate WindowsRan(l: Layout, epoch: int, from: Reached, at: Reached, stop: bool, interval: int, r: Replay)
    requires ValidLayout(l)
  {
    var windows := Windows(l, from.offset);
    var i := at.agreements - from.agreements;
    && 0 <= i <= |windows| && (stop || i == |windows|) && at.offset == StandsAt(l, from.offset, i + 1)
    && from.offset <= at.offset <= l.numSamples
    && at.trained == from.trained + Interval(EpochStart(epoch, l.numSamples) + from.offset,
                                             EpochStart(epoch, l.numSamples) + at.offset)
    && at.steps == from.steps + CommitsAt(l, from.offset, i + 1, r)
    && (!stop ==>
          && at.offset == EndOf(l, from.offset)
          && at.steps == from.steps + CommitCount(windows, r.Passes(), r.Slice())
          && at.clock == from.clock + Calls(windows, r)
          && at.saving == SavingAfter(windows, epoch, from.steps, from.saving, interval, r))
  }

  lemma {:induction false} SomeDone(l: Layout, epoch: int, windows: seq<Window>, i: nat, from: Reached, to: Reached,
        stop: bool, interval: int, r: Replay)
    requires ValidLayout(l) && windows == Windows(l, from.offset) && (stop || i == |windows|)
    requires WindowsDone(l, epoch, windows, i, from, to, interval, r)
    ensures WindowsRan(l, epoch, from, to, stop, interval, r)
  {
    CommitCountUpto(windows, i, r);
    if i == |windows| {
      assert windows[|windows|..] == [] && windows[..|windows|] == windows;
      NoWindowsLeft(l, to.offset);
    }
  }

  /** The global positions that the first `n` epochs of a run train on, in order. */
  ghost function Planned(l: Layout, first: int, offset: nat, n: nat): seq<int>
    requires ValidLayout(l) && offset <= l.numSamples
  {
    if n == 0 then []
    else
      Planned(l, first, offset, n - 1)
      + Interval(EpochStart(first + n - 1, l.numSamples) + Resumed(offset, n - 1),
                 EpochStart(first + n - 1, l.numSamples) + EndOf(l, Resumed(offset, n - 1)))
  }

  /** Positions trained on before, then `n` whole epochs, then the next one up to `to`. */
  ghost function TrainedUpto(l: Layout, before: seq<int>, first: int, offset: nat, n: nat, to: nat): seq<int>
    requires ValidLayout(l) && offset <= l.numSamples
  {
    before + Planned(l, first, offset, n)
    + Interval(EpochStart(first + n, l.numSamples) + Resumed(offset, n), EpochStart(first + n, l.numSamples) + to)
  }

  lemma NothingYet(l: Layout, before: seq<int>, first: int, offset: nat)
    requires ValidLayout(l) && offset <= l.numSamples
    ensures TrainedUpto(l, before, first, offset, 0, offset) == before
  {
  }

  lemma StartEpoch(l: Layout, before: seq<int>, first: int, offset: nat, n: nat)
    requires ValidLayout(l) && offset <= l.numSamples
    ensures TrainedUpto(l, before, first, offset, n, Resumed(offset, n)) == before + Planned(l, first, offset, n)
  {
  }

  lemma InEpoch(l: Layout, before: seq<int>, first: int, offset: nat, n: nat, e: int, from: nat, to: nat,
        trained: seq<int>, trained': seq<int>)
    requires ValidLayout(l) && offset <= l.numSamples && e == first + n && from == Resumed(offset, n)
    requires trained == before + Planned(l, first, offset, n)
    requires trained' == trained + Interval(EpochStart(e, l.numSamples) + from, EpochStart(e, l.numSamples) + to)
    ensures trained' == TrainedUpto(l, before, first, offset, n, to)
  {
  }

  lemma NextEpoch(l: Layout, before: seq<int>, first: int, offset: nat, n: nat)
    requires ValidLayout(l) && offset <= l.numSamples
    ensures TrainedUpto(l, before, first, offset, n, EndOf(l, Resumed(offset, n)))
        == TrainedUpto(l, before, first, offset, n + 1, 0)
  {
    StartEpoch(l, before, first, offset, n + 1);
  }

  // ---------- One epoch ----------

  /** How a run, or an epoch of it, came back. */
  datatype Ending = Finished | RaisedInside | RaisedAtEpochEnd

  /**
    This many agreements were made in an epoch from its begin on, the last one with the cursor at `to`; and all of
    them, unless one said stop.
   */
  ghost predicate AgreedInside(l: Layout, offset: nat, stop: bool, made: int, to: nat)
    requires ValidLayout(l)
  {
    && 0 < made <= 1 + |Windows(l, offset)| && to == StandsAt(l, offset, made)
    && (stop || made == 1 + |Windows(l, offset)|)
  }

  /** The same up to the end of its windows. */
  ghost predicate WindowsMade(l: Layout, r: Replay, interval: int, epoch: int, offset: nat, from: Reached,
        stopped: bool, at: Reached, stop: bool, ok: bool)
    requires ValidLayout(l)
  {
    && from.clock < at.clock < from.clock + EpochCalls(l, offset, r) && (!ok ==> stop == stopped)
    && (ok && !stopped ==>
          && AgreedInside(l, offset, stop, at.agreements - from.agreements, at.offset)
          && at.steps == from.steps + CommitsAt(l, offset, at.agreements - from.agreements, r))
    && (ok ==>
          && offset <= at.offset <= l.numSamples
          && at.trained == from.trained + Interval(EpochStart(epoch, l.numSamples) + offset,
                                                   EpochStart(epoch, l.numSamples) + at.offset))
    && (ok && !stop ==>
          && at.clock == from.clock + EpochCalls(l, offset, r) - 1 && at.offset == EndOf(l, offset)
          && at.steps == from.steps + EpochSteps(l, offset, r)
          && at.saving == SavingAfter(Windows(l, offset), epoch, from.steps, from.saving, interval, r))
  }

  /** What an epoch from this offset makes of the run: its calls, its agreements, its commits, its positions. */
  ghost predicate EpochMade(l: Layout, r: Replay, interval: int, epoch: int, offset: nat, from: Reached, stopped: bool,
        at: Reached, stop: bool, ending: Ending, to: nat)
    requires ValidLayout(l)
  {
    && from.clock < at.clock && (ending == RaisedInside ==> at.clock < from.clock + EpochCalls(l, offset, r))
    && (ending == RaisedInside ==> stop == stopped)
    && (ending != RaisedInside && !stopped ==>
          && AgreedInside(l, offset, stop, at.agreements - from.agreements, to)
          && at.steps == from.steps + CommitsAt(l, offset, at.agreements - from.agreements, r))
    && (ending != RaisedInside && !stop ==>
          && at.clock == from.clock + EpochCalls(l, offset, r) && at.steps == from.steps + EpochSteps(l, offset, r)
          && at.saving == SavingAfter(Windows(l, offset), epoch, from.steps, from.saving, interval, r))
    && (ending == Finished ==>
          && offset <= to <= l.numSamples && (!stop ==> to == EndOf(l, offset))
          && at.trained == from.trained + Interval(EpochStart(epoch, l.numSamples) + offset,
                                                   EpochStart(epoch, l.numSamples) + to))
  }

  /** The begin of an epoch adds one call and one agreement to what its windows make. */
  lemma EpochOpened(l: Layout, r: Replay, interval: int, epoch: int, offset: nat, from: Reached, stopped: bool,
        begin: Reached, at: Reached, stop: bool)
    requires ValidLayout(l) && offset <= l.numSamples && r.updateEpochs > 0
    requires begin == from.(offset := offset, clock := from.clock + 1,
                            agreements := from.agreements + if stopped then 0 else 1)
    requires WindowsRan(l, epoch, begin, at, stop, interval, r)
    requires begin.clock <= at.clock <= begin.clock + Calls(Windows(l, offset), r)
    ensures WindowsMade(l, r, interval, epoch, offset, from, stopped, at, stop, true)
  {
    CommitsMatchSteps(l, offset, r.online, r.updateEpochs, r.minibatch);
  }

  /** The end of an epoch adds one call to what its windows made. */
  lemma EpochClosed(l: Layout, r: Replay, interval: int, epoch: int, offset: nat, from: Reached, stopped: bool,
        mid: Reached, at: Reached, stop: bool, ending: Ending)
    requires ValidLayout(l) && offset <= l.numSamples && ending != RaisedInside
    requires WindowsMade(l, r, interval, epoch, offset, from, stopped, mid, stop, true)
    requires at == mid.(offset := at.offset, clock := mid.clock + 1)
    ensures EpochMade(l, r, interval, epoch, offset, from, stopped, at, stop, ending, mid.offset)
  {
  }

  /** An epoch whose windows raise ends there. */
  lemma EpochBroken(l: Layout, r: Replay, interval: int, epoch: int, offset: nat, from: Reached, stopped: bool,
        at: Reached, stop: bool, to: nat)
    requires ValidLayout(l) && WindowsMade(l, r, interval, epoch, offset, from, stopped, at, stop, false)
    ensures EpochMade(l, r, interval, epoch, offset, from, stopped, at, stop, RaisedInside, to)
  {
  }

  // ---------- When a cursor is lost ----------

  /** What a run starts from: its configuration, its cursor, and the checkpoints it finds in its directory. */
  datatype Run = Run(layout: Layout, replay: Replay, interval: int, env: Environment, found: Checkpoints, epoch: int,
                     offset: nat, step: int, saving: Saving, clock: nat, stopped: bool, agreements: nat)
  {
    ghost predicate Valid() {
      ValidLayout(layout) && replay.updateEpochs > 0 && offset <= layout.numSamples
    }

    function Begin(): Moment {
      Moment(clock, stopped, agreements)
    }

    /** The number of the call that follows `n` epochs which raise nothing. */
    function CallAfter(n: nat): nat
      requires ValidLayout(layout)
    {
      clock + RunCalls(layout, offset, n, replay)
    }

    /** The number of the agreement that follows `n` epochs in which none says stop. */
    function AgreementAfter(n: nat): nat
      requires ValidLayout(layout)
    {
      agreements + RunAgreements(layout, offset, n)
    }

    /** No stop stands at the start, and none is agreed in the first `n` epochs. */
    ghost predicate Unstopped(n: nat)
      requires ValidLayout(layout)
    {
      !stopped && forall a: nat | agreements <= a < AgreementAfter(n) :: !env.stops(a)
    }

    /** Agreement number `a` is made in epoch number `d` of the run, with the cursor at `to`. */
    ghost predicate AgreesAt(a: int, d: nat, to: nat)
      requires ValidLayout(layout)
    {
      && AgreementAfter(d) <= a < AgreementAfter(d + 1)
      && to == StandsAt(layout, Resumed(offset, d), a - AgreementAfter(d))
    }

    /** The commits made when agreement number `a`, one of epoch number `d`, is made. */
    ghost predicate StepsAt(a: int, d: nat, steps: int)
      requires ValidLayout(layout)
    {
      && AgreementAfter(d) <= a < AgreementAfter(d + 1)
      && steps == StepAfter(d) + CommitsAt(layout, Resumed(offset, d), a - AgreementAfter(d), replay)
    }

    /** The agreements up to number `agreed` end in epoch number `d`, with all of its own unless one said stop. */
    ghost predicate AgreedThrough(stop: bool, agreed: nat, d: nat, to: nat)
      requires ValidLayout(layout)
    {
      AgreesAt(agreed - 1, d, to) && (stop || agreed == AgreementAfter(d + 1))
    }

    /** Where the answers to its agreements let the run end: after `epochs` epochs, or at the first that says stop. */
    ghost predicate EndsWhereAgreed(epochs: nat, stop: bool, agreed: nat, done: nat, to: nat)
      requires ValidLayout(layout)
    {
      if stopped then stop && agreed == agreements && done == 0 && to == offset
      else if Unstopped(epochs) then
        !stop && agreed == AgreementAfter(epochs) && done == epochs && to == Resumed(offset, epochs)
      else stop && done < epochs && FirstStop(env, agreements, agreed - 1) && AgreesAt(agreed - 1, done, to)
    }

    function StepAfter(n: nat): int
      requires ValidLayout(layout)
    {
      step + ScheduledSteps(layout, offset, n, replay)
    }

    function SavingAt(n: nat): Saving
      requires ValidLayout(layout)
    {
      if n == 0 then saving
      else
        SavingAfter(Windows(layout, Resumed(offset, n - 1)), epoch + n - 1, StepAfter(n - 1), SavingAt(n - 1), interval,
                    replay)
    }

    /** At the end of epoch `d`, there is a checkpoint of that epoch and step: found, or saved at its last window. */
    ghost predicate Taken(d: nat)
      requires ValidLayout(layout)
    {
      Directory(epoch + d, StepAfter(d + 1)) in found || SavingAt(d + 1) == Saving(StepAfter(d + 1), Some(epoch + d))
    }

    /** Epoch `d` leaves a tail to drop, and nothing stands at the checkpoint it would leave. */
    ghost predicate Exposed(d: nat)
      requires ValidLayout(layout)
    {
      DropsTail(layout, Resumed(offset, d)) && !Taken(d)
    }

    /** What can be told before the run: no stop stands, and some epoch of the `epochs` asked for is exposed. */
    ghost predicate MayLose(epochs: nat)
      requires ValidLayout(layout)
    {
      !stopped && exists d: nat | d < epochs :: Exposed(d)
    }

    /**
      Epoch `d` is exposed and reached without a stop, the first call to raise is its `on_epoch_end`, and one of the
      two saves of the shutdown reaches the disk.
     */
    ghost predicate LostAt(d: nat)
      requires ValidLayout(layout)
    {
      && Exposed(d) && Unstopped(d + 1) && FirstRaise(env, clock, CallAfter(d + 1) - 1)
      && (Lands(env, CallAfter(d + 1)) || Lands(env, CallAfter(d + 1) + 1))
    }

    /** Some epoch of the `epochs` that the run is asked for loses the cursor. */
    ghost predicate Loses(epochs: nat)
      requires ValidLayout(layout)
    {
      exists d: nat | d < epochs :: LostAt(d)
    }

    /** How far the calls got, by the ending in epoch number `done`. */
    ghost predicate EndedAt(ending: Ending, call: nat, epochs: nat, done: nat)
      requires ValidLayout(layout)
    {
      match ending
      case Finished => done == epochs && call == CallAfter(done)
      case RaisedAtEpochEnd => done < epochs && call == CallAfter(done + 1) && Unstopped(done + 1)
      case RaisedInside => done < epochs && CallAfter(done) < call < CallAfter(done + 1)
    }

    /** How far the calls got when a stop was agreed in epoch number `done`, or stood at the start. */
    ghost predicate StoppedAt(ending: Ending, call: nat, done: nat)
      requires ValidLayout(layout)
    {
      && !Unstopped(done + 1) && ending != RaisedInside && CallAfter(done) <= call
      && (ending == RaisedAtEpochEnd ==> CallAfter(done) < call)
    }
  }

  lemma CallOrder(run: Run, m: nat, n: nat)
    requires ValidLayout(run.layout) && m <= n
    ensures run.CallAfter(m) <= run.CallAfter(n) && (m < n ==> run.CallAfter(m) + 2 <= run.CallAfter(n))
  {
    if m < n { RunCallsGrow(run.layout, run.offset, m, n, run.replay); }
  }

  /** One epoch further. */
  lemma EpochAdvances(run: Run, done: nat)
    requires ValidLayout(run.layout)
    ensures run.CallAfter(done + 1)
        == run.CallAfter(done) + EpochCalls(run.layout, Resumed(run.offset, done), run.replay)
    ensures run.StepAfter(done + 1)
        == run.StepAfter(done) + EpochSteps(run.layout, Resumed(run.offset, done), run.replay)
    ensures run.AgreementAfter(done + 1)
        == run.AgreementAfter(done) + 2 + |Windows(run.layout, Resumed(run.offset, done))|
    ensures run.SavingAt(done + 1)
         == SavingAfter(Windows(run.layout, Resumed(run.offset, done)), run.epoch + done, run.StepAfter(done),
                        run.SavingAt(done), run.interval, run.replay)
  {
  }

  /** The first `done` epochs of a run lie behind. */
  ghost predicate EpochsDone(run: Run, before: seq<int>, done: nat, at: Reached)
    requires run.Valid()
  {
    && at.clock == run.CallAfter(done) && at.steps == run.StepAfter(done) && at.saving == run.SavingAt(done)
    && at.trained == TrainedUpto(run.layout, before, run.epoch, run.offset, done, Resumed(run.offset, done))
  }

  /** The epoch that begins at `from`, trained up to position `to`. */
  lemma EpochTrained(run: Run, before: seq<int>, done: nat, from: Reached, trained: seq<int>, to: nat)
    requires run.Valid() && EpochsDone(run, before, done, from)
    requires trained
          == from.trained + Interval(EpochStart(run.epoch + done, run.layout.numSamples) + Resumed(run.offset, done),
                                     EpochStart(run.epoch + done, run.layout.numSamples) + to)
    ensures trained == TrainedUpto(run.layout, before, run.epoch, run.offset, done, to)
  {
    StartEpoch(run.layout, before, run.epoch, run.offset, done);
    InEpoch(run.layout, before, run.epoch, run.offset, done, run.epoch + done, Resumed(run.offset, done), to,
      from.trained, trained);
  }

  /** A whole epoch leads to the start of the next. */
  lemma {:induction false} NextEpochDone(run: Run, before: seq<int>, done: nat, at: Reached)
    requires run.Valid()
    requires at.trained
          == TrainedUpto(run.layout, before, run.epoch, run.offset, done, EndOf(run.layout, Resumed(run.offset, done)))
    requires at.clock == run.CallAfter(done + 1) && at.steps == run.StepAfter(done + 1)
    requires at.saving == run.SavingAt(done + 1)
    ensures EpochsDone(run, before, done + 1, at)
  {
    NextEpoch(run.layout, before, run.epoch, run.offset, done);
  }

  lemma {:induction false} EpochRan(run: Run, before: seq<int>, done: nat, from: Reached, at: Reached, to: nat,
        whole: bool)
    requires run.Valid() && EpochsDone(run, before, done, from)
    requires at.trained
          == from.trained + Interval(EpochStart(run.epoch + done, run.layout.numSamples) + Resumed(run.offset, done),
                                     EpochStart(run.epoch + done, run.layout.numSamples) + to)
    requires whole ==>
               && to == EndOf(run.layout, Resumed(run.offset, done))
               && at.clock == run.CallAfter(done + 1) && at.steps == run.StepAfter(done + 1)
               && at.saving == run.SavingAt(done + 1)
    ensures at.trained == TrainedUpto(run.layout, before, run.epoch, run.offset, done, to)
    ensures whole ==> EpochsDone(run, before, done + 1, at)
  {
    EpochTrained(run, before, done, from, at.trained, to);
    if whole { NextEpochDone(run, before, done, at); }
  }

  /** The first call that raises decides which epoch, if any, loses the cursor. */
  lemma OneEpochRaises(run: Run, ending: Ending, call: nat, epochs: nat, done: nat, d: nat)
    requires ValidLayout(run.layout) && run.EndedAt(ending, call, epochs, done)
    requires Called(run.env, run.clock, call, ending.Finished?)
    requires d < epochs && FirstRaise(run.env, run.clock, run.CallAfter(d + 1) - 1)
    ensures ending == RaisedAtEpochEnd && d == done
  {
    CallOrder(run, done, done + 1);
    if d < done {
      CallOrder(run, d + 1, done);
    } else {
      CallOrder(run, done + 1, d + 1);
    }
  }

  lemma EndingDecides(run: Run, ending: Ending, call: nat, epochs: nat, done: nat)
    requires ValidLayout(run.layout) && run.EndedAt(ending, call, epochs, done)
    requires Called(run.env, run.clock, call, ending.Finished?)
    ensures run.Loses(epochs)
       <==> ending == RaisedAtEpochEnd && run.Exposed(done) && (Lands(run.env, call) || Lands(run.env, call + 1))
    ensures run.Loses(epochs) ==> done < epochs && run.LostAt(done)
  {
    if run.Loses(epochs) {
      var d: nat :| d < epochs && run.LostAt(d);
      OneEpochRaises(run, ending, call, epochs, done, d);
    } else if ending == RaisedAtEpochEnd {
      assert !run.LostAt(done);
    }
  }

  /** Fewer epochs make fewer agreements. */
  lemma UnstoppedBefore(run: Run, m: nat, n: nat)
    requires ValidLayout(run.layout) && m <= n && run.Unstopped(n)
    ensures run.Unstopped(m)
  {
    if m < n { RunAgreementsGrow(run.layout, run.offset, m, n); }
  }

  lemma StoppedKeeps(run: Run, ending: Ending, call: nat, done: nat, d: nat)
    requires ValidLayout(run.layout) && run.StoppedAt(ending, call, done)
    requires Called(run.env, run.clock, call, ending.Finished?)
    ensures !run.LostAt(d)
  {
    if d < done {
      CallOrder(run, d + 1, done);
    } else if run.Unstopped(d + 1) {
      UnstoppedBefore(run, done + 1, d + 1);
    }
  }

  /** A run that stops by agreement loses nothing. */
  lemma StoppedLosesNothing(run: Run, ending: Ending, call: nat, epochs: nat, done: nat)
    requires ValidLayout(run.layout) && run.StoppedAt(ending, call, done)
    requires Called(run.env, run.clock, call, ending.Finished?)
    ensures !run.Loses(epochs)
  {
    forall d: nat
      ensures !run.LostAt(d)
    {
      StoppedKeeps(run, ending, call, done, d);
    }
  }

  /** An epoch's agreements, counted from its begin, come after the one before it. */
  lemma AgreedInEpoch(run: Run, stop: bool, d: nat, made: nat, to: nat)
    requires ValidLayout(run.layout) && AgreedInside(run.layout, Resumed(run.offset, d), stop, made, to)
    ensures run.AgreedThrough(stop, run.AgreementAfter(d) + 1 + made, d, to)
  {
    EpochAdvances(run, d);
  }

  /** The agreements of an epoch that was run to its end, or up to one that says stop. */
  lemma EpochAgreed(run: Run, stop: bool, agreed: nat, d: nat, to: nat)
    requires ValidLayout(run.layout) && !run.stopped && run.AgreedThrough(stop, agreed, d, to)
    requires Agreed(run.env, false, run.agreements, stop, agreed)
    ensures if stop then FirstStop(run.env, run.agreements, agreed - 1) && !run.Unstopped(d + 1)
            else run.Unstopped(d + 1)
  {
    if stop { assert run.agreements <= agreed - 1 < run.AgreementAfter(d + 1) && run.env.stops(agreed - 1); }
  }

  /** How epoch number `done` of a run came out: it leads to the next, stops the run by agreement, or raises. */
  ghost predicate CameOut(run: Run, before: seq<int>, done: nat, at: Reached, stop: bool, ending: Ending, to: nat)
    requires run.Valid()
  {
    && (if stop then
          && run.StoppedAt(ending, at.clock, done)
          && run.AgreesAt(at.agreements - 1, done, to) && FirstStop(run.env, run.agreements, at.agreements - 1)
          && run.StepsAt(at.agreements - 1, done, at.steps)
        else ending != Finished ==> run.EndedAt(ending, at.clock, done + 1, done))
    && (ending == RaisedAtEpochEnd && !stop ==>
          at.steps == run.StepAfter(done + 1) && at.saving == run.SavingAt(done + 1))
    && (ending == Finished ==>
          && Resumed(run.offset, done) <= to <= run.layout.numSamples
          && at.trained == TrainedUpto(run.layout, before, run.epoch, run.offset, done, to)
          && (!stop ==> EpochsDone(run, before, done + 1, at) && at.agreements == run.AgreementAfter(done + 1)))
  }

  /** What the epoch made, told of the run it is part of. */
  lemma {:induction false} EpochInRun(run: Run, before: seq<int>, done: nat, from: Reached, at: Reached, stop: bool,
        ending: Ending, to: nat)
    requires run.Valid() && EpochsDone(run, before, done, from) && from.agreements == run.AgreementAfter(done) + 1
    requires EpochMade(run.layout, run.replay, run.interval, run.epoch + done, Resumed(run.offset, done), from, false,
                       at, stop, ending, to)
    requires !run.stopped && Agreed(run.env, false, run.agreements, stop, at.agreements)
    ensures CameOut(run, before, done, at, stop, ending, to)
  {
    EpochAdvances(run, done);
    if ending != RaisedInside {
      AgreedInEpoch(run, stop, done, at.agreements - from.agreements, to);
      EpochAgreed(run, stop, at.agreements, done, to);
    }
    if ending == Finished { EpochRan(run, before, done, from, at, to, !stop); }
  }

  /** An epoch that the agreement before it keeps from beginning. */
  lemma EpochNotBegun(run: Run, before: seq<int>, done: nat, at: Reached)
    requires run.Valid() && EpochsDone(run, before, done, at) && at.agreements == run.AgreementAfter(done) + 1
    requires !run.stopped && Agreed(run.env, false, run.agreements, true, at.agreements)
    ensures CameOut(run, before, done, at, true, Finished, Resumed(run.offset, done))
  {
    EpochAdvances(run, done);
    EpochAgreed(run, true, at.agreements, done, Resumed(run.offset, done));
  }

  /** How a run over `epochs` epochs came out. */
  ghost predicate RunCameOut(run: Run, before: seq<int>, epochs: nat, at: Reached, stop: bool, ending: Ending,
        done: nat, to: nat)
    requires run.Valid()
  {
    && (if stop then run.StoppedAt(ending, at.clock, done) else run.EndedAt(ending, at.clock, epochs, done))
    && (ending == Finished ==>
          && run.EndsWhereAgreed(epochs, stop, at.agreements, done, to)
          && Resumed(run.offset, done) <= to <= run.layout.numSamples
          && at.trained == TrainedUpto(run.layout, before, run.epoch, run.offset, done, to)
          && (if stop && !run.stopped then run.StepsAt(at.agreements - 1, done, at.steps)
              else at.steps == run.StepAfter(done)))
  }

  /** A run that ends in one of its epochs. */
  lemma EndsInEpoch(run: Run, before: seq<int>, epochs: nat, at: Reached, stop: bool, ending: Ending, done: nat,
        to: nat)
    requires run.Valid() && !run.stopped && done < epochs && CameOut(run, before, done, at, stop, ending, to)
    requires stop || ending != Finished
    ensures RunCameOut(run, before, epochs, at, stop, ending, done, to)
  {
    if stop && run.Unstopped(epochs) { UnstoppedBefore(run, done + 1, epochs); }
  }

  /** A run that ends after its last epoch, or before its first because a stop stood already. */
  lemma EndsBetween(run: Run, before: seq<int>, epochs: nat, at: Reached, done: nat)
    requires run.Valid() && EpochsDone(run, before, done, at) && at.agreements == run.AgreementAfter(done)
    requires Agreed(run.env, run.stopped, run.agreements, run.stopped, at.agreements)
    requires if run.stopped then done == 0 else done == epochs
    ensures RunCameOut(run, before, epochs, at, run.stopped, Finished, done, Resumed(run.offset, done))
  {
  }

  /** The epoch and the position at which an agreement is made are determined by its number. */
  lemma AgreesAtOnce(run: Run, a: int, d: nat, to: nat, d': nat, to': nat)
    requires ValidLayout(run.layout) && run.AgreesAt(a, d, to) && run.AgreesAt(a, d', to')
    ensures d == d' && to == to'
  {
    if d + 1 < d' { RunAgreementsGrow(run.layout, run.offset, d + 1, d'); }
    if d' + 1 < d { RunAgreementsGrow(run.layout, run.offset, d' + 1, d); }
  }

  /** Call number `at` raises and no other does. */
  ghost function RaisingAt(at: int): Environment {
    Environment(c => c == at, c => MetricCommit, c => false, agreement => false)
  }

  /** When the observer saves does not depend on the environment, as long as nothing raises. */
  lemma {:induction false} SameSaves(run: Run, other: Run, n: nat)
    requires ValidLayout(run.layout) && other == run.(env := other.env)
    ensures run.SavingAt(n) == other.SavingAt(n)
    decreases n
  {
    if n > 0 { SameSaves(run, other, n - 1); }
  }

  lemma SameExposure(run: Run, other: Run, d: nat)
    requires ValidLayout(run.layout) && other == run.(env := other.env)
    ensures run.Exposed(d) == other.Exposed(d)
  {
    SameSaves(run, other, d + 1);
  }

  lemma EndRaises(run: Run, d: nat)
    requires run.Valid() && run.Exposed(d) && !run.stopped
    ensures run.(env := RaisingAt(run.CallAfter(d + 1) - 1)).LostAt(d)
  {
    RunCallsGrow(run.layout, run.offset, 0, d + 1, run.replay);
    SameExposure(run, run.(env := RaisingAt(run.CallAfter(d + 1) - 1)), d);
  }

  lemma ExposedMayBeLost(run: Run, epochs: nat) returns (env: Environment)
    requires run.Valid() && run.MayLose(epochs)
    ensures run.(env := env).Loses(epochs)
  {
    var d: nat :| d < epochs && run.Exposed(d);
    env := RaisingAt(run.CallAfter(d + 1) - 1);
    EndRaises(run, d);
  }

  lemma LostWasExposed(run: Run, env: Environment, epochs: nat)
    requires run.Valid() && run.(env := env).Loses(epochs)
    ensures run.MayLose(epochs) && exists c: nat :: run.clock <= c && env.raises(c)
  {
    var other := run.(env := env);
    var d: nat :| d < epochs && other.LostAt(d);
    SameExposure(run, other, d);
    var c: nat := other.CallAfter(d + 1) - 1;
    assert run.clock <= c && env.raises(c);
  }

  /**
    Whether a run can leave a checkpoint that disagrees with its epoch is told before it starts: some epoch asked
    for drops a tail, and no checkpoint of that epoch and its last step is there by its end. It takes an exception:
    an environment that raises nothing never does it.
   */
  lemma ConsistentUnlessTailDropped(run: Run, epochs: nat)
    requires run.Valid()
    ensures (exists env: Environment :: run.(env := env).Loses(epochs)) <==> run.MayLose(epochs)
    ensures (forall c: nat | run.clock <= c :: !run.env.raises(c)) ==> !run.Loses(epochs)
  {
    if run.MayLose(epochs) { var env := ExposedMayBeLost(run, epochs); }
    forall env: Environment | run.(env := env).Loses(epochs)
      ensures run.MayLose(epochs)
    {
      LostWasExposed(run, env, epochs);
    }
    if run.Loses(epochs) {
      assert run.(env := run.env) == run;
      LostWasExposed(run, run.env, epochs);
    }
  }

  lemma OneWindowCommits(w: Window, r: Replay)
    requires w.count > 0 && r.updateEpochs > 0
    ensures CommitCount([w], r.Passes(), r.Slice()) == |LearnerUpdateSlices(w.count, r.Passes(), r.Slice()).value| > 0
  {
    ReplayVisitsEachOnce(w.count, r.Passes(), r.Slice());
    assert [w][1..] == [];
  }

  lemma OneWindowSaving(w: Window, epoch: int, step: int, saving: Saving, interval: int, r: Replay)
    ensures SavingAfter([w], epoch, step, saving, interval, r)
         == Observed(saving, interval, epoch, step + CommitCount([w], r.Passes(), r.Slice()))
  {
    assert [w][1..] == [];
  }

  lemma {:induction false} EveryWindowSaved(windows: seq<Window>, epoch: int, step: int, saving: Saving, interval: int,
        r: Replay)
    requires interval <= 1 && r.updateEpochs > 0 && saving.step <= step && windows != []
    requires forall i :: 0 <= i < |windows| ==> windows[i].count > 0
    ensures SavingAfter(windows, epoch, step, saving, interval, r)
         == Saving(step + CommitCount(windows, r.Passes(), r.Slice()), Some(epoch))
  {
    var next := step + CommitCount([windows[0]], r.Passes(), r.Slice());
    OneWindowCommits(windows[0], r);
    CommitCountSplit(windows, r);
    if |windows| > 1 {
      EveryWindowSaved(windows[1..], epoch, next, Saving(next, Some(epoch)), interval, r);
    } else {
      assert windows[1..] == [];
    }
  }

  lemma {:induction false} SavesStayBehind(windows: seq<Window>, epoch: int, step: int, saving: Saving, interval: int,
        r: Replay)
    requires saving.step <= step
    ensures SavingAfter(windows, epoch, step, saving, interval, r).step
         <= step + CommitCount(windows, r.Passes(), r.Slice())
  {
    if windows != [] {
      var next := step + CommitCount([windows[0]], r.Passes(), r.Slice());
      CommitCountSplit(windows, r);
      SavesStayBehind(windows[1..], epoch, next, Observed(saving, interval, epoch, next), interval, r);
    }
  }

  lemma EpochCommits(run: Run, d: nat)
    requires run.Valid()
    ensures run.StepAfter(d + 1)
         == run.StepAfter(d)
            + CommitCount(Windows(run.layout, Resumed(run.offset, d)), run.replay.Passes(), run.replay.Slice())
  {
    CommitsMatchSteps(run.layout, Resumed(run.offset, d), run.replay.online, run.replay.updateEpochs,
      run.replay.minibatch);
  }

  lemma {:induction false} SavedBehind(run: Run, n: nat)
    requires run.Valid() && run.saving.step <= run.step
    ensures run.SavingAt(n).step <= run.StepAfter(n)
  {
    if n > 0 {
      SavedBehind(run, n - 1);
      EpochCommits(run, n - 1);
      SavesStayBehind(Windows(run.layout, Resumed(run.offset, n - 1)), run.epoch + n - 1, run.StepAfter(n - 1),
        run.SavingAt(n - 1), run.interval, run.replay);
    }
  }

  /** Saving at every step, an epoch that trains a window has its checkpoint before its end, so none is lost. */
  lemma EveryStepSaved(run: Run, d: nat)
    requires run.Valid() && run.saving.step <= run.step && run.interval <= 1
    requires Windows(run.layout, Resumed(run.offset, d)) != []
    ensures run.Taken(d)
  {
    var windows := Windows(run.layout, Resumed(run.offset, d));
    forall i: nat | i < |windows|
      ensures windows[i].count > 0
    {
      WindowsAreValid(run.layout, Resumed(run.offset, d), i);
    }
    SavedBehind(run, d);
    EpochCommits(run, d);
    EveryWindowSaved(windows, run.epoch + d, run.StepAfter(d), run.SavingAt(d), run.interval, run.replay);
  }
}
