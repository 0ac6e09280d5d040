/**
  The training cursor: windows are committed update by update, a failed commit rolls its
  counters back, and only a fully committed window may be published.
 */
module Cursor {
  import opened Sequences
  import opened Arithmetic
  import opened StepPlan
  import opened Sampler
  import opened Runs

  // ---------- The checkpoint observer ----------

  class CheckpointObserver {
    const layout: Layout
    const interval: int
    /** The checkpoints in the directory when the run began. */
    const found: Checkpoints

    var published: Checkpoints
    var lastStep: int
    var lastCursor: int
    var saved: bool
    ghost var savedEpoch: int

    ghost function Last(): Saving
      reads this
    {
      Saving(lastStep, if saved then Some(savedEpoch) else None)
    }

    /** What was found is still there, unchanged. */
    ghost predicate Valid()
      reads this
    {
      ValidLayout(layout) && forall d | d in found :: d in published && published[d] == found[d]
    }

    /** Every checkpoint that the run published agrees with its epoch. */
    ghost predicate AllAgree()
      requires ValidLayout(layout)
      reads this
    {
      forall d | d in published && d !in found :: Agrees(layout, published[d])
    }

    ghost predicate Good()
      reads this
    {
      Valid() && AllAgree()
    }

    /** The run's newest checkpoint is the last one saved. */
    ghost predicate Tracked()
      reads this
    {
      && (saved ==> Directory(savedEpoch, lastStep) in published)
      && forall d | d in published && d !in found ::
           saved && d.step <= lastStep && (d.step == lastStep ==> d.epoch == savedEpoch)
    }

    /** The run begins at this step and cursor. */
    constructor (layout: Layout, interval: int, found: Checkpoints, step: int, cursor: int)
      requires ValidLayout(layout)
      ensures Good() && Tracked() && lastStep == step && lastCursor == cursor && !saved && published == found
      ensures this.layout == layout && this.interval == interval && this.found == found
    {
      this.layout, this.interval, this.found := layout, interval, found;
      published, lastStep, lastCursor, saved, savedEpoch := found, step, cursor, false, 0;
    }

    /**
      Save a checkpoint: a directory that holds one already is kept. The save may raise, before or after the
      checkpoint landed, and only one that returns is remembered.
     */
    method Save(s: Snapshot, ok: bool, landed: bool)
      requires Valid() && (ok ==> landed)
      modifies this
      ensures Valid()
      ensures published
           == if landed && s.Where() !in old(published) then old(published)[s.Where() := s] else old(published)
      ensures if ok then Last() == Saving(s.step, Some(s.epoch)) && lastCursor == s.consumed
              else unchanged(`lastStep, `lastCursor, `saved, `savedEpoch)
    {
      if landed && s.Where() !in published { published := published[s.Where() := s]; }
      if ok { lastStep, lastCursor, saved, savedEpoch := s.step, s.consumed, true, s.epoch; }
    }

    /** After a commit: save if the state is safe and the interval has passed. */
    method AfterStep(s: Snapshot, safe: bool, ok: bool, landed: bool)
      requires Good() && (safe ==> Agrees(layout, s)) && (ok ==> landed)
      modifies this
      ensures Good() && (!safe ==> unchanged(this))
      ensures safe && ok ==> Last() == Observed(old(Last()), interval, s.epoch, s.step)
      ensures ok && old(Tracked()) && old(lastStep) < s.step ==> Tracked()
      ensures lastStep == old(lastStep) || lastStep == s.step
      ensures lastCursor == old(lastCursor) || lastCursor == s.consumed
    {
      if s.step - lastStep >= interval && safe { Save(s, ok, landed); }
    }
  }

  // ---------- The trainer ----------

  class Trainer {
    const layout: Layout
    const replay: Replay
    const env: Environment
    const sampler: GlobalBatchSampler
    const observer: CheckpointObserver

    var epoch: int
    var consumedSamples: int
    var epochSampleOffset: nat
    var checkpointSafe: bool
    var optimizerSteps: int
    var pendingSamples: nat
    var stopAgreed: bool

    var clock: nat
    var agreements: nat
    /** Updates of the current window that are not committed yet. */
    ghost var open: nat
    /** Global sample positions trained on by committed windows, in order. */
    ghost var trained: seq<int>

    ghost function Now(): Moment
      reads this
    {
      Moment(clock, stopAgreed, agreements)
    }

    ghost predicate Configured()
      reads sampler
    {
      && ValidLayout(layout) && replay.updateEpochs > 0 && sampler.Valid() && sampler.layout == layout
      && observer.layout == layout
    }

    /** The data cursor agrees with the epoch, and sits on a committed window boundary. */
    ghost predicate AtBoundary()
      reads this
    {
      && ValidLayout(layout) && Boundary(layout, epochSampleOffset)
      && consumedSamples == EpochStart(epoch, layout.numSamples) + epochSampleOffset
    }

    /** A publishable state has no uncommitted update and a consistent cursor. */
    ghost predicate SafeMeansCommitted()
      reads this
    {
      checkpointSafe ==> open == 0 && AtBoundary()
    }

    /** The observer is not ahead of the trainer. */
    ghost predicate Watched()
      reads this, observer
    {
      && observer.Good() && observer.Tracked()
      && observer.lastStep <= optimizerSteps && observer.lastCursor <= consumedSamples
    }

    /** Between windows: nothing uncommitted, and every checkpoint of the run so far agrees with its epoch. */
    ghost predicate Ready()
      reads this, sampler, observer
    {
      Configured() && checkpointSafe && open == 0 && AtBoundary() && Watched()
    }

    /** The state a shutdown meets when the end of an epoch that dropped its tail raises. */
    ghost predicate Overcounting()
      reads this, observer
    {
      && Watched() && checkpointSafe && observer.lastCursor < consumedSamples
      && epochSampleOffset == 0 && consumedSamples == EpochStart(epoch + 1, layout.numSamples)
    }

    constructor (layout: Layout, replay: Replay, env: Environment, sampler: GlobalBatchSampler,
          observer: CheckpointObserver, epoch: int, offset: nat, steps: int)
      requires ValidLayout(layout) && replay.updateEpochs > 0 && sampler.Valid() && sampler.layout == layout
      requires Boundary(layout, offset) && observer.layout == layout && observer.Good() && observer.Tracked()
      requires observer.lastStep <= steps && observer.lastCursor <= EpochStart(epoch, layout.numSamples) + offset
      ensures Ready() && !stopAgreed && trained == [] && clock == 0
      ensures this.layout == layout && this.replay == replay && this.env == env
      ensures this.sampler == sampler && this.observer == observer
      ensures this.epoch == epoch && epochSampleOffset == offset && optimizerSteps == steps
    {
      this.layout, this.replay, this.env, this.sampler, this.observer := layout, replay, env, sampler, observer;
      this.epoch, epochSampleOffset, optimizerSteps := epoch, offset, steps;
      consumedSamples := EpochStart(epoch, layout.numSamples) + offset;
      checkpointSafe, pendingSamples, stopAgreed := true, 0, false;
      clock, agreements, open, trained := 0, 0, 0, [];
    }

    /** A call into code that may raise. */
    method Call() returns (ok: bool)
      modifies this`clock
      ensures clock == old(clock) + 1 && ok == !env.raises(old(clock))
    {
      ok := !env.raises(clock);
      clock := clock + 1;
    }

    method AgreeStop()
      modifies this`stopAgreed, this`agreements
      ensures agreements == old(agreements) + 1 && stopAgreed == (old(stopAgreed) || env.stops(old(agreements)))
    {
      if env.stops(agreements) { stopAgreed := true; }
      agreements := agreements + 1;
    }

    method AgreeUnlessStopped()
      modifies this`stopAgreed, this`agreements
      ensures Agreed(env, old(stopAgreed), old(agreements), stopAgreed, agreements)
      ensures agreements == old(agreements) + if old(stopAgreed) then 0 else 1
    {
      if !stopAgreed { AgreeStop(); }
    }

    /**
      Commit one update. The counters advance before the observers run; an exception in the
      protected phases takes them back, one in the metric commit after them does not.
     */
    method CommitGlobalUpdate(newData: bool) returns (ok: bool)
      requires open > 0
      modifies this`checkpointSafe, this`optimizerSteps, this`consumedSamples, this`pendingSamples, this`clock,
          this`open
      ensures !checkpointSafe && clock == old(clock) + 1 && (ok <==> !env.raises(old(clock)))
      ensures var kept := ok || env.phase(old(clock)) == MetricCommit;
              && optimizerSteps == old(optimizerSteps) + (if kept then 1 else 0)
              && consumedSamples == old(consumedSamples) + (if kept && newData then old(pendingSamples) else 0)
              && pendingSamples == if kept then 0 else old(pendingSamples)
      ensures open == old(open) - if ok then 1 else 0
    {
      var raised := if env.raises(clock) then Some(env.phase(clock)) else None;
      clock := clock + 1;
      checkpointSafe := false;
      var committed := if newData then pendingSamples else 0;
      optimizerSteps := optimizerSteps + 1;
      if newData { consumedSamples := consumedSamples + committed; }
      if raised.Some? && raised != Some(MetricCommit) {
        optimizerSteps := optimizerSteps - 1;
        if newData { consumedSamples := consumedSamples - committed; }
        return false;
      }
      pendingSamples := 0;
      ok := raised != Some(MetricCommit);
      if ok { open := open - 1; }
    }

    ghost function Positions(from: int, to: int): seq<int>
      reads this
    {
      Interval(EpochStart(epoch, layout.numSamples) + from, EpochStart(epoch, layout.numSamples) + to)
    }

    /** The window is done: the cursor moves past it and the state is publishable. */
    method AdvanceCursor(w: Window)
      requires ValidLayout(layout) && ValidWindow(layout, w) && w.start == epochSampleOffset
      requires Boundary(layout, w.start) && open == 0
      requires consumedSamples == EpochStart(epoch, layout.numSamples) + w.start + w.count
      modifies this`epochSampleOffset, this`checkpointSafe, this`trained
      ensures AtBoundary() && checkpointSafe && epochSampleOffset == w.start + w.count
      ensures trained == old(trained) + Positions(w.start, w.start + w.count)
    {
      WindowEndIsBoundary(layout, w);
      epochSampleOffset := w.start + w.count;
      checkpointSafe := true;
      trained := trained + Positions(w.start, w.start + w.count);
    }

    function Here(): Snapshot
      reads this
    {
      Snapshot(epoch, optimizerSteps, consumedSamples, epochSampleOffset)
    }

    /** After a commit: the observers run, the checkpoint observer among them, and after a window the ranks agree. */
    method AfterCommit(agree: bool) returns (ok: bool)
      requires Watched() && observer.layout == layout && SafeMeansCommitted() && observer.lastStep < optimizerSteps
      requires !stopAgreed
      modifies this`clock, this`stopAgreed, this`agreements, observer
      ensures clock == old(clock) + 1 && ok == !env.raises(old(clock))
      ensures agreements == old(agreements) + if ok && agree then 1 else 0
      ensures Agreed(env, old(stopAgreed), old(agreements), stopAgreed, agreements)
      ensures observer.Good() && (ok ==> Watched())
      ensures ok ==>
                observer.Last()
                == if checkpointSafe
                   then Observed(old(observer.Last()), observer.interval, epoch, optimizerSteps)
                   else old(observer.Last())
    {
      var landed := Lands(env, clock);
      ok := Call();
      observer.AfterStep(Here(), checkpointSafe, ok, landed);
      if ok && agree { AgreeStop(); }
    }

    /** Commit one update of a window; the last one moves the data cursor and makes the state publishable. */
    method CommitInWindow(w: Window, final: bool) returns (ok: bool)
      requires Configured() && AtBoundary() && !checkpointSafe
      requires ValidWindow(layout, w) && w.start == epochSampleOffset && open > 0 && (final <==> open == 1)
      modifies this
      ensures unchanged(`epoch, `stopAgreed, `agreements) && SafeMeansCommitted()
      ensures clock == old(clock) + 1 && (ok <==> !env.raises(old(clock)))
      ensures ok ==>
                && AtBoundary() && open == old(open) - 1 && optimizerSteps == old(optimizerSteps) + 1
                && consumedSamples >= old(consumedSamples)
                && checkpointSafe == final && epochSampleOffset == w.start + (if final then w.count else 0)
                && trained == old(trained) + if final then Positions(w.start, w.start + w.count) else []
    {
      if final { pendingSamples := w.count; }
      ok := CommitGlobalUpdate(final);
      if ok && final { AdvanceCursor(w); }
    }

    /** One update of a window, with the calls around its commit. */
    method RunGlobalUpdate(w: Window, final: bool) returns (ok: bool)
      requires Configured() && AtBoundary() && !checkpointSafe && Watched() && !stopAgreed
      requires ValidWindow(layout, w) && w.start == epochSampleOffset && open > 0 && (final <==> open == 1)
      modifies this, observer
      ensures unchanged(`epoch) && SafeMeansCommitted() && observer.Good() && (ok ==> Watched())
      ensures Ran(env, old(Now()), Now(), ok) && clock <= old(clock) + 3 && (ok ==> clock == old(clock) + 3)
      ensures agreements == old(agreements) + if ok && final then 1 else 0
      ensures ok ==>
                && AtBoundary() && open == old(open) - 1 && optimizerSteps == old(optimizerSteps) + 1
                && checkpointSafe == final && epochSampleOffset == w.start + (if final then w.count else 0)
                && trained == old(trained) + if final then Positions(w.start, w.start + w.count) else []
      ensures ok ==>
                observer.Last()
                == if final
                   then Observed(old(observer.Last()), observer.interval, epoch, optimizerSteps)
                   else old(observer.Last())
    {
      ok := Call();  // forward, backward and the reduction of the totals
      if ok { ok := CommitInWindow(w, final); }
      if ok { ok := AfterCommit(final); }
    }

    /** All updates of one window, in replay order. */
    method RunUpdates(w: Window, updates: seq<Update>) returns (ok: bool)
      requires Configured() && AtBoundary() && !checkpointSafe && Watched() && !stopAgreed
      requires ValidWindow(layout, w) && w.start == epochSampleOffset && updates != [] && open == |updates|
      requires forall i :: 0 <= i < |updates| ==> (updates[i].last <==> i == |updates| - 1)
      modifies this, observer
      ensures unchanged(`epoch) && SafeMeansCommitted() && observer.Good()
      ensures Ran(env, old(Now()), Now(), ok) && clock <= old(clock) + 3 * |updates|
      ensures agreements == old(agreements) + if ok then 1 else 0
      ensures ok ==>
                && Ready() && clock == old(clock) + 3 * |updates| && optimizerSteps == old(optimizerSteps) + |updates|
                && epochSampleOffset == w.start + w.count
                && trained == old(trained) + Positions(w.start, w.start + w.count)
                && observer.Last() == Observed(old(observer.Last()), observer.interval, epoch, optimizerSteps)
    {
      ok := true;
      for i := 0 to |updates|
        invariant SafeMeansCommitted() && AtBoundary() && Watched() && unchanged(`epoch)
        invariant Ran(env, old(Now()), Now(), true) && clock == old(clock) + 3 * i
        invariant open == |updates| - i && optimizerSteps == old(optimizerSteps) + i
        invariant checkpointSafe == (i == |updates|) && ok && (i < |updates| ==> !stopAgreed)
        invariant agreements == old(agreements) + if i == |updates| then 1 else 0
        invariant epochSampleOffset == w.start + if i == |updates| then w.count else 0
        invariant trained == old(trained) + if i == |updates| then Positions(w.start, w.start + w.count) else []
        invariant observer.Last()
               == if i == |updates|
                  then Observed(old(observer.Last()), observer.interval, epoch, optimizerSteps)
                  else old(observer.Last())
      {
        ghost var at := Now();
        ok := RunGlobalUpdate(w, updates[i].last);
        RanChain(env, old(Now()), at, Now(), ok);
        if !ok { return; }
      }
    }

    /** Fetch the microbatches, then roll out or do nothing; from here the state is not publishable. */
    method FetchWindow() returns (ok: bool)
      modifies this`clock, this`checkpointSafe
      ensures Ran(env, old(Now()), Now(), ok) && clock <= old(clock) + 2
      ensures ok ==> !checkpointSafe && clock == old(clock) + 2
      ensures checkpointSafe ==> old(checkpointSafe)
    {
      ok := Call();
      if !ok { return; }
      checkpointSafe := false;
      ok := Call();
    }

    /** One window: its microbatches, the rollout when online, and its updates. */
    method RunWindow(w: Window) returns (ok: bool)
      requires Ready() && ValidWindow(layout, w) && w.start == epochSampleOffset && !stopAgreed
      modifies this, observer
      ensures unchanged(`epoch) && SafeMeansCommitted() && observer.Good()
      ensures Ran(env, old(Now()), Now(), ok) && clock <= old(clock) + Calls([w], replay)
      ensures agreements == old(agreements) + if ok then 1 else 0
      ensures ok ==>
                && Ready() && epochSampleOffset == w.start + w.count
                && clock == old(clock) + Calls([w], replay)
                && optimizerSteps == old(optimizerSteps) + CommitCount([w], replay.Passes(), replay.Slice())
                && trained == old(trained) + Positions(w.start, w.start + w.count)
                && observer.Last() == Observed(old(observer.Last()), observer.interval, epoch, optimizerSteps)
    {
      ok := FetchWindow();
      if !ok { return; }
      var plan := LearnerUpdateSlices(w.count, replay.Passes(), replay.Slice());
      ReplayVisitsEachOnce(w.count, replay.Passes(), replay.Slice());
      OneWindowCommits(w, replay);
      open := |plan.value|;
      ghost var at := Now();
      ok := RunUpdates(w, plan.value);
      RanChain(env, old(Now()), at, Now(), ok);
    }

    ghost function Mark(): Reached
      reads this, observer
    {
      Reached(epochSampleOffset, optimizerSteps, observer.Last(), clock, agreements, trained)
    }

    /** Window number `i` of an epoch that began at `start` with the cursor at `from`. */
    method RunNextWindow(windows: seq<Window>, i: nat, ghost start: Moment, ghost from: Reached) returns (ok: bool)
      requires Ready() && i < |windows| && Ran(env, start, Now(), true) && !stopAgreed
      requires WindowsDone(layout, epoch, windows, i, from, Mark(), observer.interval, replay)
      modifies this, observer
      ensures unchanged(`epoch) && SafeMeansCommitted() && observer.Good()
      ensures Ran(env, start, Now(), ok) && clock <= from.clock + Calls(windows, replay) && (!ok ==> !stopAgreed)
      ensures ok ==> Ready() && WindowsDone(layout, epoch, windows, i + 1, from, Mark(), observer.interval, replay)
    {
      ghost var at, before := Now(), Mark();
      NextWindow(layout, windows, i, epochSampleOffset, replay);
      ok := RunWindow(windows[i]);
      RanChain(env, start, at, Now(), ok);
      if ok { OneMoreDone(layout, epoch, windows, i, from, before, Mark(), observer.interval, replay); }
    }

    /** Window after window, until the last one, an agreed stop or an exception. */
    method WindowLoop(windows: seq<Window>) returns (ok: bool, i: nat)
      requires Ready() && windows == Windows(layout, epochSampleOffset)
      modifies this, observer
      ensures unchanged(`epoch) && SafeMeansCommitted() && observer.Good() && (!ok ==> !stopAgreed)
      ensures Ran(env, old(Now()), Now(), ok) && clock <= old(clock) + Calls(windows, replay)
      ensures ok ==>
                && Ready() && i <= |windows| && (stopAgreed || i == |windows|)
                && WindowsDone(layout, epoch, windows, i, old(Mark()), Mark(), observer.interval, replay)
    {
      ghost var start, from := Now(), Mark();
      ok, i := true, 0;
      NoneDone(layout, epoch, windows, from, observer.interval, replay);
      while i < |windows| && !stopAgreed
        invariant ok && i <= |windows| && unchanged(`epoch) && Ready() && Ran(env, start, Now(), true)
        invariant WindowsDone(layout, epoch, windows, i, from, Mark(), observer.interval, replay)
      {
        ok := RunNextWindow(windows, i, start, from);
        if !ok { break; }
        i := i + 1;
      }
    }

    /** The windows of an epoch, until the last one or an agreed stop; the ranks agree after each. */
    method RunWindows(windows: seq<Window>) returns (ok: bool)
      requires Ready() && windows == Windows(layout, epochSampleOffset)
      modifies this, observer
      ensures unchanged(`epoch) && SafeMeansCommitted() && observer.Good() && (!ok ==> !stopAgreed)
      ensures Ran(env, old(Now()), Now(), ok) && clock <= old(clock) + Calls(windows, replay)
      ensures ok ==> Ready()
      ensures ok ==> WindowsRan(layout, epoch, old(Mark()), Mark(), stopAgreed, observer.interval, replay)
    {
      ghost var from, i := Mark(), 0;
      ok, i := WindowLoop(windows);
      if ok { SomeDone(layout, epoch, windows, i, from, Mark(), stopAgreed, observer.interval, replay); }
    }

    /** Enter the epoch: a finished previous epoch wraps the offset. */
    method BeginEpoch(e: int) returns (ok: bool)
      requires Ready() && (epoch == e || (epoch == e - 1 && epochSampleOffset == layout.numSamples))
      modifies this, sampler
      ensures Ready() && epoch == e && unchanged(`trained, `optimizerSteps)
      ensures clock == old(clock) + 1 && (ok <==> !env.raises(old(clock)))
      ensures Agreed(env, old(stopAgreed), old(agreements), stopAgreed, agreements)
      ensures agreements == old(agreements) + if ok && !old(stopAgreed) then 1 else 0
      ensures epochSampleOffset == if old(epoch) < e then 0 else old(epochSampleOffset)
      ensures ok ==> sampler.startOffset == epochSampleOffset && sampler.epoch == e
    {
      if epoch < e && epochSampleOffset == layout.numSamples {
        EpochEnd(epoch, layout.numSamples);
        ZeroIsBoundary(layout);
        epochSampleOffset := 0;
      }
      epoch := e;
      ok := Call();  // on_epoch_begin
      if ok {
        sampler.SetEpoch(e, epochSampleOffset);
        AgreeUnlessStopped();
      }
    }

    /**
      Leave the epoch: without a stop, a dropped tail moves the cursor to the next epoch, but the epoch
      number follows only after the observers. If they raise in between, the cursor disagrees.
     */
    method FinishEpoch(e: int) returns (ok: bool)
      requires Ready() && epoch == e
      requires !stopAgreed && layout.tailPolicy == Flush ==> epochSampleOffset == layout.numSamples
      modifies this
      ensures Configured() && unchanged(`trained, `optimizerSteps, `stopAgreed, `agreements)
      ensures clock == old(clock) + 1 && (ok <==> !env.raises(old(clock)))
      ensures ok ==> Ready()
      ensures ok && stopAgreed ==> epoch == e && unchanged(`epochSampleOffset)
      ensures ok && !stopAgreed ==>
                if old(epochSampleOffset) == layout.numSamples
                then epoch == e && unchanged(`epochSampleOffset)
                else epoch == e + 1 && epochSampleOffset == 0
      ensures !ok ==> epoch == e
      ensures !ok ==>
                if !stopAgreed && old(epochSampleOffset) < layout.numSamples
                then Overcounting()
                else SafeMeansCommitted()
    {
      var dropped := 0;
      EpochEnd(e, layout.numSamples);
      ZeroIsBoundary(layout);
      if !stopAgreed {
        dropped := layout.numSamples - epochSampleOffset;
        if layout.tailPolicy == Drop && dropped > 0 {
          consumedSamples := consumedSamples + dropped;
          epochSampleOffset := 0;
        }
      }
      ok := Call();  // on_epoch_end
      if ok && dropped != 0 { epoch := e + 1; }
    }

    /** The windows of an epoch that has begun: `from` and `start` are where it did, at the loop's top. */
    method RunBegun(ghost start: Moment, ghost from: Reached) returns (ok: bool)
      requires Ready() && sampler.startOffset == epochSampleOffset && Ran(env, start, Now(), true)
      requires Mark()
            == from.(offset := epochSampleOffset, clock := from.clock + 1,
                     agreements := from.agreements + if start.stopped then 0 else 1)
      modifies this, observer
      ensures unchanged(`epoch) && SafeMeansCommitted() && observer.Good() && Ran(env, start, Now(), ok)
      ensures ok ==> Ready()
      ensures WindowsMade(layout, replay, observer.interval, epoch, old(epochSampleOffset), from, start.stopped, Mark(),
                          stopAgreed, ok)
    {
      ghost var at, begin := Now(), Mark();
      var windows := sampler.WindowList();
      ok := RunWindows(windows);
      RanChain(env, start, at, Now(), ok);
      if ok {
        EpochOpened(layout, replay, observer.interval, epoch, begin.offset, from, start.stopped, begin, Mark(),
          stopAgreed);
      }
    }

    /** The epoch up to its end: its windows from the cursor, until the last one or an agreed stop. */
    method RunEpochWindows(e: int) returns (ok: bool)
      requires Ready() && (epoch == e || (epoch == e - 1 && epochSampleOffset == layout.numSamples))
      modifies this, sampler, observer
      ensures Configured() && observer.Good() && SafeMeansCommitted() && Ran(env, old(Now()), Now(), ok)
      ensures ok ==> Ready() && epoch == e
      ensures var from := if old(epoch) < e then 0 else old(epochSampleOffset);
              && (ok ==> Boundary(layout, from))
              && WindowsMade(layout, replay, observer.interval, e, from, old(Mark()), old(stopAgreed), Mark(),
                             stopAgreed, ok)
    {
      ghost var start, from := Now(), Mark();
      ok := BeginEpoch(e);
      if ok { ok := RunBegun(start, from); }
    }

    /** The end of an epoch that began with the cursor at `offset`; `from` and `start` are the loop's top before it. */
    method CloseEpoch(e: int, ghost offset: nat, ghost start: Moment, ghost from: Reached) returns (ending: Ending)
      requires Ready() && epoch == e && Boundary(layout, offset) && Ran(env, start, Now(), true)
      requires WindowsMade(layout, replay, observer.interval, e, offset, from, start.stopped, Mark(), stopAgreed, true)
      modifies this
      ensures Configured() && observer.Good() && ending != RaisedInside && Ran(env, start, Now(), ending == Finished)
      ensures EpochMade(layout, replay, observer.interval, e, offset, from, start.stopped, Mark(), stopAgreed, ending,
                        old(epochSampleOffset))
      ensures if ending == RaisedAtEpochEnd && !stopAgreed && DropsTail(layout, offset)
              then Overcounting() && epoch == e else SafeMeansCommitted()
      ensures ending == Finished ==>
                && Ready()
                && if stopAgreed then epoch == e && epochSampleOffset == old(epochSampleOffset)
                   else (epoch == e && epochSampleOffset == layout.numSamples)
                        || (epoch == e + 1 && epochSampleOffset == 0)
    {
      ghost var at, mid := Now(), Mark();
      TailLeft(layout, offset);
      var ok := FinishEpoch(e);
      ending := if ok then Finished else RaisedAtEpochEnd;
      RanChain(env, start, at, Now(), ok);
      EpochClosed(layout, replay, observer.interval, e, offset, from, start.stopped, mid, Mark(), stopAgreed, ending);
    }

    /**
      One epoch. It commits a contiguous run of windows from the cursor, with an agreement at its begin and one after
      each of them; unless a stop was agreed it reaches the last window, with exactly the commits that scheduling was
      told. It leaves a cursor that disagrees exactly when the epoch's end raises, no stop was agreed and a tail is
      dropped.
     */
    method TrainGlobalEpoch(e: int) returns (ending: Ending, ghost to: nat)
      requires Ready() && (epoch == e || (epoch == e - 1 && epochSampleOffset == layout.numSamples))
      modifies this, sampler, observer
      ensures Configured() && observer.Good() && (ending == Finished ==> Ready())
      ensures Ran(env, old(Now()), Now(), ending == Finished)
      ensures var from := if old(epoch) < e then 0 else old(epochSampleOffset);
              && EpochMade(layout, replay, observer.interval, e, from, old(Mark()), old(stopAgreed), Mark(), stopAgreed,
                           ending, to)
              && (if ending == RaisedAtEpochEnd && !stopAgreed && DropsTail(layout, from)
                  then Overcounting() && epoch == e else SafeMeansCommitted())
      ensures ending == Finished && !stopAgreed ==>
                (epoch == e && epochSampleOffset == layout.numSamples) || (epoch == e + 1 && epochSampleOffset == 0)
      ensures ending == Finished && stopAgreed ==> epoch == e && epochSampleOffset == to
    {
      ghost var offset, start, from := if epoch < e then 0 else epochSampleOffset, Now(), Mark();
      var ok := RunEpochWindows(e);
      to := epochSampleOffset;
      if ok {
        ending := CloseEpoch(e, offset, start, from);
      } else {
        ending := RaisedInside;
        EpochBroken(layout, replay, observer.interval, e, offset, from, start.stopped, Mark(), stopAgreed, to);
      }
    }

    /** What a run from here starts with. */
    ghost function Starting(): Run
      reads this, observer
    {
      Run(layout, replay, observer.interval, env, observer.found, epoch, epochSampleOffset, optimizerSteps,
          observer.Last(), clock, stopAgreed, agreements)
    }

    /** At epoch `e`, number `done` of the run, before its first agreement or right after it. */
    ghost predicate AtEpoch(run: Run, before: seq<int>, e: int, done: nat, asked: nat)
      reads this, sampler, observer
    {
      && Ready() && (epoch == e || (epoch == e - 1 && epochSampleOffset == layout.numSamples))
      && run.layout == layout && run.replay == replay && run.interval == observer.interval && run.env == env
      && run.Valid() && e == run.epoch + done
      && Resumed(run.offset, done) == (if epoch < e then 0 else epochSampleOffset)
      && Ran(env, run.Begin(), Now(), true) && EpochsDone(run, before, done, Mark())
      && agreements == run.AgreementAfter(done) + asked
    }

    /** What the run left when epoch number `done` raised at its end after dropping a tail. */
    ghost predicate LeftOver(run: Run, done: nat)
      requires ValidLayout(run.layout)
      reads this, observer
    {
      && Overcounting() && epoch == run.epoch + done && optimizerSteps == run.StepAfter(done + 1)
      && observer.Last() == run.SavingAt(done + 1)
    }

    /** Epoch number `done` of a run came out like this, and left the state that goes with it. */
    ghost predicate EpochOutcome(run: Run, before: seq<int>, e: int, done: nat, ending: Ending, to: nat)
      requires run.Valid() && run.layout == layout
      reads this, sampler, observer
    {
      && observer.Good() && Ran(env, run.Begin(), Now(), ending == Finished)
      && CameOut(run, before, done, Mark(), stopAgreed, ending, to)
      && (if ending == RaisedAtEpochEnd && !stopAgreed && DropsTail(layout, Resumed(run.offset, done))
          then LeftOver(run, done) else SafeMeansCommitted())
      && (ending == Finished ==> Ready() && (!stopAgreed ==> AtEpoch(run, before, e + 1, done + 1, 0)))
    }

    /** Epoch number `done` of a run, agreed on. */
    method RunEpoch(e: int, ghost run: Run, ghost before: seq<int>, ghost done: nat)
      returns (ending: Ending, ghost to: nat)
      requires AtEpoch(run, before, e, done, 1) && !stopAgreed && !run.stopped
      modifies this, sampler, observer
      ensures EpochOutcome(run, before, e, done, ending, to)
    {
      ghost var from, at := Mark(), Now();
      ending, to := TrainGlobalEpoch(e);
      RanChain(env, run.Begin(), at, Now(), ending == Finished);
      EpochInRun(run, before, done, from, Mark(), stopAgreed, ending, to);
    }

    /** The agreement before an epoch: it stops the run there, or lets the epoch begin. */
    method AgreeBefore(e: int, ghost run: Run, ghost before: seq<int>, ghost done: nat)
      requires AtEpoch(run, before, e, done, 0) && !stopAgreed && !run.stopped
      modifies this`stopAgreed, this`agreements
      ensures if stopAgreed then EpochOutcome(run, before, e, done, Finished, Resumed(run.offset, done))
              else AtEpoch(run, before, e, done, 1)
    {
      ghost var at := Now();
      AgreeUnlessStopped();
      RanChain(env, run.Begin(), at, Now(), true);
      if stopAgreed { EpochNotBegun(run, before, done, Mark()); }
    }

    /** The ranks agree before an epoch; without a stop it runs. */
    method AgreeAndRunEpoch(e: int, ghost run: Run, ghost before: seq<int>, ghost done: nat)
      returns (ending: Ending, ghost to: nat)
      requires AtEpoch(run, before, e, done, 0) && !stopAgreed && !run.stopped
      modifies this, sampler, observer
      ensures EpochOutcome(run, before, e, done, ending, to)
    {
      ending, to := Finished, Resumed(run.offset, done);
      AgreeBefore(e, run, before, done);
      if !stopAgreed { ending, to := RunEpoch(e, run, before, done); }
    }

    /** The epochs of a run, until the last one or an agreed stop. */
    method RunEpochs(nEpoch: int) returns (ending: Ending, ghost done: nat, ghost to: nat)
      requires Ready()
      modifies this, sampler, observer
      ensures observer.Good() && Ran(env, old(Now()), Now(), ending == Finished)
      ensures var run, epochs := old(Starting()), if old(epoch) < nEpoch then nEpoch - old(epoch) else 0;
              && RunCameOut(run, old(trained), epochs, Mark(), stopAgreed, ending, done, to)
              && (if ending == RaisedAtEpochEnd && !stopAgreed && DropsTail(layout, Resumed(run.offset, done))
                  then LeftOver(run, done) else SafeMeansCommitted())
    {
      ghost var run, before, epochs := Starting(), trained, if epoch < nEpoch then nEpoch - epoch else 0;
      var e := epoch;
      done, to, ending := 0, epochSampleOffset, Finished;
      NothingYet(layout, trained, epoch, epochSampleOffset);
      while e < nEpoch && !stopAgreed
        invariant AtEpoch(run, before, e, done, 0) && ending == Finished && to == Resumed(run.offset, done)
        invariant stopAgreed == run.stopped && (run.stopped ==> done == 0) && (done == 0 || e <= nEpoch)
        decreases nEpoch - e
      {
        ending, to := AgreeAndRunEpoch(e, run, before, done);
        if ending != Finished || stopAgreed {
          EndsInEpoch(run, before, epochs, Mark(), stopAgreed, ending, done, to);
          break;
        }
        e := e + 1;
        done := done + 1;
        to := 0;
      }
      if ending == Finished && stopAgreed == run.stopped { EndsBetween(run, before, epochs, Mark(), done); }
    }

    /** One save of the shutdown. */
    method SaveHere() returns (ok: bool)
      requires observer.Valid()
      modifies this`clock, observer
      ensures clock == old(clock) + 1 && ok == !env.raises(old(clock)) && observer.Valid()
      ensures observer.published
           == if Lands(env, old(clock)) && Here().Where() !in old(observer.published)
              then old(observer.published)[Here().Where() := Here()] else old(observer.published)
      ensures if ok then observer.lastStep == optimizerSteps && observer.lastCursor == consumedSamples
              else observer.lastStep == old(observer.lastStep) && observer.lastCursor == old(observer.lastCursor)
    {
      var landed := Lands(env, clock);
      ok := Call();
      observer.Save(Here(), ok, landed);
    }

    /** The state has moved since the last save, or since the run began. */
    predicate Changed()
      reads this, observer
    {
      optimizerSteps != observer.lastStep || consumedSamples != observer.lastCursor
    }

    /** The session hands a safe state to the observer twice; the second time only if the first save did not return. */
    method Shutdown()
      requires observer.Valid()
      modifies this`clock, observer
      ensures observer.Valid()
      ensures var pending := checkpointSafe && (old(Changed()) || !old(observer.saved));
              var again := old(Changed()) && env.raises(old(clock));
              && clock == old(clock) + (if !pending then 0 else if again then 2 else 1)
              && observer.published
                 == if pending && (Lands(env, old(clock)) || (again && Lands(env, old(clock) + 1)))
                       && Here().Where() !in old(observer.published)
                    then old(observer.published)[Here().Where() := Here()] else old(observer.published)
    {
      var ok := true;
      if checkpointSafe && !(observer.saved && !Changed()) { ok := SaveHere(); }
      if checkpointSafe && Changed() { ok := SaveHere(); }
    }

    /** Whether the checkpoint an epoch would leave is there already, as told before the run. */
    lemma TakenBefore(run: Run, done: nat)
      requires ValidLayout(run.layout) && run.found == observer.found && LeftOver(run, done)
      ensures Here().Where() in observer.published <==> run.Taken(done)
    {
    }

    /** A run that ended without a disagreeing cursor publishes none at its shutdown. */
    lemma ShutdownAgrees(before: Checkpoints)
      requires SafeMeansCommitted() && observer.Valid() && observer.layout == layout
      requires forall d | d in before && d !in observer.found :: Agrees(layout, before[d])
      requires observer.published == before
            || (checkpointSafe && observer.published == before[Here().Where() := Here()])
      ensures observer.AllAgree()
    {
    }

    /** A run that ended with one publishes it unless its directory is taken or both saves fail. */
    lemma ShutdownDecides(before: Checkpoints, lands: bool)
      requires ValidLayout(layout) && observer.Valid() && observer.layout == layout && Overcounts(layout, Here())
      requires forall d | d in before && d !in observer.found :: Agrees(layout, before[d])
      requires forall d | d in observer.found :: d in before
      requires observer.published
            == if lands && Here().Where() !in before then before[Here().Where() := Here()] else before
      ensures observer.AllAgree() <==> !(lands && Here().Where() !in before)
    {
      OvercountedDisagrees(layout, Here());
      if lands && Here().Where() !in before { assert observer.published[Here().Where()] == Here(); }
    }

    /** A checkpoint of the run that disagrees stands where the lost epoch would leave one, and overcounts. */
    ghost predicate OneLost(run: Run, epochs: nat, done: nat)
      requires ValidLayout(layout) && run.layout == layout
      reads this, observer
    {
      forall d | d in observer.published && d !in observer.found && !Agrees(layout, observer.published[d]) ::
        && done < epochs && run.LostAt(done) && d == Directory(run.epoch + done, run.StepAfter(done + 1))
        && Overcounts(layout, observer.published[d]) && observer.published[d].Where() == d
    }

    /** What the end of the epochs means for the checkpoints: nothing that disagrees, or the one left over. */
    method Conclude(ghost run: Run, ghost ending: Ending, ghost epochs: nat, ghost done: nat)
      requires run.layout == layout == observer.layout && run.env == env && run.found == observer.found
      requires ValidLayout(layout) && observer.Good() && Called(env, run.clock, clock, ending == Finished)
      requires if stopAgreed then run.StoppedAt(ending, clock, done) else run.EndedAt(ending, clock, epochs, done)
      requires if ending == RaisedAtEpochEnd && !stopAgreed && DropsTail(layout, Resumed(run.offset, done))
               then LeftOver(run, done) else SafeMeansCommitted()
      modifies this`clock, observer
      ensures old(clock) <= clock <= old(clock) + 2 && observer.Valid()
      ensures observer.AllAgree() <==> !run.Loses(epochs)
      ensures OneLost(run, epochs, done)
    {
      ghost var before, call := observer.published, clock;
      ghost var left := ending == RaisedAtEpochEnd && !stopAgreed && DropsTail(layout, Resumed(run.offset, done));
      if stopAgreed {
        StoppedLosesNothing(run, ending, call, epochs, done);
      } else {
        EndingDecides(run, ending, call, epochs, done);
      }
      if left { TakenBefore(run, done); }
      Shutdown();
      if left {
        ShutdownDecides(before, Lands(env, call) || Lands(env, call + 1));
      } else {
        ShutdownAgrees(before);
      }
    }

    /**
      The whole run. Its environment alone decides whether it leaves a checkpoint that disagrees with its epoch: it
      does exactly when it loses an epoch, one that drops a tail and is reached without a stop, whose end is the
      first call to raise, with no checkpoint of its last step there yet, and with a save of the shutdown reaching
      the disk. There is at most one such checkpoint.
      A run that returns ends where the answers to its agreements say: after all epochs, if none of the agreements
      they make says stop, and else at the first that does. It has trained `done` whole epochs in order and the
      start of the next one up to `to`; without a stop the commits are the ones scheduling counted, and with one those
      of the windows up to it.
     */
    method TrainerLoop(nEpoch: int) returns (ending: Ending, ghost done: nat, ghost to: nat, ghost end: Moment)
      requires Ready()
      modifies this, sampler, observer
      ensures Ran(env, old(Now()), end, ending == Finished) && end.stopped == stopAgreed
      ensures end.agreements == agreements && end.clock <= clock <= end.clock + 2
      ensures observer.Valid()
      ensures var run, epochs := old(Starting()), if old(epoch) < nEpoch then nEpoch - old(epoch) else 0;
              && (observer.AllAgree() <==> !run.Loses(epochs))
              && OneLost(run, epochs, done)
              && (ending == Finished ==>
                    && run.EndsWhereAgreed(epochs, stopAgreed, agreements, done, to)
                    && Resumed(run.offset, done) <= to <= layout.numSamples
                    && trained == TrainedUpto(layout, old(trained), run.epoch, run.offset, done, to))
              && (ending == Finished ==>
                    if stopAgreed && !run.stopped then run.StepsAt(agreements - 1, done, optimizerSteps)
                    else optimizerSteps == run.StepAfter(done))
    {
      ghost var run, epochs := Starting(), if epoch < nEpoch then nEpoch - epoch else 0;
      ending, done, to := RunEpochs(nEpoch);
      end := Now();
      Conclude(run, ending, epochs, done);
    }
  }

  // ---------- Resuming from a disagreeing cursor ----------

  /** What resuming checks of a stored cursor (the layout is unchanged). */
  ghost predicate ResumeAccepts(l: Layout, s: Snapshot)
    requires ValidLayout(l)
  {
    0 <= s.offset && Boundary(l, s.offset) && s.consumed >= s.offset
  }

  /** The disagreeing cursor is accepted on resume, which then repeats the epoch it had counted. */
  lemma DroppedTailRepeatsEpoch(l: Layout, s: Snapshot)
    requires ValidLayout(l) && Overcounts(l, s) && s.epoch >= 0
    ensures ResumeAccepts(l, s)
    ensures s.consumed - (EpochStart(s.epoch, l.numSamples) + s.offset) == l.numSamples
  {
    ZeroIsBoundary(l);
    EpochEnd(s.epoch, l.numSamples);
    MulNonNegative(s.epoch + 1, l.numSamples);
  }

  // ---------- Examples ----------

  /** Three samples in windows of two, of which the last sample is dropped; one update per window. */
  const ODD: Layout := Layout(3, 1, 2, 1, Drop)
  const OFFLINE: Replay := Replay(false, 1, 0)

  lemma ExampleWindow()
    ensures Windows(ODD, 0) == [Window(0, 2, 1)] && CommitCount(Windows(ODD, 0), 1, 0) == 1
  {
    assert WindowsFrom(3, 2, 2, Drop, 2) == [];
    assert Windows(ODD, 0) == [Window(0, 2, 1)];
    OneWindowCommits(Window(0, 2, 1), OFFLINE);
    ReplayVisitsEachOnce(2, 1, 0);
  }

  /** The run from the start of the first epoch, into an empty directory, of which only call 6 raises. */
  ghost predicate Example(run: Run) {
    && run.layout == ODD && run.replay == OFFLINE && run.epoch == 0 && run.offset == 0 && run.step == 0
    && run.clock == 0 && run.saving == Saving(0, None) && run.found == map[]
    && !run.stopped && (forall c: nat :: run.env.raises(c) <==> c == 6) && forall a: nat :: !run.env.stops(a)
  }

  lemma ExampleRun(run: Run)
    requires Example(run)
    ensures run.CallAfter(1) == 7 && run.StepAfter(1) == 1 && (run.Taken(0) <==> run.interval <= 1)
  {
    ExampleWindow();
    assert run.SavingAt(0) == Saving(0, None) && run.StepAfter(0) == 0 && RunCalls(ODD, 0, 0, OFFLINE) == 0;
    CommitsMatchSteps(ODD, 0, false, 1, 0);
    OneWindowSaving(Window(0, 2, 1), 0, 0, Saving(0, None), run.interval, OFFLINE);
  }

  lemma ExampleLoses(run: Run)
    requires Example(run)
    ensures run.Loses(1) <==> run.interval > 1
  {
    ExampleRun(run);
    assert run.LostAt(0) <==> run.interval > 1;
    if run.Loses(1) {
      var d: nat :| d < 1 && run.LostAt(d);
      assert d == 0;
    }
  }

  /**
    Three samples, windows of two, and an observer that raises when the first epoch ends. Saving at every step, the
    epoch's last step has its checkpoint by then and keeps it; saving less often, the shutdown leaves one that
    disagrees and is accepted on resume.
   */
  method DroppedTailExample(interval: int) returns (published: Checkpoints)
    ensures ValidLayout(ODD)
    ensures interval <= 1 ==> forall d | d in published :: Agrees(ODD, published[d])
    ensures interval > 1 ==>
        exists d :: d in published && !Agrees(ODD, published[d]) && ResumeAccepts(ODD, published[d])
  {
    var sampler := new GlobalBatchSampler(ODD, 0, 0, 0);
    var observer := new CheckpointObserver(ODD, interval, map[], 0, 0);
    var env := Environment(call => call == 6, call => MetricCommit, call => false, agreement => false);
    var t := new Trainer(ODD, OFFLINE, env, sampler, observer, 0, 0, 0);
    ExampleLoses(t.Starting());
    var ending, done, to, end := t.TrainerLoop(1);
    published := observer.published;
    if interval > 1 {
      ghost var d :| d in published && !Agrees(ODD, published[d]);
      DroppedTailRepeatsEpoch(ODD, published[d]);
    }
  }

  /** A commit whose metrics raise keeps its counters: the step counts although the commit failed. */
  method MetricFailureExample() returns (ok: bool, steps: int, consumed: int)
    ensures !ok && steps == 1 && consumed == 2
  {
    var sampler := new GlobalBatchSampler(ODD, 0, 0, 0);
    var observer := new CheckpointObserver(ODD, 1, map[], 0, 0);
    var env := Environment(call => true, call => MetricCommit, call => false, agreement => false);
    var t := new Trainer(ODD, OFFLINE, env, sampler, observer, 0, 0, 0);
    t.pendingSamples, t.open := 2, 1;
    ok := t.CommitGlobalUpdate(true);
    steps, consumed := t.optimizerSteps, t.consumedSamples;
  }
}
