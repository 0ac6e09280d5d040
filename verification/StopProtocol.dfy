/**
  What the ranks' posts look like, whatever the interleaving and the signals: the order in which the trainer's
  loops agree and reduce, what the commits are, and how far a run still goes after a stop was requested.
 */
module StopProtocol {
  import opened Sequences
  import opened StopAgreement

  // ---------- The order of the posts ----------

  /** What may directly follow a post: an agreement before every epoch, at its begin, and after every window. */
  predicate Follows(p: Plan, a: Kind, b: Kind) {
    match b
    case Agree(LoopCheck, e, w) =>
      && w == 0 && e < p.epochs && a.Agree? && a.epoch == e - 1
      && ((a.at == EpochCheck && p.windows(e - 1) == 0) || (a.at == CommitCheck && a.window + 1 >= p.windows(e - 1)))
    case Agree(EpochCheck, e, w) => w == 0 && a == Agree(LoopCheck, e, 0)
    case Agree(CommitCheck, e, w) => a.Totals? && a.epoch == e && a.window == w && a.update + 1 >= p.updates(e, w)
    case Gradients(e, w, u) =>
      if u > 0 then u < p.updates(e, w) && a == Totals(e, w, u - 1)
      else w < p.windows(e) && a == if w > 0 then Agree(CommitCheck, e, w - 1) else Agree(EpochCheck, e, 0)
    case Totals(e, w, u) => a == Gradients(e, w, u)
  }

  lemma SettleSilent(p: Plan, c: Control)
    ensures Local(p, c).Silent? ==> Settle(p, c) == Settle(p, Local(p, c).next)
    ensures !Local(p, c).Silent? ==> Settle(p, c) == c
  {
  }

  /** Between epochs a rank stops or enters the agreement before the next one. */
  lemma SettleLoop(p: Plan, c: Control)
    requires c.pc == LoopTop
    ensures var d := Settle(p, c);
            if c.epoch >= p.epochs || c.agreed then d.pc == Stopped else d == c
  {
    SettleSilent(p, c);
    SettleSilent(p, c.(pc := Stopped));
  }

  lemma SettleEnd(p: Plan, c: Control)
    requires c.pc == EpochEnd
    ensures Settle(p, c) == Settle(p, c.(pc := LoopTop, epoch := c.epoch + 1))
  {
    SettleSilent(p, c);
  }

  /** At the top of a window: the next update, or the next epoch's agreement, or the end. */
  lemma SettleWindow(p: Plan, c: Control)
    requires c.pc == WindowTop
    ensures var d := Settle(p, c);
            if c.agreed then d.pc == Stopped
            else if c.window < p.windows(c.epoch) then d == c.(pc := UpdateTop, update := 0)
            else if c.epoch + 1 >= p.epochs then d.pc == Stopped
            else d == c.(pc := LoopTop, epoch := c.epoch + 1)
  {
    SettleSilent(p, c);
    if c.window >= p.windows(c.epoch) || c.agreed {
      SettleEnd(p, c.(pc := EpochEnd));
      SettleLoop(p, c.(pc := LoopTop, epoch := c.epoch + 1));
    } else {
      SettleSilent(p, c.(pc := UpdateTop, update := 0));
    }
  }

  /** At a commit: a further update of the window, or the agreement after it. */
  lemma SettleCommitted(p: Plan, c: Control)
    requires c.pc == Committed
    ensures Settle(p, c)
         == if c.update + 1 < p.updates(c.epoch, c.window) then c.(pc := UpdateTop, update := c.update + 1) else c
  {
    SettleSilent(p, c);
    SettleSilent(p, c.(pc := UpdateTop, update := c.update + 1));
  }

  lemma SettleBegin(p: Plan, c: Control)
    requires c.pc == EpochBegin && !c.agreed
    ensures Settle(p, c) == c
  {
    SettleSilent(p, c);
  }

  /** From one collective to the next one a rank posts. */
  lemma NextKind(p: Plan, c: Control, stop: bool)
    requires Local(p, c).Collective? && Local(p, Settle(p, Receive(c, stop))).Collective?
    ensures Follows(p, Local(p, c).kind, Local(p, Settle(p, Receive(c, stop))).kind)
  {
    var d := Receive(c, stop);
    match c.pc {
      case LoopTop => if !stop { SettleBegin(p, d); } else { SettleSilent(p, d); }
      case EpochBegin => SettleWindow(p, d);
      case UpdateTop => SettleSilent(p, d);
      case Reducing => SettleCommitted(p, d);
      case Committed => SettleWindow(p, d);
    }
  }

  lemma FirstKind(p: Plan)
    ensures Local(p, Settle(p, Start(p))).Collective? ==>
              Local(p, Settle(p, Start(p))).kind == Agree(LoopCheck, p.start, 0)
  {
    SettleLoop(p, Start(p));
  }

  lemma ExpectNext(p: Plan, results: seq<bool>, k: nat)
    requires 0 < k <= |results|
    ensures Expect(p, results[..k]) == Settle(p, Receive(Expect(p, results[..k - 1]), results[k - 1]))
  {
    assert results[..k][..k - 1] == results[..k - 1];
  }

  lemma NextPost(p: Plan, rank: Rank, results: seq<bool>, k: nat)
    requires RankInvariant(p, rank, results) && k < |rank.log|
    ensures k == 0 ==> rank.log[0].kind == Agree(LoopCheck, p.start, 0)
    ensures k > 0 ==> Follows(p, rank.log[k - 1].kind, rank.log[k].kind)
  {
    PostedAt(p, rank, results, k);
    if k == 0 {
      FirstKind(p);
    } else {
      PostedAt(p, rank, results, k - 1);
      ExpectNext(p, results, k);
      NextKind(p, Expect(p, results[..k - 1]), results[k - 1]);
    }
  }

  /** In every run, every rank begins with the agreement before the first epoch, and each post follows the last. */
  lemma PostsFollow(p: Plan, n: nat, states: seq<State>, i: nat, r: nat, k: nat)
    requires Run(p, n, states) && i < |states| && r < n && |states[i].ranks| == n && k < |states[i].ranks[r].log|
    ensures var log := states[i].ranks[r].log;
            if k == 0 then log[0].kind == Agree(LoopCheck, p.start, 0)
            else Follows(p, log[k - 1].kind, log[k].kind)
  {
    RunKeepsInvariant(p, n, states, i);
    NextPost(p, states[i].ranks[r], states[i].results, k);
  }

  /** No window begins without the agreements that may stop the run before it. */
  lemma WindowsBeginAgreed(p: Plan, n: nat, states: seq<State>, i: nat, r: nat, k: nat)
    requires Run(p, n, states) && i < |states| && r < n && |states[i].ranks| == n && k < |states[i].ranks[r].log|
    requires var kind := states[i].ranks[r].log[k].kind; kind.Gradients? && kind.update == 0
    ensures var log, e, w := states[i].ranks[r].log, states[i].ranks[r].log[k].kind.epoch,
                             states[i].ranks[r].log[k].kind.window;
            if w > 0 then k > 0 && log[k - 1].kind == Agree(CommitCheck, e, w - 1)
            else k > 1 && log[k - 1].kind == Agree(EpochCheck, e, 0) && log[k - 2].kind == Agree(LoopCheck, e, 0)
  {
    PostsFollow(p, n, states, i, r, k);
    if states[i].ranks[r].log[k].kind.window == 0 { PostsFollow(p, n, states, i, r, k - 1); }
  }

  // ---------- What is committed ----------

  /** The commits that a list of posts stands for: one for every reduction of totals. */
  function CommitsOf(posts: seq<Post>): seq<Commit> {
    if posts == [] then []
    else
      var last := posts[|posts| - 1].kind;
      CommitsOf(posts[..|posts| - 1])
      + if last.Totals? then [Commit(last.epoch, last.window, last.update)] else []
  }

  lemma {:induction false} CommitsOfConcat(a: seq<Post>, b: seq<Post>)
    ensures CommitsOf(a + b) == CommitsOf(a) + CommitsOf(b)
  {
    if b == [] {
      assert a + b == a;
    } else {
      CommitsOfConcat(a, b[..|b| - 1]);
      assert (a + b)[..|a + b| - 1] == a + b[..|b| - 1];
    }
  }

  lemma OneReceived(p: Plan, c: Control, stop: bool)
    requires Local(p, c).Collective?
    ensures var kind := Local(p, c).kind;
            Settle(p, Receive(c, stop)).commits
            == c.commits + if kind.Totals? then [Commit(kind.epoch, kind.window, kind.update)] else []
  {
    SettleKeepsVerdict(p, Receive(c, stop));
  }

  lemma CommitsNext(log: seq<Post>, k: nat)
    requires 0 < k <= |log|
    ensures var kind := log[k - 1].kind;
            CommitsOf(log[..k])
            == CommitsOf(log[..k - 1]) + if kind.Totals? then [Commit(kind.epoch, kind.window, kind.update)] else []
  {
    assert log[..k][..k - 1] == log[..k - 1];
  }

  lemma {:induction false} ExpectedCommits(p: Plan, rank: Rank, results: seq<bool>, k: nat)
    requires RankInvariant(p, rank, results) && k <= rank.delivered
    ensures Expect(p, results[..k]).commits == CommitsOf(rank.log[..k])
  {
    if k == 0 {
      SettleKeepsVerdict(p, Start(p));
    } else {
      ExpectedCommits(p, rank, results, k - 1);
      PostedAt(p, rank, results, k - 1);
      OneReceived(p, Expect(p, results[..k - 1]), results[k - 1]);
      ExpectNext(p, results, k);
      CommitsNext(rank.log, k);
    }
  }

  /** A rank has committed exactly the reductions of totals that it has left. */
  lemma CommitsAreTotals(p: Plan, n: nat, states: seq<State>, i: nat, r: nat)
    requires Run(p, n, states) && i < |states| && r < n && |states[i].ranks| == n
    ensures var rank := states[i].ranks[r];
            rank.delivered <= |rank.log| && rank.control.commits == CommitsOf(rank.log[..rank.delivered])
  {
    RunKeepsInvariant(p, n, states, i);
    var rank := states[i].ranks[r];
    ExpectedCommits(p, rank, states[i].results, rank.delivered);
    SettleKeepsVerdict(p, rank.control);
  }

  // ---------- After a request ----------

  /** The window that is open after these posts: under way, or agreed on and next. */
  function Open(posts: seq<Post>): Option<(int, nat)> {
    if posts == [] then None
    else
      match posts[|posts| - 1].kind
      case Agree(LoopCheck, _, _) => None
      case Agree(EpochCheck, e, _) => Some((e, 0))
      case Agree(CommitCheck, e, w) => Some((e, w + 1))
      case Gradients(e, w, _) => Some((e, w))
      case Totals(e, w, _) => Some((e, w))
  }

  /** The window a reduction belongs to. */
  function WindowOf(kind: Kind): (int, nat) {
    (kind.epoch, kind.window)
  }

  lemma FollowsInWindow(p: Plan, posts: seq<Post>, b: Kind)
    requires posts != [] && Follows(p, posts[|posts| - 1].kind, b) && !b.Agree?
    ensures Open(posts) == Some(WindowOf(b))
  {
  }

  /** An agreement posted after the request leaves no post behind it. */
  lemma NoPostBehind(p: Plan, n: nat, states: seq<State>, i: nat, r: nat, q: nat, k: nat)
    requires Run(p, n, states) && i < |states| && r < n && q < n && |states[i].ranks| == n
    requires states[i].ranks[r].requested && states[i].ranks[r].requestedAt <= k
    requires k + 1 < |states[i].ranks[q].log|
    ensures !states[i].ranks[q].log[k].kind.Agree?
  {
    RunKeepsInvariant(p, n, states, i);
    var s := states[i];
    SameCollectives(p, n, states, i, q, r);
    if s.ranks[q].log[k].kind.Agree? {
      RequestIsHonoured(p, n, states, i, r, k);
      NothingAfterStop(p, n, states, i, k, r, q);
    }
  }

  /** Posts in the order of the trainer's loops. */
  ghost predicate Chained(p: Plan, log: seq<Post>) {
    (log != [] ==> log[0].kind.Agree?) && forall k :: 0 < k < |log| ==> Follows(p, log[k - 1].kind, log[k].kind)
  }

  lemma {:induction false} SameWindow(p: Plan, log: seq<Post>, a: nat, k: nat)
    requires Chained(p, log) && a <= k < |log| && forall j :: a <= j <= k ==> !log[j].kind.Agree?
    ensures Open(log[..a]) == Some(WindowOf(log[k].kind))
  {
    assert Follows(p, log[k - 1].kind, log[k].kind);
    if a < k {
      SameWindow(p, log, a, k - 1);
    } else {
      FollowsInWindow(p, log[..a], log[k].kind);
    }
  }

  lemma LogIsChained(p: Plan, n: nat, states: seq<State>, i: nat, q: nat)
    requires Run(p, n, states) && i < |states| && q < n && |states[i].ranks| == n
    ensures Chained(p, states[i].ranks[q].log)
  {
    var log := states[i].ranks[q].log;
    if log != [] { PostsFollow(p, n, states, i, q, 0); }
    forall k | 0 < k < |log|
      ensures Follows(p, log[k - 1].kind, log[k].kind)
    {
      PostsFollow(p, n, states, i, q, k);
    }
  }

  lemma SameOpen(x: seq<Post>, y: seq<Post>, a: nat)
    requires a <= |x| && a <= |y| && (a > 0 ==> x[a - 1].kind == y[a - 1].kind)
    ensures Open(x[..a]) == Open(y[..a])
  {
  }

  lemma OnlyOpenWindow(p: Plan, n: nat, states: seq<State>, i: nat, r: nat, q: nat, k: nat)
    requires Run(p, n, states) && i < |states| && r < n && q < n && |states[i].ranks| == n
    requires states[i].ranks[r].requested && states[i].ranks[r].requestedAt <= |states[i].ranks[r].log|
    requires states[i].ranks[r].requestedAt <= k < |states[i].ranks[q].log|
    requires !states[i].ranks[q].log[k].kind.Agree?
    ensures var rank := states[i].ranks[r];
            Open(rank.log[..rank.requestedAt]) == Some(WindowOf(states[i].ranks[q].log[k].kind))
  {
    var x, y := states[i].ranks[r], states[i].ranks[q];
    forall j | x.requestedAt <= j < k
      ensures !y.log[j].kind.Agree?
    {
      NoPostBehind(p, n, states, i, r, q, j);
    }
    LogIsChained(p, n, states, i, q);
    SameWindow(p, y.log, x.requestedAt, k);
    SameCollectives(p, n, states, i, q, r);
    SameOpen(x.log, y.log, x.requestedAt);
  }

  lemma {:induction false} CommitsInWindow(posts: seq<Post>, open: Option<(int, nat)>)
    requires forall k :: 0 <= k < |posts| && !posts[k].kind.Agree? ==> open == Some(WindowOf(posts[k].kind))
    ensures forall c :: c in CommitsOf(posts) ==> open == Some((c.epoch, c.window))
  {
    if posts != [] { CommitsInWindow(posts[..|posts| - 1], open); }
  }

  lemma CommitsSplit(log: seq<Post>, before: nat, after: nat)
    requires before <= after <= |log|
    ensures CommitsOf(log[..after]) == CommitsOf(log[..before]) + CommitsOf(log[before..after])
  {
    CommitsOfConcat(log[..before], log[before..after]);
    assert log[..before] + log[before..after] == log[..after];
  }

  lemma {:induction false} LateCommits(p: Plan, n: nat, states: seq<State>, i: nat, r: nat, q: nat, before: nat,
        after: nat)
    requires Run(p, n, states) && i < |states| && r < n && q < n && |states[i].ranks| == n
    requires var x := states[i].ranks[r];
             x.requested && before <= after <= |states[i].ranks[q].log| && (before == after || x.requestedAt <= before)
    ensures var x := states[i].ranks[r];
            x.requestedAt <= |x.log|
            && forall c :: c in CommitsOf(states[i].ranks[q].log[before..after]) ==>
                 Open(x.log[..x.requestedAt]) == Some((c.epoch, c.window))
  {
    RunKeepsInvariant(p, n, states, i);
    var x, late := states[i].ranks[r], states[i].ranks[q].log[before..after];
    assert RankInvariant(p, x, states[i].results);
    forall k | 0 <= k < |late| && !late[k].kind.Agree?
      ensures Open(x.log[..x.requestedAt]) == Some(WindowOf(late[k].kind))
    {
      OnlyOpenWindow(p, n, states, i, r, q, before + k);
    }
    CommitsInWindow(late, Open(x.log[..x.requestedAt]));
  }

  /**
    Once a stop is requested of any rank, no rank commits an update of a window later than the one open at that
    rank when the request came: what any rank commits in posts made from then on belongs to that window.
   */
  lemma {:induction false} NoLaterWindow(p: Plan, n: nat, states: seq<State>, i: nat, r: nat, q: nat)
    requires Run(p, n, states) && i < |states| && r < n && q < n && |states[i].ranks| == n
    requires states[i].ranks[r].requested
    ensures var x, y := states[i].ranks[r], states[i].ranks[q];
            && x.requestedAt <= |x.log| && y.delivered <= |y.log|
            && var before := if x.requestedAt < y.delivered then x.requestedAt else y.delivered;
            && y.control.commits == CommitsOf(y.log[..before]) + CommitsOf(y.log[before..y.delivered])
            && forall c :: c in CommitsOf(y.log[before..y.delivered]) ==>
                 Open(x.log[..x.requestedAt]) == Some((c.epoch, c.window))
  {
    var x, y := states[i].ranks[r], states[i].ranks[q];
    var before := if x.requestedAt < y.delivered then x.requestedAt else y.delivered;
    CommitsAreTotals(p, n, states, i, q);
    CommitsSplit(y.log, before, y.delivered);
    LateCommits(p, n, states, i, r, q, before, y.delivered);
  }

  lemma LastPostAgrees(p: Plan, c: Control, stop: bool)
    requires Local(p, c).Collective? && Settle(p, Receive(c, stop)).pc == Stopped
    ensures Local(p, c).kind.Agree? && (stop ==> Settle(p, Receive(c, stop)).agreed)
  {
    SettleKeepsVerdict(p, Receive(c, stop));
    if c.pc == UpdateTop {
      SettleSilent(p, Receive(c, stop));
    } else if c.pc == Reducing {
      SettleCommitted(p, Receive(c, stop));
    }
  }

  lemma StoppedByLastPost(p: Plan, x: Rank, results: seq<bool>)
    requires RankInvariant(p, x, results) && !x.waiting && x.control.pc == Stopped && x.log != []
    ensures |x.log| == |results| && x.log[|x.log| - 1].kind.Agree?
    ensures results[|x.log| - 1] ==> x.control.agreed
  {
    var k := |x.log| - 1;
    StuckRank(p, x, results);
    assert results[..|results|] == results;
    PostedAt(p, x, results, k);
    ExpectNext(p, results, k + 1);
    LastPostAgrees(p, Expect(p, results[..k]), results[k]);
  }

  /** A request that reaches a rank before its last post ends the run by agreement, on every rank. */
  lemma RequestEndsRun(p: Plan, n: nat, states: seq<State>, i: nat, r: nat, q: nat)
    requires Run(p, n, states) && i < |states| && r < n && q < n && |states[i].ranks| == n && AllStopped(states[i])
    requires states[i].ranks[r].requested && states[i].ranks[r].requestedAt < |states[i].ranks[r].log|
    ensures states[i].ranks[q].control.agreed
  {
    RunKeepsInvariant(p, n, states, i);
    StoppedByLastPost(p, states[i].ranks[r], states[i].results);
    RequestIsHonoured(p, n, states, i, r, |states[i].ranks[r].log| - 1);
    SameCommits(p, n, states, i, q, r);
  }
}
