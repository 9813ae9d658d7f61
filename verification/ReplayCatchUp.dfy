/**
 When the reducing session is declared caught up: with the commit of the last delivery that was retained when its
 attempt opened, or on opening when nothing was left to replay; never before, and only once.
 */
module ReplayCatchUp {
  import opened Prelude
  import opened Batching
  import opened Intake
  import opened IntakeProgress
  import opened IntakeExactness
  import opened IntakeRefusals
  import opened Replay
  import opened ReplayExactness

  /** Up to here the commits of an attempt have succeeded. */
  function Saved(l: Lease): nat {
    if l.committed < AppliedThrough(l) then l.committed else AppliedThrough(l)
  }

  /** What is left of the replay is counted exactly, until nothing is left. */
  ghost predicate Counting<S, V>(s: Session<S, V>) {
    s.caughtUp.None? && s.lease.Some? && InOrder(s.lease.value) ==>
      Saved(s.lease.value) < s.lease.value.initialEnd && s.remaining == s.lease.value.initialEnd - Saved(s.lease.value)
  }

  /** Whatever fails, at least as many commits are awaited as are left of the replay. */
  predicate AtLeast<S, V>(s: Session<S, V>) {
    s.caughtUp.None? && s.lease.Some? ==>
      0 < s.remaining && s.lease.value.initialEnd <= s.lease.value.committed + s.remaining
  }

  /** What a turn does to the count: only a commit that succeeds takes one off. */
  lemma TurnCounts<S, V>(config: Config<S, V>, s: Session<S, V>, turn: Turn)
    requires s.lease.Some? && Enabled(s.lease.value, turn)
    ensures
      var l, t := s.lease.value, TakeTurn(config, s, turn);
      var saves := turn.Commits? && Resolved(l, l.committed) && l.committed < |s.log|;
      && t.log == s.log && t.lease == Some(Take(l, turn)) && Take(l, turn).initialEnd == l.initialEnd
      && Take(l, turn).base == l.base
      && Take(l, turn).committed == l.committed + (if turn.Commits? then 1 else 0)
      && (!saves ==> t.remaining == s.remaining && t.caughtUp == s.caughtUp)
      && (saves && s.caughtUp.None? && 0 < s.remaining ==>
            && t.remaining == s.remaining - 1
            && t.caughtUp == if s.remaining == 1 then Some(CatchUp(Some(s.log[l.committed].sequence), l.committed + 1))
                             else None)
      && (s.caughtUp.Some? ==> t.caughtUp == s.caughtUp)
  {
    hide Resolved, AppliedBatch, Batching.RunNext, Drain, Batching.Add, Batching.Cancel, HeadSucceeds, Backpressure;
  }

  lemma OpenCounts<S, V>(config: Config<S, V>, s: Session<S, V>)
    requires StreamOk(config, s) && Exact(config, s) && s.lease.None? && !s.ended
    ensures
      var t, n := Reopen(config, s), |s.reduced|;
      && n <= |s.log| && Counting(t) && AtLeast(t) && t.log == s.log
      && (s.caughtUp.None? && t.caughtUp.Some? ==>
            n == |s.log| && t.caughtUp == Some(CatchUp(if s.store.Some? then s.store else config.after, |s.log|)))
      && (s.caughtUp.Some? ==> t.caughtUp == s.caughtUp)
  {
    var n := |s.reduced|;
    assert config.policy.Valid() && Replay.Ordered(s.log) && n <= |s.log| && s.store == CursorAt(s.log, n);
    FirstBehindAt(s.log, n);
    hide Attached, InOrder, StreamOk, ReducedThrough;
    OpenAttached(config.policy, s.log, n);
    hide AppliedThrough;
  }

  lemma CommitCounts<S, V>(config: Config<S, V>, s: Session<S, V>, l: Lease)
    requires Attached(config.policy, s.log, l) && CanCommit(l) && s.lease == Some(l) && Counting(s)
    requires InOrder(l) && s.caughtUp.None?
    ensures Resolved(l, l.committed) <==> l.committed < AppliedThrough(l)
    ensures l.base <= l.committed < |s.log|
    ensures AppliedThrough(Commit(l)) == AppliedThrough(l)
  {
    AttachedFacts(config.policy, s.log, l);
    CommitBounds(l);
    AppliedThroughIs(l);
    hide Attached, Shaped, Paced, Progressing, Aligned, CommitsSettled, PrefixOrDoomed, RefusalInv, Whole, Admissible;
    ResolvedIffApplied(l, l.committed);
    hide AppliedEntries, Resolved, Rejected, Prefix, Untainted;
  }

  lemma TurnCounting<S, V>(config: Config<S, V>, s: Session<S, V>, turn: Turn)
    requires StreamOk(config, s) && Exact(config, s) && s.lease.Some? && TurnFits(s.log, s.lease.value, turn)
    requires Counting(s)
    ensures Counting(TakeTurn(config, s, turn))
  {
    var l, t := s.lease.value, TakeTurn(config, s, turn);
    var m := Take(l, turn);
    AttachedOf(config, s);
    TurnCounts(config, s, turn);
    hide *;
    if t.caughtUp.None? && InOrder(m) {
      PrefixBefore(config.policy, s.log, l, turn);
      Uncaught(config, s, turn);
      CountingParts(s, l);
      if turn.Commits? {
        EnabledCommits(l, turn);
        CommitCounts(config, s, l);
        CommitTakes(l, turn);
        SavedCommit(l, m);
      } else if turn.Runs? {
        RunStops(config, s, l, turn);
        SavedSame(l, m);
      } else {
        SavedSame(l, m);
      }
    }
    CountingFrom(t, m);
  }

  lemma AttachedOf<S, V>(config: Config<S, V>, s: Session<S, V>)
    requires Exact(config, s) && s.lease.Some?
    ensures Attached(config.policy, s.log, s.lease.value)
  {
    hide Attached, InOrder, ReducedThrough, SavedThrough, AppliedThrough;
  }

  lemma Uncaught<S, V>(config: Config<S, V>, s: Session<S, V>, turn: Turn)
    requires s.lease.Some? && TurnFits(s.log, s.lease.value, turn) && TakeTurn(config, s, turn).caughtUp.None?
    ensures s.caughtUp.None? && Enabled(s.lease.value, turn)
  {
    TurnCounts(config, s, turn);
    hide Enabled, TakeTurn;
  }

  lemma CountingParts<S, V>(s: Session<S, V>, l: Lease)
    requires Counting(s) && s.lease == Some(l) && s.caughtUp.None? && InOrder(l)
    ensures Saved(l) < l.initialEnd && s.remaining == l.initialEnd - Saved(l)
  {
    hide InOrder, Saved;
  }

  lemma CountingFrom<S, V>(t: Session<S, V>, m: Lease)
    requires t.lease == Some(m)
    requires t.caughtUp.None? && InOrder(m) ==> Saved(m) < m.initialEnd && t.remaining == m.initialEnd - Saved(m)
    ensures Counting(t)
  {
    hide InOrder, Saved;
  }

  lemma EnabledCommits(l: Lease, turn: Turn)
    requires Enabled(l, turn) && turn.Commits?
    ensures CanCommit(l)
  {
    hide Resolved, Rejected;
  }

  lemma CommitTakes(l: Lease, turn: Turn)
    requires Enabled(l, turn) && turn.Commits? && CanCommit(l)
    ensures Take(l, turn) == Commit(l)
  {
    hide CanCommit, Commit;
  }

  lemma SavedCommit(l: Lease, m: Lease)
    requires m.committed == l.committed + 1 && AppliedThrough(m) == AppliedThrough(l)
    ensures Saved(m) == Saved(l) + (if l.committed < AppliedThrough(l) then 1 else 0)
    ensures l.committed < AppliedThrough(l) ==> Saved(l) == l.committed
  {
    hide AppliedThrough;
  }

  lemma SavedSame(l: Lease, m: Lease)
    requires m.committed == l.committed && AppliedThrough(l) <= AppliedThrough(m)
    requires AppliedThrough(l) < AppliedThrough(m) ==> l.committed <= AppliedThrough(l)
    ensures Saved(m) == Saved(l)
  {
    hide AppliedThrough;
  }

  lemma RunStops<S, V>(config: Config<S, V>, s: Session<S, V>, l: Lease, turn: Turn)
    requires Attached(config.policy, s.log, l) && TurnFits(s.log, l, turn) && turn.Runs?
    requires s.lease == Some(l) && InOrder(Take(l, turn)) && Exact(config, s)
    ensures AppliedThrough(l) <= AppliedThrough(Take(l, turn))
    ensures AppliedThrough(l) < AppliedThrough(Take(l, turn)) ==> l.committed <= AppliedThrough(l)
  {
    assert turn == Runs(turn.ok);
    PrefixBefore(config.policy, s.log, l, turn);
    assert ReducedThrough(config, s, AppliedThrough(l));
    hide *;
    RunReduces(config, s, l, turn.ok);
  }

  lemma TurnAtLeast<S, V>(config: Config<S, V>, s: Session<S, V>, turn: Turn)
    requires s.lease.Some? && Enabled(s.lease.value, turn) && AtLeast(s)
    ensures AtLeast(TakeTurn(config, s, turn))
  {
    TurnCounts(config, s, turn);
    hide Enabled, Take, TakeTurn, Resolved;
  }

  lemma ReopenAtLeast<S, V>(config: Config<S, V>, s: Session<S, V>)
    ensures AtLeast(Reopen(config, s))
    ensures
      var t := Reopen(config, s);
      && (s.caughtUp.Some? ==> t.caughtUp == s.caughtUp)
      && (s.caughtUp.None? && t.caughtUp.Some? ==> t.caughtUp.value.positions == |s.log|)
  {
    FirstWithin(s.log, s.store);
  }

  lemma {:induction false} FirstWithin<V>(log: seq<Delivery<V>>, cursor: Option<nat>)
    ensures FirstBehind(log, cursor) <= |log|
    decreases |log|
  {
    if log != [] {
      FirstWithin(log[1..], cursor);
    }
  }

  lemma ActAtLeast<S, V>(config: Config<S, V>, s: Session<S, V>, action: Action<V>)
    requires CanAct(config, s, action) && AtLeast(s)
    ensures AtLeast(Act(config, s, action))
    ensures s.caughtUp.Some? ==> Act(config, s, action).caughtUp == s.caughtUp
  {
    hide Take, Enabled, TakeTurn, Reopen, Closed;
    match action {
      case Opens => ReopenAtLeast(config, s);
      case Turns(turn) =>
        TurnAtLeast(config, s, turn);
        TurnCounts(config, s, turn);
      case _ =>
    }
  }

  lemma ActCounting<S, V>(config: Config<S, V>, s: Session<S, V>, action: Action<V>)
    requires StreamOk(config, s) && Exact(config, s) && CanAct(config, s, action) && Counting(s)
    ensures Counting(Act(config, s, action))
  {
    hide StreamOk, Exact, Saved, InOrder, Take, Enabled, TakeTurn, Reopen, Closed;
    match action {
      case Opens => OpenCounts(config, s);
      case Turns(turn) => TurnCounting(config, s, turn);
      case _ =>
    }
  }

  lemma {:induction false} RunCounting<S, V>(config: Config<S, V>, s: Session<S, V>, actions: seq<Action<V>>)
    requires StreamOk(config, s) && Exact(config, s) && Counting(s) && Replay.Possible(config, s, actions)
    requires AllAdmissible(config.policy, actions) || !CanLose(config.policy)
    ensures Counting(Replay.Run(config, s, actions))
    decreases |actions|
  {
    hide StreamOk, Exact, Counting, CanAct, Act, Admit, CanLose;
    if actions != [] {
      ActExact(config, s, actions[0]);
      ActCounting(config, s, actions[0]);
      RunCounting(config, Act(config, s, actions[0]), actions[1..]);
    }
  }

  lemma {:induction false} RunAtLeast<S, V>(config: Config<S, V>, s: Session<S, V>, actions: seq<Action<V>>)
    requires AtLeast(s) && Replay.Possible(config, s, actions)
    ensures AtLeast(Replay.Run(config, s, actions))
    ensures s.caughtUp.Some? ==> Replay.Run(config, s, actions).caughtUp == s.caughtUp
    decreases |actions|
  {
    hide AtLeast, CanAct, Act;
    if actions != [] {
      ActAtLeast(config, s, actions[0]);
      RunAtLeast(config, Act(config, s, actions[0]), actions[1..]);
    }
  }

  /** Once declared, the catch-up result stays what it is. */
  lemma CaughtUpOnce<S, V>(config: Config<S, V>, before: seq<Action<V>>, after: seq<Action<V>>)
    requires Replay.Possible(config, Start(config), before)
    requires
      var s := Replay.Run(config, Start(config), before);
      s.caughtUp.Some? && Replay.Possible(config, s, after)
    ensures
      var s := Replay.Run(config, Start(config), before);
      Replay.Run(config, s, after).caughtUp == s.caughtUp
  {
    RunAtLeast(config, Start(config), before);
    RunAtLeast(config, Replay.Run(config, Start(config), before), after);
  }

  /** The action declares the session caught up. */
  predicate Declares<S, V>(config: Config<S, V>, s: Session<S, V>, action: Action<V>)
    requires CanAct(config, s, action)
  {
    s.caughtUp.None? && Act(config, s, action).caughtUp.Some?
  }

  /**
   Over every run, whatever the sizes and whatever fails: only an opening with nothing left to replay, or a commit no
   earlier than the last delivery that was retained when its attempt opened, declares the session caught up.
   */
  lemma NeverCaughtUpEarly<S, V>(config: Config<S, V>, actions: seq<Action<V>>, action: Action<V>)
    requires Replay.Possible(config, Start(config), actions)
    requires CanAct(config, Replay.Run(config, Start(config), actions), action)
    requires Declares(config, Replay.Run(config, Start(config), actions), action)
    ensures
      var s := Replay.Run(config, Start(config), actions);
      var c := Act(config, s, action).caughtUp.value;
      if action.Opens? then c.positions == |s.log|
      else
        && action == Turns(Commits) && s.lease.Some?
        && s.lease.value.initialEnd <= c.positions == s.lease.value.committed + 1
  {
    var s := Replay.Run(config, Start(config), actions);
    RunAtLeast(config, Start(config), actions);
    hide Replay.Run, Replay.Possible, Take, Enabled, TakeTurn, Reopen, Closed, Resolved;
    match action {
      case Opens => ReopenAtLeast(config, s);
      case Turns(turn) => TurnCounts(config, s, turn);
      case _ =>
    }
  }

  /**
   Over every run with admissible sizes, or under a policy that cannot lose deliveries: a commit of an attempt that is
   not condemned declares the session caught up exactly at the end of its initial replay, with everything replayed
   reduced, and the result names the last of it; an opening does so with the whole stream reduced.
   */
  lemma CaughtUpWhenReplayed<S, V>(config: Config<S, V>, actions: seq<Action<V>>, action: Action<V>)
    requires config.policy.Valid() && Replay.Possible(config, Start(config), actions)
    requires AllAdmissible(config.policy, actions) || !CanLose(config.policy)
    requires CanAct(config, Replay.Run(config, Start(config), actions), action)
    requires Declares(config, Replay.Run(config, Start(config), actions), action)
    ensures
      var s := Replay.Run(config, Start(config), actions);
      var c := Act(config, s, action).caughtUp.value;
      if action.Opens? then
        && ReducedThrough(config, s, |s.log|)
        && c == CatchUp(if s.store.Some? then s.store else config.after, |s.log|)
      else
        && s.lease.Some?
        && var l := s.lease.value;
           !Condemned(l) ==>
             && 0 < l.initialEnd <= |s.reduced| && l.initialEnd <= |s.log|
             && c == CatchUp(Some(s.log[l.initialEnd - 1].sequence), l.initialEnd)
  {
    var s := Replay.Run(config, Start(config), actions);
    NeverCaughtUpEarly(config, actions, action);
    StartExact(config);
    RunExactly(config, Start(config), actions);
    RunCounting(config, Start(config), actions);
    hide Replay.Run, Replay.Possible, StreamOk, Exact, Counting, Condemned, Act, CanAct;
    if action.Opens? {
      OpeningDeclares(config, s);
    } else if !Condemned(s.lease.value) {
      CommitDeclares(config, s);
    }
  }

  lemma OpeningDeclares<S, V>(config: Config<S, V>, s: Session<S, V>)
    requires StreamOk(config, s) && Exact(config, s) && CanAct(config, s, Opens) && Declares(config, s, Opens)
    ensures ReducedThrough(config, s, |s.log|)
    ensures Act(config, s, Opens).caughtUp
         == Some(CatchUp(if s.store.Some? then s.store else config.after, |s.log|))
  {
    OpenCounts(config, s);
    hide StreamOk, Reopen, Attached, InOrder;
  }

  lemma CommitDeclares<S, V>(config: Config<S, V>, s: Session<S, V>)
    requires StreamOk(config, s) && Exact(config, s) && Counting(s)
    requires CanAct<S, V>(config, s, Turns(Commits)) && Declares(config, s, Turns(Commits))
    requires !Condemned(s.lease.value)
    ensures
      var l := s.lease.value;
      && 0 < l.initialEnd <= |s.reduced| && l.initialEnd <= |s.log|
      && Act(config, s, Turns(Commits)).caughtUp
         == Some(CatchUp(Some(s.log[l.initialEnd - 1].sequence), l.initialEnd))
  {
    var l := s.lease.value;
    AttachedOf(config, s);
    TurnOf(config, s);
    hide *;
    AttachedFacts(config.policy, s.log, l);
    UncondemnedIsExact(l);
    InOrderOf(l);
    TurnCounts(config, s, Commits);
    CountingParts(s, l);
    CommitCounts(config, s, l);
    SavedIs(l);
    ReducedSoFar(config, s);
  }

  lemma TurnOf<S, V>(config: Config<S, V>, s: Session<S, V>)
    requires CanAct<S, V>(config, s, Turns(Commits)) && Declares(config, s, Turns(Commits))
    ensures s.lease.Some? && Enabled(s.lease.value, Commits) && CanCommit(s.lease.value)
    ensures Act(config, s, Turns(Commits)) == TakeTurn(config, s, Commits)
    ensures s.caughtUp.None? && TakeTurn(config, s, Commits).caughtUp.Some?
  {
    hide TakeTurn, Resolved, Rejected;
  }

  lemma InOrderOf(l: Lease)
    requires Prefix(l.batcher) && Untainted(l.batcher)
    ensures InOrder(l)
  {
    hide Prefix, Untainted;
  }

  lemma SavedIs(l: Lease)
    ensures Saved(l) == if l.committed < AppliedThrough(l) then l.committed else AppliedThrough(l)
  {
    hide AppliedThrough;
  }

  lemma ReducedSoFar<S, V>(config: Config<S, V>, s: Session<S, V>)
    requires Exact(config, s) && s.lease.Some? && InOrder(s.lease.value)
    ensures |s.reduced| == AppliedThrough(s.lease.value) <= |s.log|
  {
    hide Attached, InOrder, SavedThrough, AppliedThrough;
  }

  /**
   Until then, over every such run, what is left of the replay is its end less what has been saved, and not nothing.
   */
  lemma RemainingCounts<S, V>(config: Config<S, V>, actions: seq<Action<V>>)
    requires config.policy.Valid() && Replay.Possible(config, Start(config), actions)
    requires AllAdmissible(config.policy, actions) || !CanLose(config.policy)
    ensures
      var s := Replay.Run(config, Start(config), actions);
      s.caughtUp.None? && s.lease.Some? && !Condemned(s.lease.value) ==>
        && Saved(s.lease.value) < s.lease.value.initialEnd
        && s.remaining == s.lease.value.initialEnd - Saved(s.lease.value)
        && SavedThrough(s, s.lease.value)
  {
    hide *;
    var s := Replay.Run(config, Start(config), actions);
    StartExact(config);
    StartCounting(config);
    RunExactly(config, Start(config), actions);
    RunCounting(config, Start(config), actions);
    if s.caughtUp.None? && s.lease.Some? && !Condemned(s.lease.value) {
      AttachedOf(config, s);
      AttachedFacts(config.policy, s.log, s.lease.value);
      UncondemnedIsExact(s.lease.value);
      InOrderOf(s.lease.value);
      CountingParts(s, s.lease.value);
      SavedOf(config, s);
    }
  }

  lemma StartCounting<S, V>(config: Config<S, V>)
    ensures Counting(Start(config))
  {
  }

  lemma SavedOf<S, V>(config: Config<S, V>, s: Session<S, V>)
    requires Exact(config, s) && s.lease.Some? && InOrder(s.lease.value)
    ensures SavedThrough(s, s.lease.value)
  {
    hide Attached, InOrder, SavedThrough, AppliedThrough;
  }
}
