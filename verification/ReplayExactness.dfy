/** Exactly-once reduction of the reducing session, over every run. */
module ReplayExactness {
  import opened Prelude
  import opened Batching
  import opened BatchPromises
  import opened Intake
  import opened IntakeProgress
  import opened IntakeExactness
  import opened IntakeRefusals
  import opened Replay

  /** The relation between an open attempt and the stream. */
  ghost predicate Attached<V>(policy: Policy, log: seq<Delivery<V>>, l: Lease) {
    && Sound(l) && Aligned(l) && CommitsSettled(l) && PrefixOrDoomed(l) && RefusalInv(l)
    && (Admissible(policy, log) ==> Whole(l))
    && l.batcher.policy == policy
    && l.pulled <= |log|
  }

  function AppliedThrough(l: Lease): nat {
    l.base + |AppliedEntries(l.batcher.finished)|
  }

  /** The saved checkpoint is the last commit that succeeded. */
  ghost predicate SavedThrough<S, V>(s: Session<S, V>, l: Lease) {
    var n := if l.committed < AppliedThrough(l) then l.committed else AppliedThrough(l);
    n <= |s.log| && s.store == CursorAt(s.log, n)
  }

  ghost predicate Exact<S, V>(config: Config<S, V>, s: Session<S, V>) {
    match s.lease
    case None =>
      s.ended || (ReducedThrough(config, s, |s.reduced|) && s.store == s.through)
    case Some(l) =>
      && Attached(config.policy, s.log, l)
      && (InOrder(l) ==> ReducedThrough(config, s, AppliedThrough(l)) && SavedThrough(s, l))
  }

  /** What was applied is a prefix, and nothing was cut behind a refused delivery. */
  ghost predicate InOrder(l: Lease) {
    Prefix(l.batcher) && Untainted(l.batcher)
  }

  /** Every delivery has an admissible size, or the policy cannot lose the ones that have not. */
  predicate Safe<V>(policy: Policy, log: seq<Delivery<V>>) {
    Admissible(policy, log) || !CanLose(policy)
  }

  /** A safe stream whose sizes are not all admissible has cuts only in the loop. */
  lemma SafeCuts<V>(policy: Policy, log: seq<Delivery<V>>)
    requires Safe(policy, log)
    ensures Admissible(policy, log) || CutsInLoop(policy)
  {
  }

  ghost predicate StreamOk<S, V>(config: Config<S, V>, s: Session<S, V>) {
    config.policy.Valid() && Replay.Ordered(s.log) && Safe(config.policy, s.log)
  }

  lemma AttachedFacts<V>(policy: Policy, log: seq<Delivery<V>>, l: Lease)
    requires Attached(policy, log, l)
    ensures Sound(l) && Shaped(l) && Paced(l) && Progressing(l) && Aligned(l) && CommitsSettled(l) && PrefixOrDoomed(l)
    ensures RefusalInv(l) && (Admissible(policy, log) ==> Whole(l))
    ensures l.batcher.policy == policy && l.pulled <= |log|
  {
    hide Shaped, Paced, Progressing, Aligned, CommitsSettled, PrefixOrDoomed, RefusalInv, Admissible, Whole;
  }

  lemma CommitBounds(l: Lease)
    requires Progressing(l)
    ensures l.base <= l.committed <= l.pulled
  {
  }

  lemma AppliedThroughIs(l: Lease)
    ensures AppliedThrough(l) == l.base + |AppliedEntries(l.batcher.finished)|
  {
  }

  /** While the applied entries are a prefix they lie inside what was pulled. */
  lemma AppliedWithin(l: Lease)
    requires Aligned(l) && Prefix(l.batcher)
    ensures AppliedThrough(l) <= l.pulled
  {
    AlignedTickets(l);
    if l.batcher.accepted != [] {
      assert |l.batcher.accepted| - 1 <= l.batcher.accepted[|l.batcher.accepted| - 1].ticket;
    }
    hide Batching.Inv, Honest;
  }

  // ---------------------------------------------------------------------------------------------
  // Reopening finds its place again
  // ---------------------------------------------------------------------------------------------

  lemma {:induction false} FirstBehindAt<V>(log: seq<Delivery<V>>, n: nat)
    requires Replay.Ordered(log) && n <= |log|
    ensures FirstBehind(log, CursorAt(log, n)) == n
    decreases n
  {
    if n == 1 {
      assert log[1..] == [] || log[0].sequence < log[1..][0].sequence;
    } else if n > 1 {
      assert log[0].sequence < log[n - 1].sequence;
      assert log[1..][n - 2] == log[n - 1];
      FirstBehindAt(log[1..], n - 1);
    }
  }

  lemma OpenAttached<V>(policy: Policy, log: seq<Delivery<V>>, base: nat)
    requires policy.Valid() && base <= |log|
    ensures var l := Intake.Open(policy, base, |log|);
      Attached(policy, log, l) && AppliedThrough(l) == base && l.committed == base
  {
    hide *;
    OpenSound(policy, base, |log|);
    OpenRefusals(policy, base, |log|);
    OpenAligned(policy, base, |log|);
    JoinAttached(policy, log, Intake.Open(policy, base, |log|));
  }

  lemma JoinAttached<V>(policy: Policy, log: seq<Delivery<V>>, l: Lease)
    requires Sound(l) && Aligned(l) && CommitsSettled(l) && PrefixOrDoomed(l) && RefusalInv(l) && Whole(l)
    requires l.batcher.policy == policy && l.pulled <= |log|
    ensures Attached(policy, log, l)
  {
    hide Sound, Aligned, CommitsSettled, PrefixOrDoomed, RefusalInv, Whole, Admissible;
  }

  lemma OpenAligned(policy: Policy, base: nat, end: nat)
    requires policy.Valid()
    ensures
      var l := Intake.Open(policy, base, end);
      && Aligned(l) && CommitsSettled(l) && PrefixOrDoomed(l) && Whole(l)
      && l.batcher.policy == policy && l.pulled == l.committed == AppliedThrough(l) == base
  {
    InitialInv<nat>(policy);
    var l := Intake.Open(policy, base, end);
    hide Batching.Inv;
    assert Honest(l.batcher);
    hide Honest;
    assert AppliedEntries(l.batcher.finished) == [];
  }

  lemma OpenExact<S, V>(config: Config<S, V>, s: Session<S, V>)
    requires StreamOk(config, s) && Exact(config, s) && s.lease.None? && !s.ended
    ensures Exact(config, Reopen(config, s))
  {
    var n, t := |s.reduced|, Reopen(config, s);
    assert config.policy.Valid() && Replay.Ordered(s.log) && n <= |s.log| && s.store == CursorAt(s.log, n);
    FirstBehindAt(s.log, n);
    hide Attached, AppliedThrough, InOrder, StreamOk;
    assert t.lease == Some(Intake.Open(config.policy, n, |s.log|)) && t.log == s.log && t.store == s.store;
    OpenAttached(config.policy, s.log, n);
    assert ReducedThrough(config, t, n);
  }

  // ---------------------------------------------------------------------------------------------
  // Reducing a batch
  // ---------------------------------------------------------------------------------------------

  lemma {:induction false} ReduceBatchFolds<S, V>(config: Config<S, V>, log: seq<Delivery<V>>, data: S, n: nat,
                                                  batch: seq<Entry<nat>>)
    requires n + |batch| <= |log| && data == Fold(config.reduce, config.initial, log[..n])
    requires forall i :: 0 <= i < |batch| ==> batch[i].value == n + i
    ensures ReduceBatch(config, log, data, batch) == Fold(config.reduce, config.initial, log[..n + |batch|])
    decreases |batch|
  {
    if batch != [] {
      var front := batch[..|batch| - 1];
      ReduceBatchFolds(config, log, data, n, front);
      var m := n + |batch|;
      assert log[..m][..m - 1] == log[..m - 1];
    }
  }

  lemma ReduceExact<S, V>(config: Config<S, V>, s: Session<S, V>, n: nat, batch: seq<Entry<nat>>)
    requires ReducedThrough(config, s, n) && n + |batch| <= |s.log|
    requires forall i :: 0 <= i < |batch| ==> batch[i].value == n + i
    ensures ReducedThrough(config, Reduce(config, s, batch), n + |batch|)
    ensures Reduce(config, s, batch).store == s.store && Reduce(config, s, batch).log == s.log
  {
    if batch != [] {
      ReduceBatchFolds(config, s.log, s.data, n, batch);
      assert Iota(n) + Positions(batch) == Iota(n + |batch|);
    }
  }

  // ---------------------------------------------------------------------------------------------
  // Turns of an open attempt
  // ---------------------------------------------------------------------------------------------

  predicate TurnFits<V>(log: seq<Delivery<V>>, l: Lease, turn: Turn) {
    Enabled(l, turn) && (turn.Pulls? ==> l.pulled < |log| && turn.measure == log[l.pulled].measure)
  }

  lemma TurnAttached<V>(policy: Policy, log: seq<Delivery<V>>, l: Lease, turn: Turn)
    requires Attached(policy, log, l) && Safe(policy, log) && TurnFits(log, l, turn)
    ensures Attached(policy, log, Take(l, turn))
  {
    var m := Take(l, turn);
    hide Shaped, Paced, Progressing, Aligned, CommitsSettled, PrefixOrDoomed, RefusalInv, Whole, Enabled;
    hide Admit, CutsInLoop;
    hide Attached, Safe;
    assert m.pulled == l.pulled + if turn.Pulls? then 1 else 0;
    AttachedFacts(policy, log, l);
    SafeCuts(policy, log);
    hide Take;
    StepPaced(l, turn);
    StepProgress(l, turn);
    TurnAligned(l, turn);
    TurnSettled(l, turn);
    TurnPrefix(l, turn);
    TurnAccepted(l, turn);
    if Admissible(policy, log) {
      TurnWhole(l, turn);
    }
    TurnRefusals(l, turn);
    AttachedFrom(policy, log, m);
  }

  lemma AttachedFrom<V>(policy: Policy, log: seq<Delivery<V>>, l: Lease)
    requires Shaped(l) && Paced(l) && Progressing(l) && Aligned(l) && CommitsSettled(l) && PrefixOrDoomed(l)
    requires RefusalInv(l) && (Admissible(policy, log) ==> Whole(l))
    requires l.batcher.policy == policy && l.pulled <= |log|
    ensures Attached(policy, log, l)
  {
    hide Shaped, Paced, Progressing, Aligned, CommitsSettled, PrefixOrDoomed, RefusalInv, Admissible, Whole;
  }

  /** Cuts only ever add to what was cut, and accepted entries stay where they are. */
  lemma UntaintedBefore(l: Lease, turn: Turn)
    requires Enabled(l, turn) && Shaped(l) && Aligned(l) && Untainted(Take(l, turn).batcher)
    ensures Untainted(l.batcher)
  {
    var b, c := l.batcher, Take(l, turn).batcher;
    TurnAccepted(l, turn);
    TurnDrains(l, turn);
    FlattenPrefix(b.drained, c.drained);
    assert b.accepted <= c.accepted by {
      hide Take, Enabled, Shaped, Aligned, Untainted, Taken;
    }
    hide Take, Enabled, Shaped, Aligned, Flatten;
    assert forall i :: 0 <= i < |b.accepted| ==> b.accepted[i] == c.accepted[i];
  }

  lemma TurnDrains(l: Lease, turn: Turn)
    requires Enabled(l, turn)
    ensures l.batcher.drained <= Take(l, turn).batcher.drained
  {
    hide Batches, HeadSucceeds, HasBarrier;
    if turn.Pulls? {
      AddDrains(l.batcher, l.pulled, turn.measure);
      hide Batching.Add;
    } else if !turn.Ticks? && !turn.Ends? {
      DrainedTurn(l, turn);
      hide Take;
    }
  }

  lemma AddDrains(b: State<nat>, value: nat, measure: Measure)
    ensures b.drained <= Batching.Add(b, value, measure).drained
  {
    hide Policy.Full, Policy.Overflows;
  }

  /** Where the applied entries are a prefix after a turn, they were one before, and a batch continued it. */
  lemma PrefixBefore<V>(policy: Policy, log: seq<Delivery<V>>, l: Lease, turn: Turn)
    requires Attached(policy, log, l) && TurnFits(log, l, turn) && InOrder(Take(l, turn))
    ensures InOrder(l)
    ensures Take(l, turn).base == l.base
    ensures turn.Runs? ==>
      var a, batch := AppliedThrough(l), AppliedBatch(l, turn.ok);
      && AppliedThrough(Take(l, turn)) == a + |batch| <= l.pulled
      && forall i :: 0 <= i < |batch| ==> batch[i].value == a + i && batch[i].ticket == a - l.base + i
    ensures !turn.Runs? ==> AppliedThrough(Take(l, turn)) == AppliedThrough(l)
  {
    hide Shaped, Paced, Progressing, Aligned, CommitsSettled, PrefixOrDoomed, AppliedEntries, AppliedBatch, Admit, Take;
    hide Sound, Attached, Untainted, RefusalInv, Whole, Taken;
    var m := Take(l, turn);
    var before, after := AppliedEntries(l.batcher.finished), AppliedEntries(m.batcher.finished);
    AttachedFacts(policy, log, l);
    UntaintedBefore(l, turn);
    TurnAligned(l, turn);
    if l.place.Pulling? { PulledPrefix(l); }
    TakeBase(l, turn);
    TurnApplied(l, turn);
    TurnAccepted(l, turn);
    hide Enabled, TurnFits;
    if turn.Runs? {
      AppliedTickets(m);
      AppliedWithin(m);
      BatchContinues(l.base, before, AppliedBatch(l, turn.ok), after);
    }
  }

  lemma TakeBase(l: Lease, turn: Turn)
    requires Enabled(l, turn)
    ensures Take(l, turn).base == l.base
    ensures Take(l, turn).pulled == l.pulled + if turn.Pulls? then 1 else 0
  {
    hide Batching.Add, Drain, RunNext;
  }

  lemma PulledPrefix(l: Lease)
    requires PrefixOrDoomed(l) && l.place.Pulling?
    ensures Prefix(l.batcher)
  {
  }

  lemma BatchContinues(base: nat, before: seq<Entry<nat>>, batch: seq<Entry<nat>>, after: seq<Entry<nat>>)
    requires forall i :: 0 <= i < |after| ==> after[i].ticket == i && after[i].value == base + i
    requires after == before + batch
    ensures forall i :: 0 <= i < |batch| ==> batch[i].value == base + |before| + i && batch[i].ticket == |before| + i
  {
    forall i | 0 <= i < |batch|
      ensures batch[i].value == base + |before| + i && batch[i].ticket == |before| + i
    {
      assert after[|before| + i] == batch[i];
    }
  }

  /** The batch that leaves the chain continues the fold, and no commit had gone past it. */
  lemma RunReduces<S, V>(config: Config<S, V>, s: Session<S, V>, l: Lease, ok: bool)
    requires Attached(config.policy, s.log, l) && TurnFits(s.log, l, Runs(ok))
    requires InOrder(Take(l, Runs(ok))) && ReducedThrough(config, s, AppliedThrough(l))
    ensures var batch := AppliedBatch(l, ok);
      && AppliedThrough(Take(l, Runs(ok))) == AppliedThrough(l) + |batch|
      && ReducedThrough(config, Reduce(config, s, batch), AppliedThrough(l) + |batch|)
      && (batch != [] ==> l.committed <= AppliedThrough(l))
  {
    var batch := AppliedBatch(l, ok);
    hide Shaped, Paced, Progressing, Aligned, CommitsSettled, PrefixOrDoomed, AppliedEntries, InOrder, ReducedThrough;
    hide RefusalInv, Whole;
    AttachedFacts(config.policy, s.log, l);
    assert batch != [] ==> l.batcher.applications[0] == Apply(batch, l.batcher.applications[0].reason);
    AppliedThroughIs(l);
    hide Attached, Take, Enabled, CanRun, AppliedBatch, AppliedThrough, Reduce;
    PrefixBefore(config.policy, s.log, l, Runs(ok));
    ReduceExact(config, s, AppliedThrough(l), batch);
    if batch != [] {
      CommitsStopAtHead(l);
    }
  }

  lemma SavedMore<S, V>(s: Session<S, V>, t: Session<S, V>, l: Lease, m: Lease)
    requires SavedThrough(s, l) && t.store == s.store && t.log == s.log && m.committed == l.committed
    requires AppliedThrough(l) <= AppliedThrough(m)
    requires AppliedThrough(l) < AppliedThrough(m) ==> l.committed <= AppliedThrough(l)
    ensures SavedThrough(t, m)
  {
  }

  lemma RunExact<S, V>(config: Config<S, V>, s: Session<S, V>, l: Lease, ok: bool)
    requires Attached(config.policy, s.log, l) && TurnFits(s.log, l, Runs(ok))
    requires s.lease == Some(l) && InOrder(Take(l, Runs(ok)))
    requires ReducedThrough(config, s, AppliedThrough(l)) && SavedThrough(s, l)
    ensures var t, m := TakeTurn(config, s, Runs(ok)), Take(l, Runs(ok));
      ReducedThrough(config, t, AppliedThrough(m)) && SavedThrough(t, m)
  {
    var m, batch := Take(l, Runs(ok)), AppliedBatch(l, ok);
    var r, t := Reduce(config, s, batch), TakeTurn(config, s, Runs(ok));
    hide Attached, AppliedThrough, InOrder;
    assert m.committed == l.committed;
    assert t == r.(lease := Some(m)) && r.store == s.store && r.log == s.log;
    hide Take, TakeTurn, AppliedBatch, Reduce, SavedThrough, TurnFits, CanRun;
    RunReduces(config, s, l, ok);
    SavedMore(s, t, l, m);
  }

  lemma CommitExact<S, V>(config: Config<S, V>, s: Session<S, V>, l: Lease)
    requires Attached(config.policy, s.log, l) && CanCommit(l) && InOrder(l) && s.lease == Some(l)
    requires ReducedThrough(config, s, AppliedThrough(l)) && SavedThrough(s, l)
    ensures var t := TakeTurn(config, s, Commits);
      ReducedThrough(config, t, AppliedThrough(Commit(l))) && SavedThrough(t, Commit(l))
  {
    hide Shaped, Paced, Progressing, Aligned, CommitsSettled, PrefixOrDoomed, AppliedEntries, Prefix, Untainted;
    hide RefusalInv, Whole, Admissible;
    AttachedFacts(config.policy, s.log, l);
    CommitBounds(l);
    AppliedThroughIs(l);
    assert AppliedThrough(Commit(l)) == AppliedThrough(l);
    hide AppliedThrough, Resolved, Rejected, Attached, Sound;
    AppliedWithin(l);
    ResolvedIffApplied(l, l.committed);
  }

  lemma OtherExact<S, V>(config: Config<S, V>, s: Session<S, V>, l: Lease, turn: Turn)
    requires Attached(config.policy, s.log, l) && TurnFits(s.log, l, turn)
    requires !turn.Runs? && !turn.Commits? && InOrder(Take(l, turn)) && s.lease == Some(l)
    requires ReducedThrough(config, s, AppliedThrough(l)) && SavedThrough(s, l)
    ensures var t, m := TakeTurn(config, s, turn), Take(l, turn);
      ReducedThrough(config, t, AppliedThrough(m)) && SavedThrough(t, m)
  {
    var m, t := Take(l, turn), TakeTurn(config, s, turn);
    hide Attached, AppliedThrough, InOrder;
    assert t == s.(lease := Some(m)) && m.committed == l.committed;
    hide Take, TakeTurn, SavedThrough, TurnFits;
    PrefixBefore(config.policy, s.log, l, turn);
    SavedMore(s, t, l, m);
  }

  lemma TurnExact<S, V>(config: Config<S, V>, s: Session<S, V>, turn: Turn)
    requires StreamOk(config, s) && Exact(config, s) && s.lease.Some? && TurnFits(s.log, s.lease.value, turn)
    ensures Exact(config, TakeTurn(config, s, turn))
  {
    var l := s.lease.value;
    var m, t := Take(l, turn), TakeTurn(config, s, turn);
    hide Attached, Safe, InOrder, ReducedThrough, SavedThrough, AppliedThrough;
    assert t.lease == Some(m) && t.log == s.log && Safe(config.policy, s.log);
    assert turn.Commits? ==> m == Commit(l) && CanCommit(l) && turn == Commits;
    assert turn.Runs? ==> turn == Runs(turn.ok);
    hide Take, TakeTurn, StreamOk, TurnFits, Commit, CanCommit;
    TurnAttached(config.policy, s.log, l, turn);
    if InOrder(m) {
      PrefixBefore(config.policy, s.log, l, turn);
      if turn.Runs? {
        RunExact(config, s, l, turn.ok);
      } else if turn.Commits? {
        CommitExact(config, s, l);
      } else {
        OtherExact(config, s, l, turn);
      }
    }
  }

  // ---------------------------------------------------------------------------------------------
  // Whole runs
  // ---------------------------------------------------------------------------------------------

  lemma AttachedMore<V>(policy: Policy, log: seq<Delivery<V>>, d: Delivery<V>, l: Lease)
    ensures Attached(policy, log, l) ==> Attached(policy, log + [d], l)
  {
    hide Sound, Aligned, CommitsSettled, PrefixOrDoomed, RefusalInv, Whole, Admit;
    assert forall i :: 0 <= i < |log| ==> (log + [d])[i] == log[i];
  }

  lemma PublishExact<S, V>(config: Config<S, V>, s: Session<S, V>, d: Delivery<V>)
    requires StreamOk(config, s) && Exact(config, s) && CanAct(config, s, Publishes(d))
    requires Admit(config.policy, d.measure).Admitted? || !CanLose(config.policy)
    ensures StreamOk(config, s.(log := s.log + [d])) && Exact(config, s.(log := s.log + [d]))
  {
    hide Attached, InOrder, AppliedThrough;
    if s.lease.Some? {
      AttachedMore(config.policy, s.log, d, s.lease.value);
    }
    var log := s.log + [d];
    assert forall n: nat | n <= |s.log| :: log[..n] == s.log[..n];
    if s.log != [] {
      assert forall i :: 0 <= i < |s.log| ==> s.log[i].sequence <= s.log[|s.log| - 1].sequence;
    }
  }

  /** A transport failure closes the attempt with the saved checkpoint at the cursor of the reduced state. */
  lemma CloseExact<S, V>(config: Config<S, V>, s: Session<S, V>)
    requires Exact(config, s) && CanAct(config, s, Closes)
    ensures Exact(config, Act(config, s, Closes))
  {
    var l := s.lease.value;
    if l.place.infrastructure {
      AttachedFacts(config.policy, s.log, l);
      ClosedInOrder(l);
      hide Sound, Progressing, Aligned, RefusalInv, Untainted, Prefix, AppliedEntries;
      AppliedWithin(l);
    }
  }

  lemma ClosedInOrder(l: Lease)
    requires PrefixOrDoomed(l) && RefusalInv(l) && Closed(l) && l.place.infrastructure
    ensures InOrder(l) && Prefix(l.batcher)
  {
    hide Prefix, Untainted, Refused;
  }

  lemma ActExact<S, V>(config: Config<S, V>, s: Session<S, V>, action: Action<V>)
    requires StreamOk(config, s) && Exact(config, s) && CanAct(config, s, action)
    requires action.Publishes? ==>
      Admit(config.policy, action.delivery.measure).Admitted? || !CanLose(config.policy)
    ensures StreamOk(config, Act(config, s, action)) && Exact(config, Act(config, s, action))
  {
    hide Exact, Attached, Take, Enabled, Closed;
    match action {
      case Publishes(d) => PublishExact(config, s, d);
      case Opens => OpenExact(config, s);
      case Turns(turn) => TurnExact(config, s, turn);
      case Closes => CloseExact(config, s);
      case Hydrates => HydrateExact(config, s);
    }
  }

  lemma HydrateExact<S, V>(config: Config<S, V>, s: Session<S, V>)
    requires Exact(config, s) && CanAct(config, s, Hydrates)
    ensures Exact(config, Act(config, s, Hydrates))
  {
  }

  predicate AllAdmissible<V>(policy: Policy, actions: seq<Action<V>>) {
    forall i :: 0 <= i < |actions| && actions[i].Publishes? ==> Admit(policy, actions[i].delivery.measure).Admitted?
  }

  lemma {:induction false} RunExactly<S, V>(config: Config<S, V>, s: Session<S, V>, actions: seq<Action<V>>)
    requires StreamOk(config, s) && Exact(config, s) && Replay.Possible(config, s, actions)
    requires AllAdmissible(config.policy, actions) || !CanLose(config.policy)
    ensures StreamOk(config, Replay.Run(config, s, actions)) && Exact(config, Replay.Run(config, s, actions))
    decreases |actions|
  {
    if actions != [] {
      ActExact(config, s, actions[0]);
      RunExactly(config, Act(config, s, actions[0]), actions[1..]);
    }
  }

  lemma StartExact<S, V>(config: Config<S, V>)
    requires config.policy.Valid()
    ensures StreamOk(config, Start(config)) && Exact(config, Start(config))
  {
  }

  /** A run goes on with one more action. */
  lemma {:induction false} ActsSnoc<S, V>(config: Config<S, V>, s: Session<S, V>, actions: seq<Action<V>>,
                                          last: Action<V>)
    requires Replay.Possible(config, s, actions) && CanAct(config, Replay.Run(config, s, actions), last)
    ensures Replay.Possible(config, s, actions + [last])
    ensures Replay.Run(config, s, actions + [last]) == Act(config, Replay.Run(config, s, actions), last)
    decreases |actions|
  {
    hide CanAct, Act;
    if actions == [] {
      assert ([] + [last])[1..] == [] && [last] == [] + [last];
      assert Replay.Possible(config, Act(config, s, last), []);
    } else {
      assert (actions + [last])[1..] == actions[1..] + [last];
      ActsSnoc(config, Act(config, s, actions[0]), actions[1..], last);
    }
  }

  lemma AdmissibleAct<S, V>(config: Config<S, V>, s: Session<S, V>, action: Action<V>)
    requires CanAct(config, s, action) && Admissible(config.policy, s.log)
    requires action.Publishes? ==> Admit(config.policy, action.delivery.measure).Admitted?
    ensures Admissible(config.policy, Act(config, s, action).log)
  {
    hide Take, Enabled, Admit, AppliedBatch;
  }

  lemma {:induction false} RunAdmissible<S, V>(config: Config<S, V>, s: Session<S, V>, actions: seq<Action<V>>)
    requires Replay.Possible(config, s, actions) && Admissible(config.policy, s.log)
    requires AllAdmissible(config.policy, actions)
    ensures Admissible(config.policy, Replay.Run(config, s, actions).log)
    decreases |actions|
  {
    hide CanAct, Act, Admissible, Admit;
    if actions != [] {
      AdmissibleAct(config, s, actions[0]);
      RunAdmissible(config, Act(config, s, actions[0]), actions[1..]);
    }
  }

  // ---------------------------------------------------------------------------------------------
  // A condemned attempt is the last
  // ---------------------------------------------------------------------------------------------

  /** What every reachable attempt keeps, whatever the sizes of the deliveries. */
  ghost predicate Recorded<S, V>(s: Session<S, V>) {
    s.lease.Some? ==> Sound(s.lease.value) && CommitsRecorded(s.lease.value)
  }

  /** The attempt under way is condemned and the session has not been reopened since, or it has ended. */
  predicate Sealed<S, V>(s: Session<S, V>, restarts: nat) {
    s.restarts == restarts && if s.lease.Some? then Condemned(s.lease.value) else s.ended
  }

  lemma ActRecorded<S, V>(config: Config<S, V>, s: Session<S, V>, action: Action<V>)
    requires CanAct(config, s, action) && Recorded(s)
    ensures Recorded(Act(config, s, action))
  {
    hide Sound, CommitsRecorded, Take, Enabled, AppliedBatch, Resolved, Closed;
    match action {
      case Opens => OpenRecorded(config.policy, FirstBehind(s.log, s.store), |s.log|);
      case Turns(turn) => TurnRecorded(s.lease.value, turn);
      case _ =>
    }
  }

  lemma ActSealed<S, V>(config: Config<S, V>, s: Session<S, V>, action: Action<V>, restarts: nat)
    requires CanAct(config, s, action) && Recorded(s) && Sealed(s, restarts)
    ensures Sealed(Act(config, s, action), restarts)
  {
    hide Sound, CommitsRecorded, Condemned, Take, Enabled, AppliedBatch, Resolved, Closed;
    match action {
      case Turns(turn) => CondemnedStays(s.lease.value, turn);
      case Closes => CondemnedCloses(s.lease.value);
      case _ =>
    }
  }

  lemma {:induction false} RunRecords<S, V>(config: Config<S, V>, s: Session<S, V>, actions: seq<Action<V>>)
    requires Recorded(s) && Replay.Possible(config, s, actions)
    ensures Recorded(Replay.Run(config, s, actions))
    decreases |actions|
  {
    hide Recorded, CanAct, Act;
    if actions != [] {
      ActRecorded(config, s, actions[0]);
      RunRecords(config, Act(config, s, actions[0]), actions[1..]);
    }
  }

  lemma {:induction false} RunSealed<S, V>(config: Config<S, V>, s: Session<S, V>, actions: seq<Action<V>>,
                                           restarts: nat)
    requires Recorded(s) && Sealed(s, restarts) && Replay.Possible(config, s, actions)
    ensures Sealed(Replay.Run(config, s, actions), restarts)
    decreases |actions|
  {
    hide Recorded, Sealed, CanAct, Act;
    if actions != [] {
      ActRecorded(config, s, actions[0]);
      ActSealed(config, s, actions[0], restarts);
      RunSealed(config, Act(config, s, actions[0]), actions[1..], restarts);
    }
  }

  /**
   Over every run, with deliveries of any size: once an attempt is condemned, it stays the session's last. After any
   further actions it is still condemned, or the session has ended; no other attempt has been opened.
   */
  lemma CondemnedIsLast<S, V>(config: Config<S, V>, before: seq<Action<V>>, after: seq<Action<V>>)
    requires Replay.Possible(config, Start(config), before)
    requires
      var s := Replay.Run(config, Start(config), before);
      s.lease.Some? && Condemned(s.lease.value) && Replay.Possible(config, s, after)
    ensures
      var s := Replay.Run(config, Start(config), before);
      var t := Replay.Run(config, s, after);
      && t.restarts == s.restarts
      && (t.lease.Some? ==> Condemned(t.lease.value))
      && (t.lease.None? ==> t.ended)
  {
    hide Replay.Run, Replay.Possible, Condemned;
    RunRecords(config, Start(config), before);
    var s := Replay.Run(config, Start(config), before);
    RunSealed(config, s, after, s.restarts);
  }

  lemma {:induction false} RunEnded<S, V>(config: Config<S, V>, s: Session<S, V>, actions: seq<Action<V>>)
    requires Replay.Possible(config, s, actions) && (s.ended ==> s.lease.None?)
    ensures
      var t := Replay.Run(config, s, actions);
      && (t.ended ==> t.lease.None?)
      && (s.ended ==>
            && t.ended && t.data == s.data && t.reduced == s.reduced && t.through == s.through && t.store == s.store
            && t.restarts == s.restarts)
    decreases |actions|
  {
    hide Take, Enabled, AppliedBatch, Resolved, Closed;
    if actions != [] {
      RunEnded(config, Act(config, s, actions[0]), actions[1..]);
    }
  }

  /** A session that has ended, after whatever run, has no attempt under way and never reduces or saves again. */
  lemma EndedForGood<S, V>(config: Config<S, V>, before: seq<Action<V>>, after: seq<Action<V>>)
    requires Replay.Possible(config, Start(config), before)
    requires
      var s := Replay.Run(config, Start(config), before);
      s.ended && Replay.Possible(config, s, after)
    ensures
      var s := Replay.Run(config, Start(config), before);
      var t := Replay.Run(config, s, after);
      && s.lease.None? && t.lease.None? && t.ended
      && t.data == s.data && t.reduced == s.reduced && t.through == s.through && t.store == s.store
  {
    RunEnded(config, Start(config), before);
    RunEnded(config, Replay.Run(config, Start(config), before), after);
    hide Replay.Run, Replay.Possible;
  }

  /** How an attempt closes: a transport failure leaves the session to be reopened, anything else ends it. */
  lemma ClosesAs<S, V>(config: Config<S, V>, s: Session<S, V>)
    requires CanAct<S, V>(config, s, Closes) && !s.ended
    ensures
      var t := Act(config, s, Closes);
      && t.lease.None? && t.store == s.store && t.data == s.data
      && (s.lease.value.place == Unwinding(true) <==> CanAct<S, V>(config, t, Opens) && t.restarts == s.restarts + 1)
      && (s.lease.value.place == Unwinding(false) <==> t.ended)
  {
  }

  /**
   Exactly once: after every run the reduced state is the fold of a prefix of the retained deliveries. The one
   exception is an attempt that is already condemned, and so the session's last (`CondemnedIsLast`). Whenever the
   session can reopen, state and saved checkpoint agree on that prefix.
   */
  lemma ExactlyOnce<S, V>(config: Config<S, V>, actions: seq<Action<V>>)
    requires config.policy.Valid() && Replay.Possible(config, Start(config), actions)
    requires AllAdmissible(config.policy, actions) || !CanLose(config.policy)
    ensures var s := Replay.Run(config, Start(config), actions);
      && (s.lease.Some? && !Condemned(s.lease.value) ==> ReducedThrough(config, s, |s.reduced|))
      && (s.lease.None? && !s.ended ==>
            && ReducedThrough(config, s, |s.reduced|) && s.store == s.through
            && Reopen(config, s).lease.value.base == |s.reduced|)
  {
    StartExact(config);
    RunExactly(config, Start(config), actions);
    var s := Replay.Run(config, Start(config), actions);
    if s.lease.None? && !s.ended {
      FirstBehindAt(s.log, |s.reduced|);
    }
    if s.lease.Some? && !Condemned(s.lease.value) {
      AttachedFacts(config.policy, s.log, s.lease.value);
      UncondemnedIsExact(s.lease.value);
    }
  }

  /** With the intake loop idle at the end of the stream, everything retained has been reduced. */
  lemma IdleMeansComplete<S, V>(config: Config<S, V>, actions: seq<Action<V>>)
    requires config.policy.Valid() && Replay.Possible(config, Start(config), actions)
    requires AllAdmissible(config.policy, actions)
    requires var s := Replay.Run(config, Start(config), actions);
      && s.lease.Some? && s.lease.value.place.Pulling? && !s.lease.value.applicationFailed
      && s.lease.value.pulled == |s.log| && s.lease.value.batcher.applications == []
      && s.lease.value.batcher.pending == []
    ensures var s := Replay.Run(config, Start(config), actions); ReducedThrough(config, s, |s.log|)
  {
    StartExact(config);
    RunExactly(config, Start(config), actions);
    RunAdmissible(config, Start(config), actions);
    var s := Replay.Run(config, Start(config), actions);
    var l := s.lease.value;
    AttachedFacts(config.policy, s.log, l);
    AlignedTickets(l);
    AllApplied(l);
    WholeUntainted(l);
    AppliedThroughIs(l);
    hide Aligned, Prefix, Untainted, AppliedEntries;
  }

  lemma AllApplied(l: Lease)
    requires Aligned(l) && Paced(l) && Shaped(l) && l.place.Pulling? && !l.applicationFailed
    requires l.batcher.applications == [] && l.batcher.pending == []
    ensures AppliedEntries(l.batcher.finished) == l.batcher.accepted && Prefix(l.batcher)
  {
    var b := l.batcher;
    assert b.dropped == [];
    UnspoiledApplied(b.finished);
    assert FinishedBatches(b.finished) + Batches(b.applications) == FinishedBatches(b.finished);
    assert Flatten(b.drained) + b.pending + b.dropped == Flatten(b.drained);
  }

  // ---------------------------------------------------------------------------------------------
  // Runs in which only the transport fails
  // ---------------------------------------------------------------------------------------------

  predicate ReducerSucceeds<V>(actions: seq<Action<V>>) {
    forall i :: 0 <= i < |actions| && actions[i].Turns? && actions[i].turn.Runs? ==> actions[i].turn.ok
  }

  ghost predicate CleanSession<S, V>(s: Session<S, V>) {
    !s.ended && (s.lease.Some? ==> Clean(s.lease.value))
  }

  lemma ActClean<S, V>(config: Config<S, V>, s: Session<S, V>, action: Action<V>)
    requires StreamOk(config, s) && Exact(config, s) && CanAct(config, s, action) && CleanSession(s)
    requires Admissible(config.policy, s.log) && (action.Turns? && action.turn.Runs? ==> action.turn.ok)
    ensures CleanSession(Act(config, s, action))
  {
    hide Clean, Take, Enabled, Batching.Inv, Honest, Aligned, CommitsSettled, Progressing, Paced, Shaped, Admit;
    match action {
      case Turns(turn) =>
        var l := s.lease.value;
        AttachedFacts(config.policy, s.log, l);
        CommitBounds(l);
        TurnClean(l, turn);
      case Opens => OpenClean(config.policy, FirstBehind(s.log, s.store), |s.log|);
      case Closes => ClosedClean(s.lease.value);
      case _ =>
    }
  }

  lemma OpenClean(policy: Policy, base: nat, end: nat)
    ensures Clean(Intake.Open(policy, base, end))
  {
  }

  lemma ClosedClean(l: Lease)
    requires Clean(l) && Closed(l)
    ensures l.place.infrastructure
  {
  }

  lemma {:induction false} RunCleanly<S, V>(config: Config<S, V>, s: Session<S, V>, actions: seq<Action<V>>)
    requires StreamOk(config, s) && Exact(config, s) && Replay.Possible(config, s, actions) && CleanSession(s)
    requires Admissible(config.policy, s.log) && AllAdmissible(config.policy, actions) && ReducerSucceeds(actions)
    ensures CleanSession(Replay.Run(config, s, actions))
    decreases |actions|
  {
    if actions != [] {
      ActExact(config, s, actions[0]);
      ActClean(config, s, actions[0]);
      AdmissibleAct(config, s, actions[0]);
      RunCleanly(config, Act(config, s, actions[0]), actions[1..]);
    }
  }

  /** Any number of transport failures and reopenings leaves the state the fold of a prefix, at every moment. */
  lemma TransportFailuresHarmless<S, V>(config: Config<S, V>, actions: seq<Action<V>>)
    requires config.policy.Valid() && Replay.Possible(config, Start(config), actions)
    requires AllAdmissible(config.policy, actions) && ReducerSucceeds(actions)
    ensures var s := Replay.Run(config, Start(config), actions);
      !s.ended && ReducedThrough(config, s, |s.reduced|)
  {
    StartExact(config);
    RunCleanly(config, Start(config), actions);
    ExactlyOnce(config, actions);
  }
}
