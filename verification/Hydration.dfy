/**
 The cursor that snapshots show. Hydration overwrites it with the cursor of the catch-up result, although live
 batches may have been reduced in between; until the next batch the shown cursor then lags behind the state.
 */
module Hydration {
  import opened Prelude
  import opened Batching
  import opened Intake
  import opened IntakeProgress
  import opened IntakeExactness
  import opened IntakeRefusals
  import opened Replay
  import opened ReplayExactness

  /** The catch-up result names a position the state has already reached. */
  ghost predicate CaughtUpBehind<S, V>(config: Config<S, V>, s: Session<S, V>) {
    s.caughtUp.Some? ==>
      var c := s.caughtUp.value;
      && c.positions <= |s.reduced| && c.positions <= |s.log|
      && c.cursor == if c.positions == 0 then config.after else CursorAt(s.log, c.positions)
  }

  ghost predicate Shown<S, V>(config: Config<S, V>, s: Session<S, V>) {
    && CaughtUpBehind(config, s)
    && (!s.hydrated ==> s.shown == s.through)
    && |s.reduced| <= |s.log|
    && (config.after.Some? ==> forall i :: 0 <= i < |s.log| ==> config.after.value < s.log[i].sequence)
  }

  lemma ReduceShown<S, V>(config: Config<S, V>, s: Session<S, V>, batch: seq<Entry<nat>>)
    requires Shown(config, s) && |s.reduced| + |batch| <= |s.log|
    ensures Shown(config, Reduce(config, s, batch))
  {
  }

  lemma SaveShown<S, V>(config: Config<S, V>, s: Session<S, V>, position: nat)
    requires Shown(config, s) && position < |s.reduced|
    ensures Shown(config, Save(s, position))
  {
  }

  /** In a run without application failures the reduced state always reaches the applied entries. */
  lemma CleanReduced<S, V>(config: Config<S, V>, s: Session<S, V>, l: Lease)
    requires Exact(config, s) && CleanSession(s) && s.lease == Some(l)
    requires Admissible(config.policy, s.log)
    ensures InOrder(l) && |s.reduced| == AppliedThrough(l)
    ensures Attached(config.policy, s.log, l) && Aligned(l) && Progressing(l)
  {
    AttachedFacts(config.policy, s.log, l);
    assert !Doomed(l);
    WholeUntainted(l);
    hide Attached, Untainted, Aligned, Progressing, RefusalInv, Whole;
  }

  lemma RunShown<S, V>(config: Config<S, V>, s: Session<S, V>, l: Lease, ok: bool)
    requires Attached(config.policy, s.log, l) && TurnFits(s.log, l, Runs(ok))
    requires InOrder(Take(l, Runs(ok))) && Shown(config, s) && |s.reduced| == AppliedThrough(l)
    ensures Shown(config, Reduce(config, s, AppliedBatch(l, ok)))
  {
    hide Shown, InOrder, AppliedThrough, Shaped, Paced, Progressing, Aligned, CommitsSettled, PrefixOrDoomed;
    AttachedFacts(config.policy, s.log, l);
    hide Attached, Take, Reduce;
    PrefixBefore(config.policy, s.log, l, Runs(ok));
    ReduceShown(config, s, AppliedBatch(l, ok));
  }

  lemma CommitShown<S, V>(config: Config<S, V>, s: Session<S, V>, l: Lease)
    requires Aligned(l) && Progressing(l) && InOrder(l) && CanCommit(l) && Shown(config, s)
    requires |s.reduced| == AppliedThrough(l) && Resolved(l, l.committed) && l.committed < |s.log|
    ensures Shown(config, Save(s, l.committed))
  {
    hide Shown, Prefix, Untainted, Aligned, Progressing, Resolved, Save, AppliedEntries;
    CommitBounds(l);
    ResolvedIffApplied(l, l.committed);
    AppliedThroughIs(l);
    SaveShown(config, s, l.committed);
  }

  /** Replacing the attempt changes nothing that is shown. */
  lemma LeaseShown<S, V>(config: Config<S, V>, s: Session<S, V>, lease: Option<Lease>)
    requires Shown(config, s)
    ensures Shown(config, s.(lease := lease))
  {
  }

  lemma TurnShown<S, V>(config: Config<S, V>, s: Session<S, V>, turn: Turn)
    requires StreamOk(config, s) && Exact(config, s) && CleanSession(s) && Shown(config, s)
    requires s.lease.Some? && TurnFits(s.log, s.lease.value, turn) && (turn.Runs? ==> turn.ok)
    requires Admissible(config.policy, s.log)
    ensures Shown(config, TakeTurn(config, s, turn))
  {
    hide *;
    var l := s.lease.value;
    TurnIs(config, s, turn);
    ActExact(config, s, Turns(turn));
    ActClean(config, s, Turns(turn));
    var m, t := Take(l, turn), TakeTurn(config, s, turn);
    CleanReduced(config, s, l);
    CleanReduced(config, t, m);
    if turn.Runs? {
      RunShown(config, s, l, turn.ok);
      LeaseShown(config, Reduce(config, s, AppliedBatch(l, turn.ok)), Some(m));
    } else if turn.Commits? && Resolved(l, l.committed) && l.committed < |s.log| {
      EnabledCommit(l, turn);
      CommitShown(config, s, l);
      LeaseShown(config, Save(s, l.committed), Some(m));
    } else {
      LeaseShown(config, s, Some(m));
    }
  }

  /** What a turn does to the session, case by case. */
  lemma TurnIs<S, V>(config: Config<S, V>, s: Session<S, V>, turn: Turn)
    requires s.lease.Some? && TurnFits(s.log, s.lease.value, turn)
    ensures CanAct<S, V>(config, s, Turns(turn)) && Enabled(s.lease.value, turn)
    ensures Act(config, s, Turns(turn)) == TakeTurn(config, s, turn)
    ensures var l, t := s.lease.value, TakeTurn(config, s, turn);
      && t.log == s.log && t.lease == Some(Take(l, turn))
      && (turn.Runs? ==> CanRun(l) && turn == Runs(turn.ok)
                         && t == Reduce(config, s, AppliedBatch(l, turn.ok)).(lease := Some(Take(l, turn))))
      && (turn.Commits? && Resolved(l, l.committed) && l.committed < |s.log| ==>
            t == Save(s, l.committed).(lease := Some(Take(l, turn))))
      && (!turn.Runs? && !(turn.Commits? && Resolved(l, l.committed) && l.committed < |s.log|) ==>
            t == s.(lease := Some(Take(l, turn))))
  {
    hide Take, AppliedBatch, Resolved;
  }

  lemma EnabledCommit(l: Lease, turn: Turn)
    requires Enabled(l, turn) && turn.Commits?
    ensures CanCommit(l)
  {
  }

  lemma ReopenShown<S, V>(config: Config<S, V>, s: Session<S, V>)
    requires Replay.Ordered(s.log) && ReducedThrough(config, s, |s.reduced|) && s.store == s.through && Shown(config, s)
    ensures Shown(config, Reopen(config, s))
  {
    FirstBehindAt(s.log, |s.reduced|);
  }

  lemma ActShown<S, V>(config: Config<S, V>, s: Session<S, V>, action: Action<V>)
    requires StreamOk(config, s) && Exact(config, s) && CleanSession(s) && Shown(config, s)
    requires CanAct(config, s, action) && (action.Turns? && action.turn.Runs? ==> action.turn.ok)
    requires Admissible(config.policy, s.log)
    ensures Shown(config, Act(config, s, action))
  {
    hide Take, Enabled, Clean, Closed, Attached;
    match action {
      case Turns(turn) => TurnShown(config, s, turn);
      case Opens => ReopenShown(config, s);
      case Closes =>
      case Hydrates =>
      case Publishes(d) =>
        assert forall n: nat | n <= |s.log| :: CursorAt(s.log + [d], n) == CursorAt(s.log, n);
    }
  }

  lemma {:induction false} RunShows<S, V>(config: Config<S, V>, s: Session<S, V>, actions: seq<Action<V>>)
    requires StreamOk(config, s) && Exact(config, s) && CleanSession(s) && Shown(config, s)
    requires Replay.Possible(config, s, actions) && AllAdmissible(config.policy, actions) && ReducerSucceeds(actions)
    requires Admissible(config.policy, s.log)
    ensures Shown(config, Replay.Run(config, s, actions))
    decreases |actions|
  {
    hide StreamOk, Exact, CleanSession, Shown, CanAct, Act, Admissible, Admit;
    if actions != [] {
      ActExact(config, s, actions[0]);
      ActClean(config, s, actions[0]);
      ActShown(config, s, actions[0]);
      AdmissibleAct(config, s, actions[0]);
      RunShows(config, Act(config, s, actions[0]), actions[1..]);
    }
  }

  lemma StartShown<S, V>(config: Config<S, V>)
    ensures Shown(config, Start(config))
  {
  }

  /**
   The moment of hydration: the shown cursor is that of the state exactly when no delivery was reduced after the
   last one the catch-up result counts, or when that result carries no cursor at all.
   */
  lemma HydrationCursor<S, V>(config: Config<S, V>, actions: seq<Action<V>>)
    requires config.policy.Valid() && Replay.Possible(config, Start(config), actions)
    requires AllAdmissible(config.policy, actions) && ReducerSucceeds(actions)
    requires CanAct(config, Replay.Run(config, Start(config), actions), Hydrates)
    ensures var s := Replay.Run(config, Start(config), actions);
      var c := s.caughtUp.value;
      var current := c.cursor.None? || (0 < c.positions && c.positions == |s.reduced|);
      Act(config, s, Hydrates).shown == s.through <==> current
  {
    StartExact(config);
    StartShown(config);
    RunExactly(config, Start(config), actions);
    RunShows(config, Start(config), actions);
    TransportFailuresHarmless(config, actions);
    var s := Replay.Run(config, Start(config), actions);
    var c := s.caughtUp.value;
    if 0 < c.positions < |s.reduced| {
      assert s.log[c.positions - 1].sequence < s.log[|s.reduced| - 1].sequence;
    }
  }

  // ---------------------------------------------------------------------------------------------
  // A run that hydrates behind the state
  // ---------------------------------------------------------------------------------------------

  /** Whether the policy cuts at each delivery. */
  predicate CutsEach(policy: Policy) {
    policy.maxItems == Some(1)
  }

  function Item(n: nat): Entry<nat> {
    Entry(n, n, 0)
  }

  /** The first delivery, retained when the attempt opens; the second is published once the first is committed. */
  function Delivered<S, V>(config: Config<S, V>, value: V, n: nat): Delivery<V> {
    Delivery((if config.after.Some? then config.after.value + 1 else 0) + n, value, Size(0))
  }

  /** What cuts the second delivery: its pull, the timer, or the end of the messages. */
  function CutBy(policy: Policy): Turn {
    if CutsEach(policy) then Pulls(Size(0)) else if policy.timed then Ticks else Ends
  }

  /** The turns of the attempt; under a policy that cuts at each delivery the seventh is left out. */
  function LagTurns(policy: Policy): (r: seq<Turn>)
    ensures |r| == 9
  {
    [Pulls(Size(0)), Runs(true), Resumes, Commits, Runs(true), Resumes, Pulls(Size(0)), CutBy(policy), Runs(true)]
  }

  /** The turn is taken, or left out. */
  predicate Taken(policy: Policy, n: nat) {
    n != 6 || !CutsEach(policy)
  }

  function FirstReason(policy: Policy): Reason {
    if CutsEach(policy) then ByCount else ByHand
  }

  function SecondReason(policy: Policy): Reason {
    if CutsEach(policy) then ByCount else if policy.timed then ByTime else ByHand
  }

  /** The coordinator with the first delivery cut, applied, and with the second one cut behind it. */
  function OneCut(policy: Policy): State<nat> {
    Batching.Initial<nat>(policy).(tickets := 1, accepted := [Item(0)], drained := [[Item(0)]])
  }

  function OneApplied(policy: Policy): State<nat> {
    OneCut(policy).(finished := [Outcome([Item(0)], true)], settled := [Settlement(0, true)])
  }

  function TwoCut(policy: Policy): State<nat> {
    OneApplied(policy).(tickets := 2, accepted := [Item(0), Item(1)], drained := [[Item(0)], [Item(1)]])
  }

  /** The attempt after `n` of those turns. */
  function LagLease(policy: Policy, n: nat): Lease
    requires n <= 9
  {
    var l, applied := Open(policy, 0, 1), OneApplied(policy);
    var once, committed := l.(pulled := 1), l.(pulled := 1, committed := 1);
    var barrier := applied.(applications := [Barrier(1)]);
    var behind := if CutsEach(policy) then [Barrier(2)] else [];
    var place := if CutsEach(policy) then Waiting(2, true) else if policy.timed then Pulling else FlushingTail;
    var cut := l.(pulled := 2, committed := 1, place := place);
    match n
    case 0 => l
    case 1 =>
      once.(batcher := OneCut(policy).(applications := [Apply([Item(0)], FirstReason(policy))]),
            place := FlushingReplay(1))
    case 2 => once.(batcher := applied, place := FlushingReplay(1))
    case 3 => once.(batcher := barrier, place := Waiting(1, false))
    case 4 => committed.(batcher := barrier, place := Waiting(1, false))
    case 5 => committed.(batcher := applied, place := Waiting(1, false))
    case 6 => committed.(batcher := applied)
    case 7 =>
      if CutsEach(policy) then committed.(batcher := applied)
      else
        committed.(pulled := 2,
                   batcher := applied.(tickets := 2, accepted := [Item(0), Item(1)], pending := [Item(1)],
                                       timer := policy.timed))
    case 8 =>
      cut.(batcher := TwoCut(policy).(applications := [Apply([Item(1)], SecondReason(policy))] + behind))
    case 9 =>
      cut.(batcher := TwoCut(policy).(applications := behind,
                                      finished := [Outcome([Item(0)], true), Outcome([Item(1)], true)],
                                      settled := [Settlement(0, true), Settlement(1, true)]))
  }

  /** A delivery without size meets an empty buffer: it is cut at once or stored. */
  lemma AddFirst(b: State<nat>, n: nat)
    requires b.policy.Valid() && !b.cancelled && !b.completed && b.pending == [] && b.pendingBytes == 0
    requires b.tickets == n && b.applications == [] && !b.timer
    ensures
      var next := b.(tickets := n + 1, accepted := b.accepted + [Item(n)]);
      Batching.Add(b, n, Size(0))
      == if CutsEach(b.policy)
         then next.(drained := b.drained + [[Item(n)]], applications := [Apply([Item(n)], ByCount)])
         else next.(pending := [Item(n)], timer := b.policy.timed)
  {
    var stored := Store(b, n, 0);
    assert stored.pending == [Item(n)] && b.applications + [Apply([Item(n)], ByCount)] == [Apply([Item(n)], ByCount)];
  }

  /** What is in the buffer is cut behind an empty chain. */
  lemma CutBuffer(b: State<nat>, n: nat, reason: Reason)
    requires b.pending == [Item(n)] && !b.cancelled && b.applications == []
    ensures
      Drain(b, reason)
      == b.(timer := false, pending := [], pendingBytes := 0, applications := [Apply([Item(n)], reason)],
            drained := b.drained + [[Item(n)]])
  {
    assert b.applications + [Apply([Item(n)], reason)] == [Apply([Item(n)], reason)];
  }

  lemma FirstCut(policy: Policy)
    requires policy.Valid()
    ensures Drain(Batching.Add(Batching.Initial<nat>(policy), 0, Size(0)), ByHand)
         == OneCut(policy).(applications := [Apply([Item(0)], FirstReason(policy))])
  {
    var b := Batching.Initial<nat>(policy);
    AddFirst(b, 0);
    assert b.accepted + [Item(0)] == [Item(0)] && b.drained + [[Item(0)]] == [[Item(0)]];
    var added := Batching.Add(b, 0, Size(0));
    hide Batching.Add;
    if CutsEach(policy) {
      assert added.pending == [];
    } else {
      CutBuffer(added, 0, ByHand);
      hide Drain;
    }
  }

  lemma LagPullsFirst(policy: Policy)
    requires policy.Valid()
    ensures Enabled(LagLease(policy, 0), Pulls(Size(0)))
    ensures Take(LagLease(policy, 0), Pulls(Size(0))) == LagLease(policy, 1)
  {
    FirstCut(policy);
    hide Batching.Add, Drain, OneCut, OneApplied, TwoCut, FirstReason, SecondReason, Batching.Initial;
  }

  lemma LagPullsSecond(policy: Policy)
    requires policy.Valid()
    ensures Enabled(LagLease(policy, 6), Pulls(Size(0)))
    ensures Take(LagLease(policy, 6), Pulls(Size(0))) == LagLease(policy, if CutsEach(policy) then 8 else 7)
  {
    var l := LagLease(policy, 6);
    AddFirst(l.batcher, 1);
    BatchesHead([Apply([Item(1)], ByCount)]);
    assert Batches<nat>([]) == [];
    assert l.batcher.accepted + [Item(1)] == [Item(0), Item(1)];
    assert l.batcher.drained + [[Item(1)]] == [[Item(0)], [Item(1)]];
    hide Batching.Add, Batches;
  }

  lemma LagCuts(policy: Policy)
    requires !CutsEach(policy)
    ensures Enabled(LagLease(policy, 7), CutBy(policy))
    ensures Take(LagLease(policy, 7), CutBy(policy)) == LagLease(policy, 8)
  {
    var b := LagLease(policy, 7).batcher;
    CutBuffer(b, 1, ByHand);
    CutBuffer(b.(timer := false), 1, ByTime);
    assert b.drained + [[Item(1)]] == [[Item(0)], [Item(1)]];
    assert [Apply([Item(1)], SecondReason(policy))] + [] == [Apply([Item(1)], SecondReason(policy))];
    hide Drain;
  }

  lemma LagRuns(policy: Policy, n: nat)
    requires n == 1 || n == 8
    ensures Enabled(LagLease(policy, n), Runs(true)) && Take(LagLease(policy, n), Runs(true)) == LagLease(policy, n + 1)
    ensures AppliedBatch(LagLease(policy, n), true) == [Item(if n == 1 then 0 else 1)]
  {
    var b, c := LagLease(policy, n).batcher, LagLease(policy, n + 1).batcher;
    var k := if n == 1 then 0 else 1;
    assert b.applications[1..] == c.applications && b.finished + [Outcome([Item(k)], true)] == c.finished;
    assert b.settled + Settle([Item(k)], true) == c.settled;
  }

  lemma LagResumes(policy: Policy, n: nat)
    requires n == 2 || n == 5
    ensures Enabled(LagLease(policy, n), Resumes) && Take(LagLease(policy, n), Resumes) == LagLease(policy, n + 1)
  {
    var l := LagLease(policy, n);
    assert l.batcher.applications == [] && Batches(l.batcher.applications) == [];
    assert !HasBarrier(l.batcher.applications);
    assert l.batcher.applications + [Barrier(1)] == [Barrier(1)];
    hide Batches, HasBarrier;
  }

  lemma LagCommits(policy: Policy, n: nat)
    requires n == 3 || n == 4
    ensures Enabled(LagLease(policy, n), LagTurns(policy)[n])
    ensures Take(LagLease(policy, n), LagTurns(policy)[n]) == LagLease(policy, n + 1)
    ensures Resolved(LagLease(policy, n), 0) && (n == 4 ==> AppliedBatch(LagLease(policy, n), true) == [])
  {
    var l := LagLease(policy, n);
    assert l.batcher.settled[0] == Settlement(0, true);
    assert Resolved(l, 0);
    assert l.batcher.applications[1..] == [];
    hide Resolved, Rejected;
  }

  lemma LagTurn(policy: Policy, n: nat)
    requires policy.Valid() && n < 9
    ensures
      var turn := LagTurns(policy)[n];
      if Taken(policy, n)
      then Enabled(LagLease(policy, n), turn) && Take(LagLease(policy, n), turn) == LagLease(policy, n + 1)
      else LagLease(policy, n + 1) == LagLease(policy, n)
  {
    hide Take, Enabled, OneApplied, TwoCut;
    if n == 3 || n == 4 {
      LagCommits(policy, n);
    } else if n == 0 {
      LagPullsFirst(policy);
    } else if n == 1 || n == 8 {
      LagRuns(policy, n);
    } else if n == 2 || n == 5 {
      LagResumes(policy, n);
    } else if CutsEach(policy) {
      LagPullsSecond(policy);
    } else if n == 6 {
      LagPullsSecond(policy);
    } else {
      LagCuts(policy);
    }
  }

  /** The session after `n` of the turns; the second delivery is published ahead of the seventh. */
  function LagSession<S, V>(config: Config<S, V>, value: V, n: nat, published: bool): Session<S, V>
    requires n <= 9
  {
    var first, second := Delivered(config, value, 0), Delivered(config, value, 1);
    var one := config.reduce(config.initial, first);
    var cursor := Some(first.sequence);
    var log := if published then [first, second] else [first];
    var s := Start(config).(log := log, lease := Some(LagLease(config.policy, n)), remaining := 1);
    var reduced := s.(data := one, reduced := [0], through := cursor, shown := cursor);
    var saved := reduced.(store := cursor, remaining := 0, caughtUp := Some(CatchUp(cursor, 1)));
    if n < 2 then s
    else if n < 4 then reduced
    else if n < 9 then saved
    else saved.(data := config.reduce(one, second), reduced := [0, 1], through := Some(second.sequence),
                shown := Some(second.sequence))
  }

  lemma LagReduces<S, V>(config: Config<S, V>, value: V, n: nat)
    requires n == 1 || n == 8
    ensures CanRun(LagLease(config.policy, n))
    ensures
      var s := LagSession(config, value, n, n == 8);
      Reduce(config, s, AppliedBatch(LagLease(config.policy, n), true))
      == LagSession(config, value, n + 1, n == 8).(lease := s.lease)
  {
    LagRuns(config.policy, n);
    var s, k := LagSession(config, value, n, n == 8), if n == 1 then 0 else 1;
    assert [Item(k)][..0] == [] && ReduceBatch(config, s.log, s.data, []) == s.data;
    assert ReduceBatch(config, s.log, s.data, [Item(k)]) == config.reduce(s.data, s.log[k]);
    assert s.reduced + Positions([Item(k)]) == if n == 1 then [0] else [0, 1];
    hide AppliedBatch, LagLease, ReduceBatch;
  }

  /** The counters of the attempt after `n` turns. */
  lemma LagCounters(policy: Policy, n: nat)
    requires n < 9
    ensures
      var l := LagLease(policy, n);
      && l.base == 0 && (n <= 3 ==> l.committed == 0)
      && (n == 0 ==> l.pulled == 0) && (n == 6 || (n == 7 && CutsEach(policy)) ==> l.pulled == 1)
  {
  }

  /** What the turn changes in the session, beside the attempt. */
  lemma LagSteps<S, V>(config: Config<S, V>, value: V, n: nat)
    requires n < 9
    ensures
      var s, t := LagSession(config, value, n, n >= 6), LagSession(config, value, n + 1, n >= 6);
      && s.lease == Some(LagLease(config.policy, n)) && t.lease == Some(LagLease(config.policy, n + 1))
      && 1 <= |s.log| && (n >= 6 ==> |s.log| == 2)
      && (forall i :: 0 <= i < |s.log| ==> s.log[i].measure == Size(0))
      && (n == 3 ==> Save(s, 0).(lease := t.lease) == t)
      && (n != 1 && n != 3 && n != 8 ==> s.(lease := t.lease) == t)
  {
    hide LagLease;
  }

  lemma LagFits<S, V>(config: Config<S, V>, value: V, n: nat)
    requires config.policy.Valid() && n < 9 && Taken(config.policy, n)
    ensures
      TurnFits(LagSession(config, value, n, n >= 6).log, LagLease(config.policy, n), LagTurns(config.policy)[n])
  {
    hide Enabled, Take, LagLease, LagSession;
    LagSteps(config, value, n);
    LagTurn(config.policy, n);
    LagCounters(config.policy, n);
  }

  lemma TurnKinds(policy: Policy, n: nat)
    requires n < 9
    ensures
      var turn := LagTurns(policy)[n];
      && (turn.Runs? <==> n == 1 || n == 4 || n == 8) && (turn.Runs? ==> turn.ok) && (turn.Commits? <==> n == 3)
  {
  }

  lemma ReduceNone<S, V>(config: Config<S, V>, s: Session<S, V>)
    ensures Reduce(config, s, []) == s
  {
  }

  lemma LagAct<S, V>(config: Config<S, V>, value: V, n: nat)
    requires config.policy.Valid() && n < 9 && Taken(config.policy, n)
    ensures
      var s, turn := LagSession(config, value, n, n >= 6), LagTurns(config.policy)[n];
      && CanAct<S, V>(config, s, Turns(turn))
      && Act(config, s, Turns(turn)) == LagSession(config, value, n + 1, n >= 6)
  {
    hide *;
    var s := LagSession(config, value, n, n >= 6);
    LagSteps(config, value, n);
    LagFits(config, value, n);
    LagTurn(config.policy, n);
    TurnIs(config, s, LagTurns(config.policy)[n]);
    TurnKinds(config.policy, n);
    LagCounters(config.policy, n);
    ReduceNone(config, s);
    if n == 1 || n == 8 {
      LagReduces(config, value, n);
    } else if n == 3 || n == 4 {
      LagCommits(config.policy, n);
    }
  }

  /** The action for the `n`-th turn, unless it is left out. */
  function LagAction<V>(policy: Policy, n: nat): seq<Action<V>>
    requires n < 9
  {
    if Taken(policy, n) then [Turns(LagTurns(policy)[n])] else []
  }

  function LagActions<S, V>(config: Config<S, V>, value: V, n: nat): seq<Action<V>>
    requires n <= 9
  {
    if n == 0 then [Publishes(Delivered(config, value, 0)), Opens]
    else
      LagActions(config, value, n - 1)
      + (if n == 7 then [Publishes(Delivered(config, value, 1))] else [])
      + LagAction(config.policy, n - 1)
  }

  lemma LagOpens<S, V>(config: Config<S, V>, value: V)
    ensures Replay.Possible(config, Start(config), LagActions(config, value, 0))
    ensures Replay.Run(config, Start(config), LagActions(config, value, 0)) == LagSession(config, value, 0, false)
  {
    var first, none: seq<Action<V>> := Delivered(config, value, 0), [];
    var s0 := Start(config);
    var s1 := Act(config, s0, Publishes(first));
    assert s1 == s0.(log := [first]) && CanAct<S, V>(config, s1, Opens);
    assert Act(config, s1, Opens) == LagSession(config, value, 0, false);
    hide CanAct, Act;
    ActsSnoc(config, s0, none, Publishes(first));
    ActsSnoc(config, s0, none + [Publishes(first)], Opens);
    assert none + [Publishes(first)] + [Opens] == [Publishes(first), Opens];
  }

  /** The run goes on with the `n`-th turn, or stays where it is when that turn is left out. */
  lemma LagContinues<S, V>(config: Config<S, V>, value: V, before: seq<Action<V>>, n: nat)
    requires config.policy.Valid() && n < 9 && Replay.Possible(config, Start(config), before)
    requires Replay.Run(config, Start(config), before) == LagSession(config, value, n, n >= 6)
    ensures
      var after := before + LagAction(config.policy, n);
      && Replay.Possible(config, Start(config), after)
      && Replay.Run(config, Start(config), after) == LagSession(config, value, n + 1, n >= 6)
  {
    hide CanAct, Act, LagLease, LagTurns;
    if Taken(config.policy, n) {
      LagAct(config, value, n);
      hide LagSession;
      ActsSnoc(config, Start(config), before, Turns(LagTurns(config.policy)[n]));
    } else {
      LagTurn(config.policy, n);
      assert before + LagAction(config.policy, n) == before;
    }
  }

  lemma {:induction false} LagRun<S, V>(config: Config<S, V>, value: V, n: nat)
    requires config.policy.Valid() && n <= 9
    ensures Replay.Possible(config, Start(config), LagActions(config, value, n))
    ensures Replay.Run(config, Start(config), LagActions(config, value, n)) == LagSession(config, value, n, n >= 7)
  {
    hide CanAct, Act, LagSession, LagAction;
    if n == 0 {
      LagOpens(config, value);
    } else {
      var before := LagActions(config, value, n - 1);
      LagRun(config, value, n - 1);
      if n == 7 {
        LagPublishes(config, value);
        ActsSnoc(config, Start(config), before, Publishes(Delivered(config, value, 1)));
        LagContinues(config, value, before + [Publishes(Delivered(config, value, 1))], 6);
      } else {
        assert before + [] == before;
        LagContinues(config, value, before, n - 1);
      }
    }
  }

  lemma LagPublishes<S, V>(config: Config<S, V>, value: V)
    ensures
      var s, d := LagSession(config, value, 6, false), Delivered(config, value, 1);
      CanAct(config, s, Publishes(d)) && Act(config, s, Publishes(d)) == LagSession(config, value, 6, true)
  {
    assert LagSession(config, value, 6, false).log + [Delivered(config, value, 1)]
        == LagSession(config, value, 6, true).log;
    hide LagLease;
  }

  /**
   Under every policy: a run in which every reduction succeeds and no attempt is repeated, after which hydration shows
   a cursor behind the state.
   */
  lemma HydrationLags<S, V>(config: Config<S, V>, value: V) returns (actions: seq<Action<V>>)
    requires config.policy.Valid()
    ensures Replay.Possible(config, Start(config), actions) && ReducerSucceeds(actions)
    ensures
      var s := Replay.Run(config, Start(config), actions);
      && s.restarts == 0 && CanAct<S, V>(config, s, Hydrates)
      && s.through == Some(Delivered(config, value, 1).sequence)
      && Act(config, s, Hydrates).shown == Some(Delivered(config, value, 0).sequence)
  {
    actions := LagActions(config, value, 9);
    LagRun(config, value, 9);
    LagSucceeds(config, value, 9);
    hide LagLease, LagActions;
  }

  lemma {:induction false} LagSucceeds<S, V>(config: Config<S, V>, value: V, n: nat)
    requires n <= 9
    ensures ReducerSucceeds(LagActions(config, value, n))
  {
    if n > 0 {
      LagSucceeds(config, value, n - 1);
    }
  }
}
