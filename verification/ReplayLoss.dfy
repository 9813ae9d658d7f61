/**
 When a retained delivery can be lost. A delivery that its batch policy refuses fails its commit, and that normally
 ends the session. Where a timer cuts the deliveries behind it first, a transport failure can hide the failure.
 */
module ReplayLoss {
  import opened Prelude
  import opened Batching
  import opened Intake
  import opened IntakeExactness
  import opened IntakeRefusals
  import opened Replay
  import opened ReplayExactness

  /** A retained delivery that was never reduced, although the next attempt starts behind it. */
  ghost predicate Lost<S, V>(config: Config<S, V>, s: Session<S, V>) {
    && s.lease.None? && !s.ended
    && exists p: nat :: p < Reopen(config, s).lease.value.base && p !in s.reduced
  }

  // ---------------------------------------------------------------------------------------------
  // One attempt: a refused delivery, another behind it, a timer, and a transport failure
  // ---------------------------------------------------------------------------------------------

  const Second: Entry<nat> := Entry(1, 1, 0)

  /** The coordinator after both pulls: the first delivery refused, the second buffered. */
  function Buffered(policy: Policy): State<nat> {
    Store(Refuse(Batching.Initial<nat>(policy)), 1, 0).(timer := true)
  }

  function Cut(policy: Policy): State<nat> {
    Buffered(policy).(timer := false, pending := [], applications := [Apply([Second], ByTime)], drained := [[Second]])
  }

  function Applied(policy: Policy): State<nat> {
    Cut(policy).(cancelled := true, applications := [], finished := [Outcome([Second], true)],
                 settled := [Settlement(0, false), Settlement(1, true)])
  }

  lemma FirstRefused(policy: Policy)
    requires policy.Valid() && CanLose(policy)
    ensures Enabled(Open(policy, 0, 0), Pulls(Size(policy.maxBytes.value + 1)))
    ensures Take(Open(policy, 0, 0), Pulls(Size(policy.maxBytes.value + 1)))
         == Open(policy, 0, 0).(pulled := 1, batcher := Refuse(Batching.Initial(policy)))
  {
  }

  lemma SecondBuffered(policy: Policy)
    requires policy.Valid() && CanLose(policy)
    ensures var l := Open(policy, 0, 0).(pulled := 1, batcher := Refuse(Batching.Initial(policy)));
      && Enabled(l, Pulls(Size(0)))
      && Take(l, Pulls(Size(0))) == l.(pulled := 2, batcher := Buffered(policy))
  {
    var b := Refuse(Batching.Initial<nat>(policy));
    assert b.pending == [] && b.applications == [] && Admit(policy, Size(0)) == Admitted(0);
    assert Batching.Add(b, 1, Size(0)) == Buffered(policy);
    assert Batches(Buffered(policy).applications) == [];
  }

  lemma TimerCuts(policy: Policy)
    requires policy.Valid() && CanLose(policy)
    ensures Buffered(policy).timer
    ensures Batching.TimerFires(Buffered(policy)) == Cut(policy)
  {
    assert Buffered(policy).pending == [Second] && Buffered(policy).drained == [];
    assert [] + [Apply([Second], ByTime)] == [Apply([Second], ByTime)];
  }

  lemma TransportBreaks(policy: Policy)
    ensures Batching.Cancel(Cut(policy)) == Cut(policy).(cancelled := true)
  {
    assert Cut(policy).pending == [] && Cut(policy).dropped == [] && !Cut(policy).cancelled;
    assert Cut(policy).dropped + [] == [];
    assert Cut(policy).settled + Settle(Cut(policy).pending, false) == Cut(policy).settled;
  }

  lemma BatchApplies(policy: Policy)
    ensures RunNext(Cut(policy).(cancelled := true), true) == Applied(policy)
  {
    var b := Cut(policy).(cancelled := true);
    assert b.applications[1..] == [] && b.settled == [Settlement(0, false)] && b.finished == [];
    assert b.settled + Settle([Second], true) == [Settlement(0, false), Settlement(1, true)];
  }

  /** The first delivery's promise was rejected, the second one's resolved. */
  lemma BothSettled(l: Lease)
    requires l.base == 0 && l.batcher.settled == [Settlement(0, false), Settlement(1, true)]
    ensures Rejected(l, 0) && !Resolved(l, 0) && Resolved(l, 1)
  {
    var settled := l.batcher.settled;
    assert settled[0] == Settlement(0, false) && settled[1] == Settlement(1, true);
  }

  /** The turns of the attempt, from the two pulls to the two commits. */
  function LosingTurns(policy: Policy): seq<Turn>
    requires policy.maxBytes.Some?
  {
    [Pulls(Size(policy.maxBytes.value + 1)), Pulls(Size(0)), Ticks, Breaks, Runs(true), Commits, Commits]
  }

  /** The attempt as its turns leave it. */
  function AfterTurns(policy: Policy, n: nat): Lease
    requires n <= 7
  {
    var l := Open(policy, 0, 0);
    match n
    case 0 => l
    case 1 => l.(pulled := 1, batcher := Refuse(Batching.Initial(policy)))
    case 2 => l.(pulled := 2, batcher := Buffered(policy))
    case 3 => l.(pulled := 2, batcher := Cut(policy))
    case 4 => l.(pulled := 2, batcher := Cut(policy).(cancelled := true), place := Unwinding(true))
    case 5 => l.(pulled := 2, batcher := Applied(policy), place := Unwinding(true))
    case _ =>
      l.(pulled := 2, batcher := Applied(policy), place := Unwinding(true), committed := n - 5,
         applicationFailed := true)
  }

  lemma EachTurn(policy: Policy, n: nat)
    requires policy.Valid() && CanLose(policy) && n < 7
    ensures Enabled(AfterTurns(policy, n), LosingTurns(policy)[n])
    ensures Take(AfterTurns(policy, n), LosingTurns(policy)[n]) == AfterTurns(policy, n + 1)
  {
    var l := AfterTurns(policy, n);
    match n {
      case 0 => FirstRefused(policy);
      case 1 => SecondBuffered(policy);
      case 2 => TimerCuts(policy);
      case 3 =>
        hide Cut;
        TransportBreaks(policy);
      case 4 =>
        assert !Cut(policy).barrierFailed && Cut(policy).applications == [Apply([Second], ByTime)];
        hide Cut, Applied;
        BatchApplies(policy);
      case 5 => BothSettled(l);
      case 6 => BothSettled(l);
    }
  }

  /** One attempt closes for a retry with its commits past a delivery that was never applied. */
  lemma OversizeIsLost(policy: Policy)
    requires policy.Valid() && CanLose(policy)
    ensures
      var l := AfterTurns(policy, 7);
      && Closed(l) && l.place.infrastructure && l.committed == 2
      && Rejected(l, 0) && Resolved(l, 1) && AppliedEntries(l.batcher.finished) == [Second]
  {
    var l := AfterTurns(policy, 7);
    BothSettled(l);
    AppliedSnoc([], Outcome([Second], true));
    assert [] + [Outcome([Second], true)] == l.batcher.finished;
  }

  // ---------------------------------------------------------------------------------------------
  // The session around it
  // ---------------------------------------------------------------------------------------------

  function FirstSequence<S, V>(config: Config<S, V>): nat {
    if config.after.Some? then config.after.value + 1 else 0
  }

  /** Two retained deliveries: one larger than any batch, and one that fits. */
  function TwoDeliveries<S, V>(config: Config<S, V>, value: V): seq<Delivery<V>>
    requires config.policy.maxBytes.Some?
  {
    [Delivery(FirstSequence(config), value, Size(config.policy.maxBytes.value + 1)),
     Delivery(FirstSequence(config) + 1, value, Size(0))]
  }

  /** The session opens on an empty stream, to which the two deliveries are then published. */
  function Published<S, V>(config: Config<S, V>, value: V): Session<S, V>
    requires config.policy.maxBytes.Some?
  {
    Start(config).(log := TwoDeliveries(config, value), lease := Some(Open(config.policy, 0, 0)),
                   caughtUp := Some(CatchUp(config.after, 0)))
  }

  function Before<S, V>(config: Config<S, V>, value: V): seq<Action<V>>
    requires config.policy.maxBytes.Some?
  {
    var log := TwoDeliveries(config, value);
    [Opens, Publishes(log[0]), Publishes(log[1])]
  }

  lemma Publishing<S, V>(config: Config<S, V>, value: V)
    requires config.policy.Valid() && CanLose(config.policy)
    ensures Replay.Possible(config, Start(config), Before(config, value))
    ensures Replay.Run(config, Start(config), Before(config, value)) == Published(config, value)
  {
    var log, s0 := TwoDeliveries(config, value), Start(config);
    var s1 := Act(config, s0, Opens);
    assert CanAct(config, s0, Opens);
    assert s1 == s0.(lease := Some(Open(config.policy, 0, 0)), caughtUp := Some(CatchUp(config.after, 0)));
    assert CanAct(config, s1, Publishes(log[0]));
    var s2 := Act(config, s1, Publishes(log[0]));
    assert s2.log == [log[0]] && CanAct(config, s2, Publishes(log[1]));
    assert Act(config, s2, Publishes(log[1])).log == [log[0]] + [log[1]] == log;
    hide CanAct, Act;
    ActsSnoc(config, s0, [], Opens);
    var none: seq<Action<V>> := [];
    assert none + [Opens] == [Opens];
    ActsSnoc(config, s0, [Opens], Publishes(log[0]));
    ActsSnoc(config, s0, [Opens] + [Publishes(log[0])], Publishes(log[1]));
    assert Before(config, value) == [Opens] + [Publishes(log[0])] + [Publishes(log[1])];
  }

  /** The session after `n` of the attempt's turns: the fifth reduces the second delivery, the last one saves it. */
  function SessionAfter<S, V>(config: Config<S, V>, value: V, n: nat): Session<S, V>
    requires config.policy.maxBytes.Some? && n <= 7
  {
    var s := Published(config, value).(lease := Some(AfterTurns(config.policy, n)));
    var cursor := Some(FirstSequence(config) + 1);
    var reduced := if n < 5 then s
                   else s.(data := config.reduce(config.initial, s.log[1]), reduced := [1], through := cursor,
                           shown := cursor);
    if n < 7 then reduced else reduced.(store := cursor)
  }

  lemma SessionTurn<S, V>(config: Config<S, V>, value: V, n: nat)
    requires config.policy.Valid() && CanLose(config.policy) && n < 7
    ensures CanAct<S, V>(config, SessionAfter(config, value, n), Turns(LosingTurns(config.policy)[n]))
    ensures Act(config, SessionAfter(config, value, n), Turns(LosingTurns(config.policy)[n]))
         == SessionAfter(config, value, n + 1)
  {
    var s, turn, l := SessionAfter(config, value, n), LosingTurns(config.policy)[n], AfterTurns(config.policy, n);
    EachTurn(config.policy, n);
    assert l.pulled == (if n < 2 then n else 2) && l.base == 0;
    assert turn.Pulls? ==> turn.measure == s.log[l.pulled].measure;
    if turn.Runs? {
      SecondReduces(config, value, l);
    } else if turn.Commits? {
      BothSettled(l);
    }
    hide Take, Enabled, AfterTurns, Reduce, AppliedBatch, Resolved;
  }

  lemma SecondReduces<S, V>(config: Config<S, V>, value: V, l: Lease)
    requires config.policy.Valid() && CanLose(config.policy) && l == AfterTurns(config.policy, 4)
    ensures CanRun(l) && AppliedBatch(l, true) == [Second]
    ensures Reduce(config, SessionAfter(config, value, 4), [Second])
         == SessionAfter(config, value, 5).(lease := SessionAfter(config, value, 4).lease)
  {
    var s := SessionAfter(config, value, 4);
    assert [Second][..0] == [] && ReduceBatch(config, s.log, s.data, []) == s.data;
    assert ReduceBatch(config, s.log, s.data, [Second]) == config.reduce(s.data, s.log[1]);
    assert [] + Positions([Second]) == [1];
  }

  /** All actions of the losing run up to the `n`-th turn. */
  function LosingActions<S, V>(config: Config<S, V>, value: V, n: nat): seq<Action<V>>
    requires config.policy.maxBytes.Some? && n <= 7
  {
    if n == 0 then Before(config, value)
    else LosingActions(config, value, n - 1) + [Turns(LosingTurns(config.policy)[n - 1])]
  }

  lemma {:induction false} LosingRun<S, V>(config: Config<S, V>, value: V, n: nat)
    requires config.policy.Valid() && CanLose(config.policy) && n <= 7
    ensures Replay.Possible(config, Start(config), LosingActions(config, value, n))
    ensures Replay.Run(config, Start(config), LosingActions(config, value, n)) == SessionAfter(config, value, n)
  {
    hide CanAct, Act, Take, Enabled;
    if n == 0 {
      Publishing(config, value);
      assert Published(config, value) == SessionAfter(config, value, 0);
    } else {
      LosingRun(config, value, n - 1);
      SessionTurn(config, value, n - 1);
      ActsSnoc(config, Start(config), LosingActions(config, value, n - 1), Turns(LosingTurns(config.policy)[n - 1]));
    }
  }

  lemma LossHappens<S, V>(config: Config<S, V>, value: V) returns (actions: seq<Action<V>>)
    requires config.policy.Valid() && CanLose(config.policy)
    ensures Replay.Possible(config, Start(config), actions)
    ensures Lost(config, Replay.Run(config, Start(config), actions))
    ensures Replay.Run(config, Start(config), actions).reduced == [1]
    ensures Reopen(config, Replay.Run(config, Start(config), actions)).lease.value.base == 2
  {
    var turned, s := LosingActions(config, value, 7), SessionAfter(config, value, 7);
    LosingRun(config, value, 7);
    OversizeIsLost(config.policy);
    assert CanAct<S, V>(config, s, Closes) && !Act(config, s, Closes).ended;
    ActsSnoc(config, Start(config), turned, Closes);
    actions := turned + [Closes];
    var closed := Act(config, s, Closes);
    assert closed == s.(lease := None, restarts := 1);
    hide AfterTurns, CanAct, Act;
    BehindBoth(TwoDeliveries(config, value), FirstSequence(config) + 1);
    assert 0 !in closed.reduced;
  }

  lemma BehindBoth<V>(log: seq<Delivery<V>>, cursor: nat)
    requires |log| == 2 && log[0].sequence <= cursor && log[1].sequence <= cursor
    ensures FirstBehind(log, Some(cursor)) == 2
  {
    assert log[1..][0] == log[1] && log[1..][1..] == [];
    assert FirstBehind(log[1..], Some(cursor)) == 1 + FirstBehind(log[1..][1..], Some(cursor));
  }

  /**
   Exactly when a retained delivery can be lost, over all runs with deliveries of any size: when sizes can be
   refused, a timer can cut, and a batch holds more than one delivery.
   */
  lemma LossIffPolicy<S, V>(config: Config<S, V>, value: V)
    requires config.policy.Valid()
    ensures CanLose(config.policy) <==>
      exists actions ::
        Replay.Possible(config, Start(config), actions) && Lost(config, Replay.Run(config, Start(config), actions))
  {
    if CanLose(config.policy) {
      var actions := LossHappens(config, value);
    } else {
      forall actions | Replay.Possible(config, Start(config), actions)
        ensures !Lost(config, Replay.Run(config, Start(config), actions))
      {
        NothingLost(config, actions);
      }
    }
  }

  lemma NothingLost<S, V>(config: Config<S, V>, actions: seq<Action<V>>)
    requires config.policy.Valid() && !CanLose(config.policy) && Replay.Possible(config, Start(config), actions)
    ensures !Lost(config, Replay.Run(config, Start(config), actions))
  {
    ExactlyOnce(config, actions);
    var s := Replay.Run(config, Start(config), actions);
    hide Replay.Run, Replay.Possible, Reopen;
    if s.lease.None? && !s.ended {
      forall p: nat | p < |s.reduced|
        ensures p in s.reduced
      {
        assert s.reduced[p] == p;
      }
    }
  }

  // ---------------------------------------------------------------------------------------------
  // The same loss with a timer that never overtakes a continuation
  // ---------------------------------------------------------------------------------------------

  /** Room for a third delivery behind the refused one. */
  predicate RoomForThree(policy: Policy) {
    policy.maxItems.Some? ==> 3 <= policy.maxItems.value
  }

  const Fitting: seq<Entry<nat>> := [Entry(0, 0, 0), Entry(2, 2, 0)]

  /** A delivery that fits, one that is refused, and another that fits; then the timer, and the transport fails. */
  function PatientTurns(policy: Policy): (r: seq<Turn>)
    requires policy.maxBytes.Some?
    ensures |r| == 9
  {
    [Pulls(Size(0)), Pulls(Size(policy.maxBytes.value + 1)), Pulls(Size(0)), Ticks, Breaks, Runs(true),
     Commits, Commits, Commits]
  }

  function FirstHeld(policy: Policy): State<nat> {
    Batching.Initial<nat>(policy).(tickets := 1, pending := [Fitting[0]], accepted := [Fitting[0]], timer := true)
  }

  function BothHeld(policy: Policy): State<nat> {
    Batching.Initial<nat>(policy).(tickets := 3, pending := Fitting, accepted := Fitting, timer := true,
                                   settled := [Settlement(1, false)])
  }

  function BothCut(policy: Policy): State<nat> {
    BothHeld(policy).(timer := false, pending := [], applications := [Apply(Fitting, ByTime)], drained := [Fitting])
  }

  function BothApplied(policy: Policy): State<nat> {
    BothCut(policy).(cancelled := true, applications := [], finished := [Outcome(Fitting, true)],
                     settled := [Settlement(1, false), Settlement(0, true), Settlement(2, true)])
  }

  function PatientLease(policy: Policy, n: nat): Lease
    requires n <= 9
  {
    var l := Open(policy, 0, 0);
    match n
    case 0 => l
    case 1 => l.(pulled := 1, batcher := FirstHeld(policy))
    case 2 => l.(pulled := 2, batcher := Refuse(FirstHeld(policy)))
    case 3 => l.(pulled := 3, batcher := BothHeld(policy))
    case 4 => l.(pulled := 3, batcher := BothCut(policy))
    case 5 => l.(pulled := 3, batcher := BothCut(policy).(cancelled := true), place := Unwinding(true))
    case _ =>
      l.(pulled := 3, batcher := BothApplied(policy), place := Unwinding(true), committed := n - 6,
         applicationFailed := n >= 8)
  }

  lemma PatientPulls(policy: Policy, n: nat)
    requires policy.Valid() && CanLose(policy) && RoomForThree(policy) && n < 3
    ensures Enabled(PatientLease(policy, n), PatientTurns(policy)[n])
    ensures Take(PatientLease(policy, n), PatientTurns(policy)[n]) == PatientLease(policy, n + 1)
  {
    var none: seq<Entry<nat>> := [];
    assert none + [Fitting[0]] == [Fitting[0]] && [Fitting[0]] + [Fitting[1]] == Fitting;
    assert Batches<nat>([]) == [];
    assert [] + [Settlement(1, false)] == [Settlement(1, false)];
    hide Batches;
  }

  lemma PatientEnds(policy: Policy, n: nat)
    requires 3 <= n < 6 && policy.maxBytes.Some?
    ensures Enabled(PatientLease(policy, n), PatientTurns(policy)[n])
    ensures Take(PatientLease(policy, n), PatientTurns(policy)[n]) == PatientLease(policy, n + 1)
  {
    var none: seq<Entry<nat>> := [];
    assert none + none == none && Settle(none, false) == [];
    assert [Settlement(1, false)] + [] == [Settlement(1, false)];
    assert [] + [Apply(Fitting, ByTime)] == [Apply(Fitting, ByTime)] && [] + [Fitting] == [Fitting];
    assert [Settlement(1, false)] + Settle(Fitting, true)
        == [Settlement(1, false), Settlement(0, true), Settlement(2, true)];
    assert [] + [Outcome(Fitting, true)] == [Outcome(Fitting, true)];
    hide Settle;
  }

  lemma AllSettled(l: Lease)
    requires l.base == 0
    requires l.batcher.settled == [Settlement(1, false), Settlement(0, true), Settlement(2, true)]
    ensures Resolved(l, 0) && Rejected(l, 1) && !Resolved(l, 1) && Resolved(l, 2)
  {
    var settled := l.batcher.settled;
    assert settled[0] == Settlement(1, false) && settled[1] == Settlement(0, true) && settled[2] == Settlement(2, true);
  }

  lemma PatientTurn(policy: Policy, n: nat)
    requires policy.Valid() && CanLose(policy) && RoomForThree(policy) && n < 9
    ensures Enabled(PatientLease(policy, n), PatientTurns(policy)[n])
    ensures Take(PatientLease(policy, n), PatientTurns(policy)[n]) == PatientLease(policy, n + 1)
  {
    if n < 3 {
      PatientPulls(policy, n);
    } else if n < 6 {
      PatientEnds(policy, n);
    } else {
      AllSettled(PatientLease(policy, n));
      hide Resolved, Rejected, BothApplied;
    }
  }

  lemma {:induction false} PatientRun(policy: Policy, n: nat, m: nat)
    requires policy.Valid() && CanLose(policy) && RoomForThree(policy) && n <= m <= 9
    ensures IntakeProgress.Possible(PatientLease(policy, n), PatientTurns(policy)[n..m])
    ensures IntakeProgress.Run(PatientLease(policy, n), PatientTurns(policy)[n..m]) == PatientLease(policy, m)
    decreases m - n
  {
    hide Take, Enabled, PatientLease, PatientTurns;
    if n < m {
      var turns := PatientTurns(policy);
      PatientTurn(policy, n);
      assert turns[n..m][0] == turns[n] && turns[n..m][1..] == turns[n + 1..m];
      PatientRun(policy, n + 1, m);
    }
  }

  /**
   With room for three deliveries, the loss needs no timer that overtakes a continuation: when it fires, nothing else
   can go on. The attempt closes for a retry with its commits past the refused delivery.
   */
  lemma LossBehindTimer(policy: Policy)
    requires policy.Valid() && CanLose(policy) && RoomForThree(policy)
    ensures IntakeProgress.Possible(Open(policy, 0, 0), PatientTurns(policy))
    ensures
      var l := IntakeProgress.Run(Open(policy, 0, 0), PatientTurns(policy));
      && Closed(l) && l.place.infrastructure && l.committed == 3
      && Rejected(l, 1) && Resolved(l, 2) && AppliedEntries(l.batcher.finished) == Fitting
    ensures IntakeProgress.Possible(Open(policy, 0, 0), PatientTurns(policy)[..3])
    ensures
      var l := IntakeProgress.Run(Open(policy, 0, 0), PatientTurns(policy)[..3]);
      PatientTurns(policy)[3] == Ticks && l.batcher.timer && !CanRun(l) && !CanCommit(l) && !CanResume(l)
  {
    var l := PatientLease(policy, 9);
    AllSettled(l);
    AppliedSnoc([], Outcome(Fitting, true));
    assert [] + [Outcome(Fitting, true)] == l.batcher.finished;
    assert PatientTurns(policy)[0..9] == PatientTurns(policy);
    PatientRun(policy, 0, 9);
    PatientRun(policy, 0, 3);
    NothingElse(policy);
    hide IntakeProgress.Run, IntakeProgress.Possible, CanRun, CanCommit, CanResume;
  }

  lemma NothingElse(policy: Policy)
    ensures
      var l := PatientLease(policy, 3);
      l.batcher.timer && !CanRun(l) && !CanCommit(l) && !CanResume(l)
  {
    assert PatientLease(policy, 3).batcher.settled == [Settlement(1, false)];
  }
}
