/**
 What a throwing reducer can do to the deliveries behind it. Its own batch is never applied, but a batch that
 was already cut behind it may be. That can happen exactly when the policy lets two batches be cut without a
 barrier between them.
 */
module IntakeContainment {
  import opened Prelude
  import opened Batching
  import opened Intake
  import opened IntakeProgress
  import opened IntakeExactness

  /** The policy never lets intake leave two unfinished batches in the chain. */
  predicate Contains(policy: Policy) {
    || policy.maxItems == Some(1)
    || (!policy.timed && (policy.maxBytes.Some? ==> policy.maxBytes.value == 1))
  }

  predicate AllAdmitted(policy: Policy, turns: seq<Turn>) {
    forall i :: 0 <= i < |turns| && turns[i].Pulls? ==> Admit(policy, turns[i].measure).Admitted?
  }

  // ---------------------------------------------------------------------------------------------
  // A policy that does not contain failures: two runs in which the batch behind a failed one is applied
  // ---------------------------------------------------------------------------------------------

  /** A value that neither fills the buffer nor overflows it is simply buffered. */
  lemma AddBuffers(b: State<nat>, value: nat, size: nat)
    requires b.pending == [] && b.pendingBytes == 0 && !b.cancelled && !b.completed && b.policy.Valid()
    requires b.policy.maxItems != Some(1) && (b.policy.maxBytes.Some? ==> size < b.policy.maxBytes.value)
    requires b.policy.maxBytes.None? ==> size == 0
    ensures Admit(b.policy, Size(size)) == Admitted(size)
    ensures Batching.Add(b, value, Size(size)) == Store(b, value, size).(timer := b.timer || b.policy.timed)
  {
  }

  /** The first delivery of either run stays in the buffer. */
  lemma FirstBuffered(policy: Policy, end: nat, size: nat)
    requires policy.Valid() && policy.maxItems != Some(1) && end != 1
    requires policy.maxBytes.Some? ==> size < policy.maxBytes.value
    requires policy.maxBytes.None? ==> size == 0
    ensures var l := Take(Open(policy, 0, end), Pulls(Size(size)));
      && l.batcher == Store(Batching.Initial<nat>(policy), 0, size).(timer := policy.timed)
      && l.place == Pulling && !l.applicationFailed && l.pulled == 1 && l.initialEnd == end
  {
    AddBuffers(Batching.Initial(policy), 0, size);
  }

  /** The timer cuts the first initial delivery; the flush after the second cuts another batch behind it. */
  lemma TimerThenFlush(policy: Policy) returns (turns: seq<Turn>)
    requires policy.Valid() && policy.timed && policy.maxItems != Some(1)
    ensures Possible(Open(policy, 0, 2), turns) && AllAdmitted(policy, turns)
    ensures !Prefix(IntakeProgress.Run(Open(policy, 0, 2), turns).batcher)
  {
    var first, second := Entry(0, 0, 0), Entry(1, 1, 0);
    var l0 := Open(policy, 0, 2);
    var l1 := Take(l0, Pulls(Size(0)));
    FirstBuffered(policy, 2, 0);
    hide Prefix, Open, AllAdmitted, Batching.Add, Drain;
    var l2 := Take(l1, Ticks);
    TickCuts(l1, policy);
    var l3 := Take(l2, Pulls(Size(0)));
    SecondFlushed(l2, policy);
    turns := [Pulls(Size(0)), Ticks, Pulls(Size(0)), Runs(false), Runs(true)];
    TicksAdmitted(policy, turns);
    ApplySecond(l3, first, second);
    hide RunNext;
    RunFive(l0, turns);
  }

  lemma TicksAdmitted(policy: Policy, turns: seq<Turn>)
    requires policy.Valid() && turns == [Pulls(Size(0)), Ticks, Pulls(Size(0)), Runs(false), Runs(true)]
    ensures AllAdmitted(policy, turns)
  {
  }

  lemma TickCuts(l: Lease, policy: Policy)
    requires l.batcher == Store(Batching.Initial<nat>(policy), 0, 0).(timer := true) && l.place == Pulling
    ensures var r := Take(l, Ticks);
      r == l.(batcher := r.batcher) && TickCut(r.batcher, policy)
  {
    assert l.batcher.pending == [Entry(0, 0, 0)] && l.batcher.accepted == [Entry(0, 0, 0)];
    assert Take(l, Ticks).batcher.applications == [] + [Apply([Entry(0, 0, 0)], ByTime)];
  }

  predicate TickCut(b: State<nat>, policy: Policy) {
    && b.policy == policy && b.pending == [] && b.pendingBytes == 0 && b.tickets == 1
    && !b.cancelled && !b.completed && !b.barrierFailed && b.finished == []
    && b.applications == [Apply([Entry(0, 0, 0)], ByTime)] && b.accepted == [Entry(0, 0, 0)]
  }

  lemma SecondFlushed(l: Lease, policy: Policy)
    requires policy.Valid() && policy.timed && policy.maxItems != Some(1)
    requires TickCut(l.batcher, policy)
    requires l.place == Pulling && l.pulled == 1 && l.initialEnd == 2 && !l.applicationFailed
    ensures var r := Take(l, Pulls(Size(0)));
      && r.batcher.applications == [Apply([Entry(0, 0, 0)], ByTime), Apply([Entry(1, 1, 0)], ByHand)]
      && r.batcher.accepted == [Entry(0, 0, 0), Entry(1, 1, 0)] && r.batcher.finished == [] && !r.batcher.barrierFailed
  {
    AddBuffers(l.batcher, 1, 0);
    hide Batching.Add;
    var b := Batching.Add(l.batcher, 1, Size(0));
    assert b.pending == [Entry(1, 1, 0)] && b.accepted == [Entry(0, 0, 0)] + [Entry(1, 1, 0)];
    assert Drain(b, ByHand).applications == [Apply([Entry(0, 0, 0)], ByTime)] + [Apply([Entry(1, 1, 0)], ByHand)];
  }

  /** A delivery as large as a batch overflows the buffer and then fills it by itself. */
  lemma OverflowFills(b: State<nat>, m: nat)
    requires b.policy.maxBytes == Some(m) && 1 < m && b.policy.maxItems != Some(1) && b.policy.Valid()
    requires b == Store(Batching.Initial<nat>(b.policy), 0, 1).(timer := b.policy.timed)
    ensures var c := Batching.Add(b, 1, Size(m));
      && c.applications == [Apply([Entry(0, 0, 1)], ByBytes), Apply([Entry(1, 1, m)], ByBytes)]
      && c.accepted == [Entry(0, 0, 1), Entry(1, 1, m)] && c.pending == []
      && c.finished == [] && !c.barrierFailed
  {
    assert b.pending == [Entry(0, 0, 1)] && b.accepted == [Entry(0, 0, 1)] && b.pendingBytes == 1;
    var room := Drain(b, ByBytes);
    assert room.applications == [Apply([Entry(0, 0, 1)], ByBytes)] && room.pending == [] && room.pendingBytes == 0;
    var stored := Store(room, 1, m);
    assert stored.pending == [Entry(1, 1, m)] && stored.pendingBytes == m && stored.tickets == 2;
    assert Batching.Add(b, 1, Size(m)) == Drain(stored, ByBytes);
    hide Batching.Add, Store;
    assert stored.accepted == [Entry(0, 0, 1)] + [Entry(1, 1, m)];
  }

  /** One delivery overflows the buffer and fills it again by itself. */
  lemma OverflowAndFill(policy: Policy) returns (turns: seq<Turn>)
    requires policy.Valid() && policy.maxBytes.Some? && policy.maxBytes.value > 1 && policy.maxItems != Some(1)
    ensures Possible(Open(policy, 0, 0), turns) && AllAdmitted(policy, turns)
    ensures !Prefix(IntakeProgress.Run(Open(policy, 0, 0), turns).batcher)
  {
    var m := policy.maxBytes.value;
    var first, second := Entry(0, 0, 1), Entry(1, 1, m);
    var l0 := Open(policy, 0, 0);
    var l1 := Take(l0, Pulls(Size(1)));
    FirstBuffered(policy, 0, 1);
    var l2 := Take(l1, Pulls(Size(m)));
    OverflowFills(l1.batcher, m);
    var c := Batching.Add(l1.batcher, 1, Size(m));
    BatchesHead(c.applications);
    assert l2.batcher == Register(c, 2);
    turns := [Pulls(Size(1)), Pulls(Size(m)), Runs(false), Runs(true)];
    assert AllAdmitted(policy, turns);
    hide Take, Enabled, Prefix, Open, AllAdmitted;
    ApplySecond(l2, first, second);
    RunFour(l0, turns);
  }

  lemma ApplySecond(l: Lease, first: Entry<nat>, second: Entry<nat>)
    requires |l.batcher.applications| >= 2 && first != second && l.batcher.finished == [] && !l.batcher.barrierFailed
    requires l.batcher.applications[0].Apply? && l.batcher.applications[0].batch == [first]
    requires l.batcher.applications[1].Apply? && l.batcher.applications[1].batch == [second]
    requires l.batcher.accepted == [first, second]
    ensures CanRun(l) && CanRun(RunHead(l, false))
    ensures !Prefix(RunHead(RunHead(l, false), true).batcher)
  {
    var m := RunHead(l, false);
    assert m.batcher.finished == [Outcome([first], false)];
    var n := RunHead(m, true);
    assert n.batcher.finished == m.batcher.finished + [Outcome([second], true)];
    AppliedSnoc(m.batcher.finished, Outcome([second], true));
    AppliedSnoc([], Outcome([first], false));
    assert m.batcher.finished == [] + [Outcome([first], false)];
    assert AppliedEntries(n.batcher.finished) == [second];
    assert n.batcher.accepted == [first, second];
    assert !([second] <= [first, second]) by {
      assert [second][0] != [first, second][0];
    }
  }

  lemma RunFour(l: Lease, turns: seq<Turn>)
    requires |turns| == 4
    requires Enabled(l, turns[0])
    requires var m := Take(l, turns[0]); Enabled(m, turns[1])
    requires var m := Take(Take(l, turns[0]), turns[1]); Enabled(m, turns[2])
    requires var m := Take(Take(Take(l, turns[0]), turns[1]), turns[2]); Enabled(m, turns[3])
    ensures Possible(l, turns)
    ensures IntakeProgress.Run(l, turns) == Take(Take(Take(Take(l, turns[0]), turns[1]), turns[2]), turns[3])
  {
    hide Enabled, Take;
    var l1 := Take(l, turns[0]);
    var l2 := Take(l1, turns[1]);
    var l3 := Take(l2, turns[2]);
    var l4 := Take(l3, turns[3]);
    var t1, t2, t3, t4 := turns[1..], turns[2..], turns[3..], turns[4..];
    assert t1[1..] == t2 && t2[1..] == t3 && t3[1..] == t4 && t4 == [];
    assert Possible(l4, t4) && IntakeProgress.Run(l4, t4) == l4;
    assert Possible(l3, t3) && IntakeProgress.Run(l3, t3) == l4;
    assert Possible(l2, t2) && IntakeProgress.Run(l2, t2) == l4;
    assert Possible(l1, t1) && IntakeProgress.Run(l1, t1) == l4;
  }

  lemma RunFive(l: Lease, turns: seq<Turn>)
    requires |turns| == 5 && Enabled(l, turns[0])
    requires var m := Take(l, turns[0]); Enabled(m, turns[1])
    requires var m := Take(Take(l, turns[0]), turns[1]); Enabled(m, turns[2])
    requires var m := Take(Take(Take(l, turns[0]), turns[1]), turns[2]); Enabled(m, turns[3])
    requires var m := Take(Take(Take(Take(l, turns[0]), turns[1]), turns[2]), turns[3]); Enabled(m, turns[4])
    ensures Possible(l, turns)
    ensures IntakeProgress.Run(l, turns)
         == Take(Take(Take(Take(Take(l, turns[0]), turns[1]), turns[2]), turns[3]), turns[4])
  {
    hide Enabled, Take;
    var rest := turns[1..];
    RunFour(Take(l, turns[0]), rest);
  }

  // ---------------------------------------------------------------------------------------------
  // A policy that contains failures: at most one batch is ever unfinished
  // ---------------------------------------------------------------------------------------------

  ghost predicate Single(l: Lease) {
    && Batching.Inv(l.batcher) && Contains(l.batcher.policy) && !l.batcher.timer
    && Load(l.batcher) <= 1
    && (Spoiled(l.batcher) ==> Load(l.batcher) == 0 && l.applicationFailed)
    && (l.place.Pulling? ==> Batches(l.batcher.applications) == [])
    && (l.place.Waiting? && l.place.chain ==> LoadBehind(l.batcher) == 0)
  }

  lemma NoOverflow(b: State<nat>, size: nat)
    requires Batching.Inv(b) && Contains(b.policy) && (b.policy.maxBytes.Some? ==> size <= b.policy.maxBytes.value)
    requires !b.timer
    ensures !b.policy.Overflows(|b.pending|, b.pendingBytes, size)
  {
  }

  lemma AddSingle(b: State<nat>, value: nat, measure: Measure)
    requires Batching.Inv(b) && Contains(b.policy) && !b.timer && !b.cancelled && !b.completed
    requires Load(b) <= 1 && Batches(b.applications) == []
    ensures var c := Batching.Add(b, value, measure);
      Load(c) <= 1 && !c.timer && Batching.Inv(c) && c.policy == b.policy
  {
    hide Batching.Inv, Batches, Behind;
    var admission, c := Admit(b.policy, measure), Batching.Add(b, value, measure);
    AddInv(b, value, measure);
    if admission.Admitted? {
      NoOverflow(b, admission.size);
      var stored := Store(b, value, admission.size);
      CutLoad(stored);
      assert c == CutOrArm(stored);
    }
  }

  lemma DrainInvFrom(b: State<nat>, reason: Reason)
    requires Batching.Inv(b)
    ensures Batching.Inv(Drain(b, reason)) && Drain(b, reason).pending == []
    ensures Drain(b, reason).policy == b.policy && (!b.timer ==> !Drain(b, reason).timer)
  {
    DrainInv(b, reason);
  }

  ghost predicate SingleBatch(b: State<nat>) {
    Batching.Inv(b) && Contains(b.policy) && !b.timer && !b.cancelled && Load(b) <= 1 && !Spoiled(b)
  }

  lemma FlushSingle(l: Lease, b: State<nat>)
    requires SingleBatch(b)
    ensures Single(l.(pulled := l.pulled + 1, batcher := Drain(b, ByHand), place := FlushingReplay(l.pulled + 1)))
  {
    hide Batching.Inv, Behind, Batches, Contains, Bounded;
    DrainInvFrom(b, ByHand);
    DrainLoad(b, ByHand);
    assert !Spoiled(Drain(b, ByHand));
    hide Spoiled;
  }

  lemma BusySingle(l: Lease, b: State<nat>, commit: nat)
    requires SingleBatch(b) && Backpressure(b)
    ensures Single(l.(pulled := l.pulled + 1, batcher := Register(b, commit), place := Waiting(commit, true)))
  {
    RegisterInv(b, commit);
    RegisterLoad(b, commit);
    assert !Spoiled(Register(b, commit));
    hide Batching.Inv, Behind, Batches, Spoiled, Contains;
  }

  lemma AfterAddSingle(l: Lease, b: State<nat>)
    requires l.place.Pulling? && SingleBatch(b)
    ensures Single(AfterAdd(l, b))
  {
    hide SingleBatch, Single, Backpressure, Drain;
    if l.pulled + 1 == l.initialEnd {
      FlushSingle(l, b);
    } else if Backpressure(b) {
      BusySingle(l, b, if b.pending == [] then l.pulled + 1 else l.pulled);
    } else {
      IdleSingle(l, b);
    }
  }

  lemma IdleSingle(l: Lease, b: State<nat>)
    requires l.place.Pulling? && SingleBatch(b) && !Backpressure(b)
    ensures Single(l.(pulled := l.pulled + 1, batcher := b))
  {
    hide Batching.Inv, Batches, Behind, Contains, Spoiled;
  }

  lemma PullSingle(l: Lease, measure: Measure)
    requires CanPull(l) && Shaped(l) && Single(l)
    ensures Single(Pull(l, measure))
  {
    var b := Batching.Add(l.batcher, l.pulled, measure);
    AddSingle(l.batcher, l.pulled, measure);
    AddLoad(l.batcher, l.pulled, measure);
    assert !Spoiled(b);
    AfterAddSingle(l, b);
  }

  lemma RunSpoils(b: State<nat>, ok: bool)
    requires b.applications != []
    ensures Spoiled(RunNext(b, ok)) ==> Spoiled(b) || (b.applications[0].Apply? && !(ok && !b.barrierFailed))
    ensures Spoiled(b) ==> Spoiled(RunNext(b, ok))
  {
    var c := RunNext(b, ok);
    if Spoiled(b) {
      var i :| 0 <= i < |b.finished| && !b.finished[i].applied;
      assert c.finished[i] == b.finished[i];
    }
  }

  lemma RunSingle(l: Lease, ok: bool)
    requires CanRun(l) && Single(l)
    ensures Single(RunHead(l, ok))
  {
    var b, succeeds := l.batcher, HeadSucceeds(l, ok);
    RunNextInv(b, succeeds);
    RunLoad(b, succeeds);
    RunSpoils(b, succeeds);
    BatchesHead(b.applications);
    assert RunNext(b, succeeds).policy == b.policy && !RunNext(b, succeeds).timer;
    hide Batching.Inv, Behind, Batches, Spoiled, Contains, HeadSucceeds;
  }

  lemma CancelSingle(l: Lease, infrastructure: bool)
    requires Single(l) && Shaped(l) && !l.place.Unwinding?
    ensures Single(Unwind(l, infrastructure))
  {
    CancelInv(l.batcher);
    assert Batching.Cancel(l.batcher).finished == l.batcher.finished;
    assert Spoiled(Batching.Cancel(l.batcher)) == Spoiled(l.batcher);
    hide Batching.Inv, Behind, Batches, Spoiled, Contains;
  }

  lemma RegisterSingle(l: Lease, commit: nat, place: Place)
    requires Single(l) && place in {Waiting(commit, false), WaitingTail}
    ensures Single(l.(batcher := Register(l.batcher, commit), place := place))
  {
    RegisterInv(l.batcher, commit);
    RegisterLoad(l.batcher, commit);
    assert Spoiled(Register(l.batcher, commit)) == Spoiled(l.batcher);
    hide Batching.Inv, Behind, Batches, Spoiled, Contains;
  }

  lemma ResumeSingle(l: Lease)
    requires CanResume(l) && Single(l) && Shaped(l) && Paced(l)
    ensures Single(Resume(l))
  {
    match l.place {
      case Waiting(_, chain) =>
        if l.applicationFailed {
          CancelSingle(l, false);
        } else if chain {
          NothingBehind(l.batcher.applications);
        }
      case FlushingReplay(commit) => RegisterSingle(l, commit, Waiting(commit, false));
      case FlushingTail => RegisterSingle(l, l.pulled, WaitingTail);
      case WaitingTail => CancelSingle(l, !l.applicationFailed);
    }
  }

  lemma EndSingle(l: Lease)
    requires l.place.Pulling? && Single(l) && Shaped(l)
    ensures Single(End(l))
  {
    hide Batching.Inv, Behind, Batches, Contains, Bounded;
    DrainInvFrom(l.batcher, ByHand);
    DrainLoad(l.batcher, ByHand);
    assert Spoiled(Drain(l.batcher, ByHand)) == Spoiled(l.batcher);
    hide Spoiled;
  }

  lemma TurnSingle(l: Lease, turn: Turn)
    requires Enabled(l, turn) && Shaped(l) && Paced(l) && Single(l)
    ensures Single(Take(l, turn))
  {
    match turn {
      case Pulls(measure) => PullSingle(l, measure);
      case Ticks => assert false;
      case Runs(ok) => RunSingle(l, ok);
      case Commits =>
      case Resumes => ResumeSingle(l);
      case Ends => EndSingle(l);
      case Breaks => CancelSingle(l, true);
    }
  }

  lemma TurnKeepsPrefix(l: Lease, turn: Turn)
    requires Enabled(l, turn) && Shaped(l) && Single(l) && Prefix(l.batcher)
    requires turn.Pulls? ==> Admit(l.batcher.policy, turn.measure).Admitted?
    ensures Prefix(Take(l, turn).batcher)
  {
    if turn.Runs? && AppliedBatch(l, turn.ok) != [] {
      BatchesHead(l.batcher.applications);
      assert !Spoiled(l.batcher);
      ApplyPrefix(l, turn.ok);
    } else {
      TurnApplied(l, turn);
      TurnAccepted(l, turn);
    }
  }

  lemma {:induction false} RunContains(l: Lease, turns: seq<Turn>)
    requires Sound(l) && Single(l) && Prefix(l.batcher) && Possible(l, turns) && AllAdmitted(l.batcher.policy, turns)
    ensures Prefix(IntakeProgress.Run(l, turns).batcher)
    decreases |turns|
  {
    if turns != [] {
      StepPaced(l, turns[0]);
      StepProgress(l, turns[0]);
      TurnSingle(l, turns[0]);
      TurnKeepsPrefix(l, turns[0]);
      TurnAccepted(l, turns[0]);
      RunContains(Take(l, turns[0]), turns[1..]);
    }
  }

  /**
   However the reducer fails, what was applied is a prefix of what was accepted: for every run, exactly under the
   policies of `Contains`.
   */
  lemma ContainmentIffPolicy(policy: Policy)
    requires policy.Valid()
    ensures Contains(policy) <==>
      forall base: nat, end: nat, turns: seq<Turn> ::
        Possible(Open(policy, base, end), turns) && AllAdmitted(policy, turns) ==>
          Prefix(IntakeProgress.Run(Open(policy, base, end), turns).batcher)
  {
    if Contains(policy) {
      forall base: nat, end: nat, turns: seq<Turn>
        | Possible(Open(policy, base, end), turns) && AllAdmitted(policy, turns)
        ensures Prefix(IntakeProgress.Run(Open(policy, base, end), turns).batcher)
      {
        OpenSound(policy, base, end);
        InitialInv<nat>(policy);
        assert Single(Open(policy, base, end));
        RunContains(Open(policy, base, end), turns);
      }
    } else if policy.timed {
      var turns := TimerThenFlush(policy);
    } else {
      var turns := OverflowAndFill(policy);
    }
  }
}
