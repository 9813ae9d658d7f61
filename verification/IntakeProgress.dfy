/**
 The application chain never waits on itself. A barrier is only ever registered behind the batches that hold
 the deliveries whose commit it awaits, so whenever the intake loop is suspended some continuation can run.
 */
module IntakeProgress {
  import opened Batching
  import opened BatchPromises
  import opened Intake

  /** The first `n` adds are all settled or inside one of `ops`. */
  ghost predicate Covered(b: State<nat>, ops: seq<Op<nat>>, n: int) {
    forall t: nat :: t < n ==> t in SettledTickets(b.settled) || t in Queued(ops)
  }

  /** What barrier `ops[i]` awaits was drained into a batch ahead of it. */
  ghost predicate Grounded(l: Lease, i: nat)
    requires i < |l.batcher.applications|
  {
    var op := l.batcher.applications[i];
    op.Barrier? ==> op.commit <= l.pulled && Covered(l.batcher, l.batcher.applications[..i], op.commit - l.base)
  }

  ghost predicate Progressing(l: Lease) {
    && l.base <= l.committed <= l.pulled
    && l.batcher.tickets == l.pulled - l.base
    && Accounted(l.batcher)
    && (forall i :: 0 <= i < |l.batcher.applications| ==> Grounded(l, i))
    && match l.place
       case Waiting(commit, chain) =>
         && commit <= l.pulled
         && Covered(l.batcher, l.batcher.applications, commit - l.base)
         && (chain ==> commit <= l.committed || Barrier(commit) in l.batcher.applications)
       case FlushingReplay(commit) => commit <= l.pulled
       case _ => true
  }

  /** Nothing buffered: every add is settled or queued. */
  lemma NothingPending(b: State<nat>)
    requires Accounted(b) && b.pending == []
    ensures Covered(b, b.applications, b.tickets)
  {
    forall t: nat | t < b.tickets
      ensures t in SettledTickets(b.settled) || t in Queued(b.applications)
    {
      IssuedOnce(b.tickets, t);
      assert Tickets(b.pending) == [];
      assert (multiset(SettledTickets(b.settled)) + multiset(Queued(b.applications)))[t] == 1;
    }
  }

  lemma OnlyNewestPending(b: State<nat>)
    requires Accounted(b) && |b.pending| == 1 && b.pending[0].ticket == b.tickets - 1
    ensures Covered(b, b.applications, b.tickets - 1)
  {
    forall t: nat | t < b.tickets - 1
      ensures t in SettledTickets(b.settled) || t in Queued(b.applications)
    {
      IssuedOnce(b.tickets, t);
      assert Tickets(b.pending) == [b.tickets - 1];
      assert (multiset(SettledTickets(b.settled)) + multiset(Queued(b.applications)))[t] == 1;
    }
  }

  /** The chain may only grow at its end and promises stay settled. */
  predicate Extends(b: State<nat>, c: State<nat>) {
    b.applications <= c.applications && b.settled <= c.settled
  }

  lemma CoveredMore(b: State<nat>, c: State<nat>, ops: seq<Op<nat>>, n: int)
    requires Covered(b, ops, n) && b.settled <= c.settled
    ensures Covered(c, ops, n)
  {
    assert SettledTickets(b.settled) <= SettledTickets(c.settled);
  }

  lemma {:induction false} QueuedPrefix(ops: seq<Op<nat>>, more: seq<Op<nat>>, t: nat)
    requires ops <= more && t in Queued(ops)
    ensures t in Queued(more)
    decreases |more|
  {
    if |ops| < |more| {
      QueuedPrefix(ops, more[..|more| - 1], t);
    } else {
      assert ops == more;
    }
  }

  lemma CoveredPrefix(b: State<nat>, ops: seq<Op<nat>>, more: seq<Op<nat>>, n: int)
    requires Covered(b, ops, n) && ops <= more
    ensures Covered(b, more, n)
  {
    forall t: nat | t < n
      ensures t in SettledTickets(b.settled) || t in Queued(more)
    {
      if t in Queued(ops) {
        QueuedPrefix(ops, more, t);
      }
    }
  }

  /** Every old barrier stays grounded when the chain only grew. */
  lemma GroundedMore(l: Lease, m: Lease)
    requires Extends(l.batcher, m.batcher) && m.base == l.base && l.pulled <= m.pulled
    requires forall i :: 0 <= i < |l.batcher.applications| ==> Grounded(l, i)
    requires forall i :: |l.batcher.applications| <= i < |m.batcher.applications| ==> Grounded(m, i)
    ensures forall i :: 0 <= i < |m.batcher.applications| ==> Grounded(m, i)
  {
    forall i | 0 <= i < |m.batcher.applications|
      ensures Grounded(m, i)
    {
      if i < |l.batcher.applications| {
        assert Grounded(l, i);
        var op := l.batcher.applications[i];
        assert m.batcher.applications[i] == op && m.batcher.applications[..i] == l.batcher.applications[..i];
        if op.Barrier? {
          CoveredMore(l.batcher, m.batcher, l.batcher.applications[..i], op.commit - l.base);
        }
      }
    }
  }

  /** `c` continues `b` by batches only. */
  predicate Grows(b: State<nat>, c: State<nat>) {
    && Extends(b, c)
    && forall i :: |b.applications| <= i < |c.applications| ==> c.applications[i].Apply?
  }

  lemma GrowsTrans(b: State<nat>, c: State<nat>, d: State<nat>)
    requires Grows(b, c) && Grows(c, d)
    ensures Grows(b, d)
  {
  }

  lemma DrainGrows(b: State<nat>, reason: Reason)
    ensures Grows(b, Drain(b, reason)) && Drain(b, reason).tickets == b.tickets
  {
  }

  lemma CutGrows(b: State<nat>)
    ensures Grows(b, CutOrArm(b)) && CutOrArm(b).tickets == b.tickets
    ensures CutOrArm(b).pending == [] || CutOrArm(b).pending == b.pending
  {
    DrainGrows(b, if b.policy.CountReached(|b.pending|) then ByCount else ByBytes);
  }

  lemma AddGrows(b: State<nat>, value: nat, measure: Measure)
    requires !b.cancelled && !b.completed && Load(b) <= 1
    ensures var c := Batching.Add(b, value, measure);
      && Grows(b, c) && c.tickets == b.tickets + 1
      && (Backpressure(c) && c.pending != [] ==> |c.pending| == 1 && c.pending[0].ticket == b.tickets)
  {
    var admission := Admit(b.policy, measure);
    if admission.Admitted? {
      var room := if b.policy.Overflows(|b.pending|, b.pendingBytes, admission.size) then Drain(b, ByBytes) else b;
      DrainGrows(b, ByBytes);
      var stored := Store(room, value, admission.size);
      CutGrows(stored);
      if Backpressure(CutOrArm(stored)) && CutOrArm(stored).pending != [] {
        assert CutOrArm(stored).applications == room.applications;
        assert room.pending == [];
      }
    }
  }

  /** The barrier a busy chain makes intake register stands behind everything it awaits. */
  lemma BarrierCovered(b: State<nat>, commit: nat)
    requires Accounted(b) && 0 < b.tickets
    requires b.pending != [] ==> |b.pending| == 1 && b.pending[0].ticket == b.tickets - 1
    ensures var c := Register(b, commit);
      var n := if b.pending == [] then b.tickets else b.tickets - 1;
      && Accounted(c) && c.applications[..|b.applications|] == b.applications
      && Covered(c, b.applications, n) && Covered(c, c.applications, n)
  {
    var c := Register(b, commit);
    QueuedSnoc(b.applications, Barrier(commit));
    if b.pending == [] {
      NothingPending(b);
    } else {
      OnlyNewestPending(b);
    }
    CoveredPrefix(c, b.applications, c.applications, if b.pending == [] then b.tickets else b.tickets - 1);
  }

  lemma BarrierProgress(l: Lease, b: State<nat>, commit: nat)
    requires Progressing(l) && l.place.Pulling?
    requires Grows(l.batcher, b) && b.tickets == l.batcher.tickets + 1 && commit <= l.pulled + 1
    requires Accounted(Register(b, commit))
    requires Covered(Register(b, commit), b.applications, commit - l.base)
    requires Covered(Register(b, commit), Register(b, commit).applications, commit - l.base)
    ensures Progressing(l.(pulled := l.pulled + 1, batcher := Register(b, commit), place := Waiting(commit, true)))
  {
    var m := l.(pulled := l.pulled + 1, batcher := Register(b, commit), place := Waiting(commit, true));
    assert m.batcher.applications[..|b.applications|] == b.applications;
    assert m.batcher.applications[|b.applications|] == Barrier(commit);
    forall i | |l.batcher.applications| <= i < |m.batcher.applications|
      ensures Grounded(m, i)
    {
      if i < |b.applications| {
        assert m.batcher.applications[i] == b.applications[i] && b.applications[i].Apply?;
      }
    }
    GroundedMore(l, m);
  }

  lemma PulledProgress(l: Lease, b: State<nat>, place: Place)
    requires Progressing(l) && Grows(l.batcher, b) && Accounted(b) && b.tickets == l.batcher.tickets + 1
    requires place == Pulling || place == FlushingReplay(l.pulled + 1)
    ensures Progressing(l.(pulled := l.pulled + 1, batcher := b, place := place))
  {
    var m := l.(pulled := l.pulled + 1, batcher := b, place := place);
    forall i | |l.batcher.applications| <= i < |m.batcher.applications|
      ensures Grounded(m, i)
    {
      assert b.applications[i].Apply?;
    }
    GroundedMore(l, m);
  }

  lemma FlushProgress(l: Lease, b: State<nat>)
    requires Progressing(l) && Grows(l.batcher, b) && Accounted(b) && b.tickets == l.batcher.tickets + 1
    requires l.pulled + 1 == l.initialEnd
    ensures Progressing(AfterAdd(l, b))
  {
    var c, place := Drain(b, ByHand), FlushingReplay(l.pulled + 1);
    assert AfterAdd(l, b) == l.(pulled := l.pulled + 1, batcher := c, place := place);
    hide *;
    DrainGrows(b, ByHand);
    DrainAccounted(b, ByHand);
    GrowsTrans(l.batcher, b, c);
    PulledProgress(l, c, place);
  }

  lemma BusyProgress(l: Lease, b: State<nat>)
    requires Progressing(l) && l.place.Pulling?
    requires Grows(l.batcher, b) && Accounted(b) && b.tickets == l.batcher.tickets + 1
    requires b.pending != [] ==> |b.pending| == 1 && b.pending[0].ticket == b.tickets - 1
    requires l.pulled + 1 != l.initialEnd && Backpressure(b)
    ensures Progressing(AfterAdd(l, b))
  {
    var commit := if b.pending == [] then l.pulled + 1 else l.pulled;
    assert b.tickets == l.pulled + 1 - l.base;
    assert AfterAdd(l, b)
        == l.(pulled := l.pulled + 1, batcher := Register(b, commit), place := Waiting(commit, true));
    hide *;
    BarrierCovered(b, commit);
    BarrierProgress(l, b, commit);
  }

  lemma AfterAddProgress(l: Lease, b: State<nat>)
    requires Progressing(l) && l.place.Pulling?
    requires Grows(l.batcher, b) && Accounted(b) && b.tickets == l.batcher.tickets + 1
    requires Backpressure(b) && b.pending != [] ==> |b.pending| == 1 && b.pending[0].ticket == b.tickets - 1
    ensures Progressing(AfterAdd(l, b))
  {
    var idle := l.(pulled := l.pulled + 1, batcher := b, place := Pulling);
    assert l.pulled + 1 != l.initialEnd && !Backpressure(b) ==> AfterAdd(l, b) == idle;
    hide *;
    if l.pulled + 1 == l.initialEnd {
      FlushProgress(l, b);
    } else if Backpressure(b) {
      BusyProgress(l, b);
    } else {
      PulledProgress(l, b, Pulling);
    }
  }

  lemma PullProgress(l: Lease, measure: Measure)
    requires CanPull(l) && Shaped(l) && Paced(l) && Progressing(l)
    ensures Progressing(Pull(l, measure))
  {
    AddGrows(l.batcher, l.pulled, measure);
    AddAccounted(l.batcher, l.pulled, measure);
    AddLoad(l.batcher, l.pulled, measure);
    AfterAddProgress(l, Batching.Add(l.batcher, l.pulled, measure));
  }

  /** A step that leaves the intake loop where it is and only extends the chain. */
  lemma GrowProgress(l: Lease, c: State<nat>)
    requires Progressing(l) && Grows(l.batcher, c) && Accounted(c) && c.tickets == l.batcher.tickets
    ensures Progressing(l.(batcher := c))
  {
    var m := l.(batcher := c);
    GroundedMore(l, m);
    if l.place.Waiting? {
      CoveredMore(l.batcher, c, l.batcher.applications, l.place.commit - l.base);
      CoveredPrefix(c, l.batcher.applications, c.applications, l.place.commit - l.base);
    }
  }

  lemma CancelGrows(b: State<nat>)
    ensures Grows(b, Batching.Cancel(b)) && Batching.Cancel(b).tickets == b.tickets
  {
  }

  /** Suspending somewhere that awaits nothing in particular. */
  lemma MoveProgress(l: Lease, place: Place)
    requires Progressing(l) && !place.Waiting? && !place.FlushingReplay?
    ensures Progressing(l.(place := place))
  {
    var m := l.(place := place);
    forall i | 0 <= i < |m.batcher.applications|
      ensures Grounded(m, i)
    {
      assert Grounded(l, i);
    }
  }

  lemma UnwindProgress(l: Lease, infrastructure: bool)
    requires Progressing(l)
    ensures Progressing(Unwind(l, infrastructure))
  {
    CancelGrows(l.batcher);
    CancelAccounted(l.batcher);
    MoveProgress(l, Unwinding(infrastructure));
    GrowProgress(l.(place := Unwinding(infrastructure)), Batching.Cancel(l.batcher));
  }

  /** When the head leaves the chain, the tickets it carried are settled. */
  lemma HeadCovered(b: State<nat>, ok: bool, n: int, k: nat)
    requires b.applications != [] && 0 < k <= |b.applications| && Covered(b, b.applications[..k], n)
    ensures Covered(RunNext(b, ok), b.applications[1..][..k - 1], n)
  {
    var head, c := b.applications[0], RunNext(b, ok);
    var rest := b.applications[1..][..k - 1];
    assert b.applications[..k] == [head] + rest;
    QueuedCons(head, rest);
    if head.Apply? {
      SettleTickets(b.settled, head.batch, ok && !b.barrierFailed);
    }
  }

  lemma RunProgress(l: Lease, ok: bool)
    requires CanRun(l) && Progressing(l)
    ensures Progressing(RunHead(l, ok))
  {
    var m, b, succeeds := RunHead(l, ok), l.batcher, HeadSucceeds(l, ok);
    RunNextAccounted(b, succeeds);
    RunNextChain(b, succeeds);
    assert m == l.(batcher := RunNext(b, succeeds), applicationFailed := m.applicationFailed);
    hide RunNext, Accounted, Covered, Grounded, RunHead, HeadSucceeds;
    forall i | 0 <= i < |m.batcher.applications|
      ensures Grounded(m, i)
    {
      GroundedAfter(l, succeeds, i);
      GroundedSame(l.(batcher := RunNext(b, succeeds)), m, i);
    }
    if l.place.Waiting? {
      WholeCovered(b, succeeds, l.place.commit - l.base);
    }
  }

  lemma RunNextChain(b: State<nat>, ok: bool)
    requires b.applications != []
    ensures RunNext(b, ok).applications == b.applications[1..] && RunNext(b, ok).tickets == b.tickets
  {
  }

  lemma GroundedSame(a: Lease, b: Lease, i: nat)
    requires b == a.(applicationFailed := b.applicationFailed) && i < |a.batcher.applications| && Grounded(a, i)
    ensures Grounded(b, i)
  {
    hide Covered;
  }

  lemma GroundedAfter(l: Lease, ok: bool, i: nat)
    requires l.batcher.applications != [] && i + 1 < |l.batcher.applications| && Grounded(l, i + 1)
    requires RunNext(l.batcher, ok).applications == l.batcher.applications[1..]
    ensures Grounded(l.(batcher := RunNext(l.batcher, ok)), i)
  {
    hide RunNext, Covered;
    var op := l.batcher.applications[i + 1];
    assert l.batcher.applications[1..][i] == op;
    if op.Barrier? {
      HeadCovered(l.batcher, ok, op.commit - l.base, i + 1);
    }
  }

  lemma WholeCovered(b: State<nat>, ok: bool, n: int)
    requires b.applications != [] && Covered(b, b.applications, n)
    ensures Covered(RunNext(b, ok), b.applications[1..], n)
  {
    hide RunNext, Covered;
    var k := |b.applications|;
    assert b.applications[..k] == b.applications && b.applications[1..][..k - 1] == b.applications[1..];
    HeadCovered(b, ok, n, k);
  }

  lemma CommitProgress(l: Lease)
    requires CanCommit(l) && Progressing(l)
    ensures Progressing(Commit(l))
  {
    var m := Commit(l);
    forall i | 0 <= i < |m.batcher.applications|
      ensures Grounded(m, i)
    {
      assert Grounded(l, i);
    }
  }

  lemma RegisterProgress(l: Lease, commit: nat, place: Place)
    requires Progressing(l) && l.batcher.pending == [] && commit <= l.pulled
    requires place == Waiting(commit, false) || place == WaitingTail
    ensures Progressing(l.(batcher := Register(l.batcher, commit), place := place))
  {
    var b := l.batcher;
    var c := Register(b, commit);
    var m := l.(batcher := c, place := place);
    NothingPending(b);
    QueuedSnoc(b.applications, Barrier(commit));
    assert c.applications[..|b.applications|] == b.applications;
    assert Covered(c, b.applications, commit - l.base);
    CoveredPrefix(c, b.applications, c.applications, commit - l.base);
    GroundedMore(l, m);
  }

  lemma ResumeProgress(l: Lease)
    requires CanResume(l) && Shaped(l) && Paced(l) && Progressing(l)
    ensures Progressing(Resume(l))
  {
    match l.place {
      case Waiting(_, _) =>
        if l.applicationFailed {
          UnwindProgress(l, false);
        } else {
          MoveProgress(l, Pulling);
        }
      case FlushingReplay(commit) => RegisterProgress(l, commit, Waiting(commit, false));
      case FlushingTail => RegisterProgress(l, l.pulled, WaitingTail);
      case WaitingTail => UnwindProgress(l, !l.applicationFailed);
    }
  }

  lemma EndProgress(l: Lease)
    requires l.place.Pulling? && Progressing(l)
    ensures Progressing(End(l))
  {
    DrainGrows(l.batcher, ByHand);
    DrainAccounted(l.batcher, ByHand);
    GrowProgress(l, Drain(l.batcher, ByHand));
    MoveProgress(l.(batcher := Drain(l.batcher, ByHand)), FlushingTail);
  }

  lemma TimerProgress(l: Lease)
    requires l.batcher.timer && Progressing(l)
    ensures Progressing(FireTimer(l))
  {
    var b := l.batcher.(timer := false);
    assert Accounted(b);
    DrainGrows(b, ByTime);
    DrainAccounted(b, ByTime);
    GrowProgress(l, Batching.TimerFires(l.batcher));
  }

  lemma StepProgress(l: Lease, turn: Turn)
    requires Enabled(l, turn) && Shaped(l) && Paced(l) && Progressing(l)
    ensures Progressing(Take(l, turn))
  {
    match turn {
      case Pulls(measure) => PullProgress(l, measure);
      case Ticks => TimerProgress(l);
      case Runs(ok) => RunProgress(l, ok);
      case Commits => CommitProgress(l);
      case Resumes => ResumeProgress(l);
      case Ends => EndProgress(l);
      case Breaks => UnwindProgress(l, true);
    }
  }

  /** All runs of one attempt: each turn happens only where it is enabled. */
  predicate Possible(l: Lease, turns: seq<Turn>)
    decreases |turns|
  {
    turns == [] || (Enabled(l, turns[0]) && Possible(Take(l, turns[0]), turns[1..]))
  }

  function Run(l: Lease, turns: seq<Turn>): Lease
    requires Possible(l, turns)
    decreases |turns|
  {
    if turns == [] then l else Run(Take(l, turns[0]), turns[1..])
  }

  ghost predicate Sound(l: Lease) {
    Shaped(l) && Paced(l) && Progressing(l)
  }

  lemma OpenSound(policy: Policy, base: nat, end: nat)
    ensures Sound(Open(policy, base, end))
  {
  }

  lemma {:induction false} RunSound(l: Lease, turns: seq<Turn>)
    requires Sound(l) && Possible(l, turns)
    ensures Sound(Run(l, turns))
    decreases |turns|
  {
    if turns != [] {
      StepPaced(l, turns[0]);
      StepProgress(l, turns[0]);
      RunSound(Take(l, turns[0]), turns[1..]);
    }
  }

  /** Suspended intake never deadlocks: the chain, the commits or the loop itself can continue. */
  lemma NeverStuck(policy: Policy, base: nat, end: nat, turns: seq<Turn>)
    requires Possible(Open(policy, base, end), turns)
    ensures var l := Run(Open(policy, base, end), turns);
      l.place.Pulling? || Closed(l) || CanRun(l) || CanCommit(l) || CanResume(l)
  {
    OpenSound(policy, base, end);
    RunSound(Open(policy, base, end), turns);
    var l := Run(Open(policy, base, end), turns);
    if !l.place.Pulling? && !Closed(l) {
      SoundNotStuck(l);
    }
  }

  lemma SettledCanCommit(l: Lease)
    requires l.base <= l.committed < l.pulled && l.committed - l.base in SettledTickets(l.batcher.settled)
    ensures CanCommit(l)
  {
    var settled := l.batcher.settled;
    var i :| 0 <= i < |settled| && SettledTickets(settled)[i] == l.committed - l.base;
    assert settled[i] == Settlement(l.committed - l.base, settled[i].resolved);
  }

  lemma SoundNotStuck(l: Lease)
    requires Sound(l) && !l.place.Pulling? && !Closed(l)
    ensures CanRun(l) || CanCommit(l) || CanResume(l)
  {
    var b := l.batcher;
    if b.applications != [] {
      if !CanRun(l) {
        assert Grounded(l, 0);
        assert b.applications[..0] == [];
        SettledCanCommit(l);
      }
    } else {
      assert Batches(b.applications) == [];
      if l.committed < l.pulled && b.pending == [] {
        NothingPending(b);
        SettledCanCommit(l);
      }
    }
  }

  /** An upper bound on the turns that are left to an attempt that pulls no more. */
  function Rank(l: Lease): int {
    2 * |l.batcher.applications| + (l.pulled - l.committed)
    + (if l.batcher.pending != [] then 2 else 0) + (if l.batcher.timer then 1 else 0)
    + match l.place
      case FlushingReplay(_) => 10
      case Waiting(_, _) => 7
      case Pulling => 6
      case FlushingTail => 5
      case WaitingTail => 2
      case Unwinding(_) => 0
  }

  /** Every turn but a pull brings the attempt closer to rest: timers, failures and the end of the messages too. */
  lemma RankDecreases(l: Lease, turn: Turn)
    requires l.committed <= l.pulled && Enabled(l, turn) && !turn.Pulls?
    ensures 0 <= Rank(Take(l, turn)) < Rank(l)
    ensures Take(l, turn).committed <= Take(l, turn).pulled
  {
    hide Batching.RunNext, Drain, Register, Cancel, Resolved, Rejected, HeadSucceeds, Backpressure;
    ChainShrinks(l.batcher);
    DrainOnce(l.batcher, ByHand);
    DrainOnce(l.batcher.(timer := false), ByTime);
  }

  lemma ChainShrinks(b: State<nat>)
    ensures forall ok ::
      var c := RunNext(b, ok);
      b.applications != [] ==>
        |c.applications| == |b.applications| - 1 && c.pending == b.pending && c.timer == b.timer
    ensures forall commit ::
      var c := Register(b, commit);
      |c.applications| == |b.applications| + 1 && c.pending == b.pending && c.timer == b.timer
    ensures
      var c := Cancel(b);
      c.applications == b.applications && (c.pending != [] ==> b.pending != []) && (c.timer ==> b.timer)
  {
  }

  lemma DrainOnce(b: State<nat>, reason: Reason)
    ensures
      var c := Drain(b, reason);
      && |c.applications| + |c.applications| + (if c.pending != [] then 2 else 0)
         <= |b.applications| + |b.applications| + (if b.pending != [] then 2 else 0)
      && (c.timer ==> b.timer)
  {
  }

  /** Without another pull an attempt takes at most so many turns, whichever they are and in whatever order. */
  lemma {:induction false} ComesToRest(l: Lease, turns: seq<Turn>)
    requires l.committed <= l.pulled && Possible(l, turns)
    requires forall i :: 0 <= i < |turns| ==> !turns[i].Pulls?
    ensures |turns| <= Rank(l)
    decreases |turns|
  {
    if turns == [] {
      RankNonNegative(l);
    } else {
      RankDecreases(l, turns[0]);
      hide Rank, Take, Enabled;
      assert forall i :: 0 <= i < |turns[1..]| ==> turns[1..][i] == turns[i + 1];
      ComesToRest(Take(l, turns[0]), turns[1..]);
    }
  }

  lemma RankNonNegative(l: Lease)
    requires l.committed <= l.pulled
    ensures 0 <= Rank(l)
  {
  }
}
