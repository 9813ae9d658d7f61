/**
 Deliveries whose size the policy refuses. A refused delivery fails its commit, but only when that commit's turn
 comes. Where every cut is made by a pull, the loop waits for the commits ahead of the cut, so the failure is seen
 before anything else can happen; a timer cuts behind the loop's back.
 */
module IntakeRefusals {
  import opened Prelude
  import opened Batching
  import opened BatchPromises
  import opened Intake
  import opened IntakeProgress
  import opened IntakeExactness

  /** Deliveries can be refused, and a timer can cut the ones behind them. */
  predicate CanLose(policy: Policy) {
    policy.maxBytes.Some? && policy.timed && policy.maxItems != Some(1)
  }

  predicate Unaccepted(accepted: seq<Entry<nat>>, ticket: nat) {
    forall i :: 0 <= i < |accepted| ==> accepted[i].ticket != ticket
  }

  /** The coordinator issued the ticket and refused the value. */
  predicate Refused(b: State<nat>, ticket: nat) {
    ticket < b.tickets && Unaccepted(b.accepted, ticket)
  }

  /** The loop goes on only once the delivery at this position has been committed, and fails if that commit does. */
  predicate Awaits(l: Lease, position: nat) {
    match l.place
    case Waiting(commit, _) => position < commit
    case FlushingReplay(commit) => position < commit
    case FlushingTail => true
    case WaitingTail => true
    case _ => false
  }

  /** The loop waits for the commit of everything pulled. */
  predicate AwaitsAll(l: Lease) {
    match l.place
    case Waiting(commit, _) => l.pulled <= commit
    case FlushingReplay(commit) => l.pulled <= commit
    case FlushingTail => true
    case WaitingTail => true
    case _ => false
  }

  /** A refused delivery that something was cut behind is one whose commit the loop waits for. */
  ghost predicate TaintSeen(l: Lease) {
    Untainted(l.batcher) || l.place == Unwinding(false) ||
    exists t: nat :: Refused(l.batcher, t) && Awaits(l, l.base + t)
  }

  /** A refused delivery whose commit has run is on record. */
  ghost predicate RefusalsRecorded(l: Lease) {
    forall t: nat :: Refused(l.batcher, t) && l.base + t < l.committed ==> l.applicationFailed
  }

  /** Every refused delivery's promise was rejected. */
  ghost predicate RefusalsRejected(b: State<nat>) {
    forall t: nat :: Refused(b, t) ==> Settlement(t, false) in b.settled
  }

  ghost predicate RefusalInv(l: Lease) {
    RefusalsRejected(l.batcher) && RefusalsRecorded(l) && TaintSeen(l)
  }

  // ---------------------------------------------------------------------------------------------
  // Tickets
  // ---------------------------------------------------------------------------------------------

  lemma RefusedStays(b: State<nat>, c: State<nat>, more: seq<Entry<nat>>, t: nat)
    requires Refused(b, t) && b.tickets <= c.tickets && c.accepted == b.accepted + more
    requires forall i :: 0 <= i < |more| ==> b.tickets <= more[i].ticket
    ensures Refused(c, t)
  {
    forall i | 0 <= i < |c.accepted|
      ensures c.accepted[i].ticket != t
    {
      assert c.accepted[i] == if i < |b.accepted| then b.accepted[i] else more[i - |b.accepted|];
    }
  }

  /** What was refused after a turn was refused before, or is the delivery just pulled. */
  lemma TurnRefuses(l: Lease, turn: Turn, t: nat)
    requires Enabled(l, turn) && Shaped(l)
    ensures Refused(l.batcher, t) ==> Refused(Take(l, turn).batcher, t)
    ensures Refused(Take(l, turn).batcher, t) ==>
      Refused(l.batcher, t) || (t == l.batcher.tickets && Settlement(t, false) in Take(l, turn).batcher.settled)
  {
    var b, c := l.batcher, Take(l, turn).batcher;
    TurnAccepted(l, turn);
    var more := if turn.Pulls? then Taken(b, l.pulled, turn.measure) else [];
    assert b.accepted + [] == b.accepted;
    assert c.accepted == b.accepted + more && (more == [] || (|more| == 1 && more[0].ticket == b.tickets));
    assert turn.Pulls? && more == [] ==> Settlement(b.tickets, false) in c.settled;
    hide Take, Enabled, Shaped, Taken, Unaccepted;
    if Refused(b, t) {
      RefusedStays(b, c, more, t);
    }
    if Refused(c, t) {
      NotAcceptedBefore(b.accepted, more, t);
    }
  }

  lemma NotAcceptedBefore(accepted: seq<Entry<nat>>, more: seq<Entry<nat>>, t: nat)
    requires Unaccepted(accepted + more, t)
    ensures Unaccepted(accepted, t) && forall i :: 0 <= i < |more| ==> more[i].ticket != t
  {
    var all := accepted + more;
    forall i | 0 <= i < |accepted|
      ensures accepted[i].ticket != t
    {
      assert all[i] == accepted[i];
    }
    forall i | 0 <= i < |more|
      ensures more[i].ticket != t
    {
      assert all[|accepted| + i] == more[i];
    }
  }

  lemma TurnRejects(l: Lease, turn: Turn)
    requires Enabled(l, turn) && Shaped(l) && RefusalsRejected(l.batcher)
    ensures RefusalsRejected(Take(l, turn).batcher)
  {
    TurnAccepted(l, turn);
    hide Take, Enabled, Shaped, Refused, Admit, Taken;
    forall t: nat | Refused(Take(l, turn).batcher, t)
      ensures Settlement(t, false) in Take(l, turn).batcher.settled
    {
      TurnRefuses(l, turn, t);
    }
  }

  lemma {:induction false} FlattenHas<T>(ss: seq<seq<T>>, k: nat, j: nat) returns (i: nat)
    requires k < |ss| && j < |ss[k]|
    ensures i < |Flatten(ss)| && Flatten(ss)[i] == ss[k][j]
    decreases |ss|
  {
    if k == |ss| - 1 {
      i := |Flatten(ss[..|ss| - 1])| + j;
    } else {
      i := FlattenHas(ss[..|ss| - 1], k, j);
    }
  }

  lemma ResolvedAccepted(l: Lease, t: nat) returns (i: nat)
    requires Aligned(l) && Resolved(l, l.base + t)
    ensures i < |l.batcher.accepted| && l.batcher.accepted[i].ticket == t
  {
    var b := l.batcher;
    var n :| 0 <= n < |b.settled| && b.settled[n] == Settlement(t, true);
    assert InAppliedBatch(b, b.settled[n].ticket);
    var k, j :| 0 <= k < |b.finished| && b.finished[k].applied
             && 0 <= j < |b.finished[k].batch| && b.finished[k].batch[j].ticket == t;
    assert b.drained[k] == FinishedBatches(b.finished)[k];
    i := FlattenHas(b.drained, k, j);
    assert b.accepted[i] == b.finished[k].batch[j];
  }

  /** A refused delivery is never applied, so its promise never resolves. */
  lemma RefusedUnresolved(l: Lease, t: nat)
    requires Aligned(l) && Refused(l.batcher, t)
    ensures !Resolved(l, l.base + t)
  {
    hide Aligned, Resolved;
    if Resolved(l, l.base + t) {
      var i := ResolvedAccepted(l, t);
    }
  }

  lemma TurnRecords(l: Lease, turn: Turn)
    requires Enabled(l, turn) && Shaped(l) && Progressing(l) && Aligned(l) && RefusalsRecorded(l)
    ensures RefusalsRecorded(Take(l, turn))
  {
    var m := Take(l, turn);
    assert m.base == l.base && m.committed <= l.committed + 1;
    assert m.committed == l.committed + 1 ==> turn.Commits? && m.batcher == l.batcher;
    assert m.committed == l.committed + 1 && !Resolved(l, l.committed) ==> m.applicationFailed;
    assert l.applicationFailed ==> m.applicationFailed;
    assert l.base <= l.committed <= l.pulled && l.batcher.tickets == l.pulled - l.base;
    hide Take, Shaped, Progressing, Aligned, Refused, Resolved, Enabled;
    forall t: nat | Refused(m.batcher, t) && m.base + t < m.committed
      ensures m.applicationFailed
    {
      TurnRefuses(l, turn, t);
      if l.base + t == l.committed {
        RefusedUnresolved(l, t);
      } else {
        assert t != l.batcher.tickets;
        assert Refused(l.batcher, t);
      }
    }
  }

  // ---------------------------------------------------------------------------------------------
  // What a cut behind a refused delivery leads to
  // ---------------------------------------------------------------------------------------------

  /** An entry cut behind a refused delivery comes with that delivery's ticket, which is smaller. */
  lemma FirstGap(l: Lease) returns (t: nat, i: nat)
    requires Stamped(l.batcher.accepted, l.base, l.batcher.tickets) && !Untainted(l.batcher)
    ensures Refused(l.batcher, t)
    ensures i < |Flatten(l.batcher.drained)| && i < |l.batcher.accepted| && t < l.batcher.accepted[i].ticket
  {
    var b := l.batcher;
    i :| 0 <= i < |Flatten(b.drained)| && i < |b.accepted| && b.accepted[i].ticket != i;
    hide Flatten;
    while i > 0 && b.accepted[i - 1].ticket != i - 1
      invariant 0 <= i < |Flatten(b.drained)| && i < |b.accepted| && b.accepted[i].ticket != i
    {
      i := i - 1;
    }
    t := i;
    assert i > 0 ==> b.accepted[i - 1].ticket == i - 1;
    assert i < b.accepted[i].ticket < b.tickets;
    forall j | 0 <= j < |b.accepted|
      ensures b.accepted[j].ticket != t
    {
      assert j < i ==> b.accepted[j].ticket <= b.accepted[i - 1].ticket;
    }
  }

  /** Only a non-empty cut changes what was cut, and it leaves a batch in the chain. */
  lemma AddCuts(b: State<nat>, value: nat, measure: Measure)
    ensures var c := Batching.Add(b, value, measure);
      c.drained == b.drained || Backpressure(c)
  {
    var room := Drain(b, ByBytes);
    if b.pending != [] {
      BatchesSnoc(b.applications, Apply(b.pending, ByBytes));
    }
    if Admit(b.policy, measure).Admitted? {
      var stored := if b.policy.Overflows(|b.pending|, b.pendingBytes, Admit(b.policy, measure).size) then room else b;
      var full := Store(stored, value, Admit(b.policy, measure).size);
      CutKeepsChain(full);
      hide CutOrArm, Store, Batches;
    }
  }

  lemma CutKeepsChain(b: State<nat>)
    ensures CutOrArm(b).drained == b.drained || Backpressure(CutOrArm(b))
    ensures Backpressure(b) ==> Backpressure(CutOrArm(b))
  {
    if b.pending != [] {
      BatchesSnoc(b.applications, Apply(b.pending, ByCount));
      BatchesSnoc(b.applications, Apply(b.pending, ByBytes));
    }
    hide Batches;
  }

  lemma DrainedTurn(l: Lease, turn: Turn)
    requires Enabled(l, turn) && !turn.Pulls? && !turn.Ticks? && !turn.Ends?
    ensures Take(l, turn).batcher.drained == l.batcher.drained
  {
    hide Batches, HeadSucceeds;
  }

  /** What is tainted, and by what, does not depend on anything but the cuts and the accepted entries. */
  lemma TaintSame(b: State<nat>, c: State<nat>)
    requires c.drained == b.drained && c.accepted == b.accepted && c.tickets == b.tickets
    ensures Untainted(c) == Untainted(b) && forall t: nat :: Refused(c, t) == Refused(b, t)
  {
    hide Flatten, Unaccepted;
  }

  /** After a cut behind a refused delivery, whoever waits for everything pulled waits for that delivery. */
  lemma AllAwaited(l: Lease)
    requires Aligned(l) && AwaitsAll(l)
    ensures TaintSeen(l)
  {
    AlignedTickets(l);
    hide Aligned, Untainted, Refused;
    if !Untainted(l.batcher) {
      var t, i := FirstGap(l);
      RefusedIssued(l.batcher, t);
      assert Refused(l.batcher, t) && Awaits(l, l.base + t);
    }
  }

  lemma RefusedIssued(b: State<nat>, t: nat)
    requires Refused(b, t)
    ensures t < b.tickets
  {
  }

  /** A cut that leaves the newest entry buffered is behind refused deliveries older than that entry. */
  lemma NewestBuffered(l: Lease)
    requires Aligned(l) && l.batcher.pending != [] && l.batcher.dropped == [] && !Untainted(l.batcher)
    ensures exists t: nat :: Refused(l.batcher, t) && l.base + t < l.pulled - 1
  {
    var b := l.batcher;
    AlignedTickets(l);
    assert |b.accepted| == |Flatten(b.drained)| + |b.pending|;
    hide Aligned, Untainted, Refused, Flatten;
    var t, i := FirstGap(l);
    assert b.accepted[i].ticket < b.accepted[|b.accepted| - 1].ticket < b.tickets;
  }

  /** The cut that a pull makes ahead of a barrier, or none at all. */
  lemma PullTaint(l: Lease, measure: Measure)
    requires CanPull(l) && Shaped(l) && Aligned(l) && TaintSeen(l)
    ensures TaintSeen(Pull(l, measure))
  {
    var m, c := Pull(l, measure), Batching.Add(l.batcher, l.pulled, measure);
    assert Pulls(measure).Pulls? && Enabled(l, Pulls(measure)) && Take(l, Pulls(measure)) == m;
    assert Untainted(l.batcher) && m.base == l.base && m.pulled == l.pulled + 1;
    assert m.place.Waiting? && c.pending != [] ==>
      m.place.commit == l.pulled && m.batcher.pending != [] && m.batcher.dropped == [];
    assert m.place.Waiting? && c.pending == [] ==> m.place.commit == m.pulled;
    assert m.place.FlushingReplay? ==> m.place.commit == m.pulled;
    assert m.place.Pulling? ==> m.batcher == c && !Backpressure(c);
    assert m.place.Pulling? || m.place.Waiting? || m.place.FlushingReplay?;
    TurnAligned(l, Pulls(measure));
    AlignedTickets(m);
    hide Pull, Take, Enabled, Aligned, Shaped, Untainted, Refused, Backpressure;
    if m.place.Pulling? {
      AddCuts(l.batcher, l.pulled, measure);
      PulledUntainted(l, measure);
    } else if m.place.Waiting? && c.pending != [] {
      if !Untainted(m.batcher) {
        NewestBuffered(m);
      }
    } else {
      AllAwaited(m);
    }
  }

  lemma PulledUntainted(l: Lease, measure: Measure)
    requires CanPull(l) && Shaped(l) && Aligned(l) && Untainted(l.batcher)
    requires var c := Batching.Add(l.batcher, l.pulled, measure); c.drained == l.batcher.drained
    ensures Untainted(Batching.Add(l.batcher, l.pulled, measure))
  {
    var b, c := l.batcher, Batching.Add(l.batcher, l.pulled, measure);
    AddAccepted(b, l.pulled, measure);
    assert |Flatten(b.drained)| <= |b.accepted|;
    hide Flatten, Batching.Inv, Honest, Batching.Add;
    assert forall i :: 0 <= i < |b.accepted| ==> c.accepted[i] == b.accepted[i];
  }

  /** Every cut is made by a pull, a flush or the end of the messages. */
  predicate CutsInLoop(policy: Policy) {
    !policy.timed || policy.maxItems == Some(1)
  }

  lemma NoTimer(b: State<nat>)
    requires Batching.Inv(b) && CutsInLoop(b.policy)
    ensures !b.timer
  {
    hide Flatten, Batches, Bounded;
  }

  /** A loop that has waited long enough knows of the refusal. */
  lemma AwaitedIsRecorded(l: Lease)
    requires Aligned(l) && RefusalsRecorded(l) && TaintSeen(l) && CanResume(l) && !l.place.FlushingReplay?
    requires !l.place.FlushingTail? && !Untainted(l.batcher)
    ensures l.applicationFailed
  {
    AlignedTickets(l);
    hide Aligned, Untainted, HasBarrier, Unaccepted;
    var t: nat :| Refused(l.batcher, t) && Awaits(l, l.base + t);
    assert l.base + t < l.committed;
  }

  lemma SamePlaceTaint(l: Lease, m: Lease)
    requires TaintSeen(l) && m.base == l.base && m.place == l.place
    requires m.batcher.drained == l.batcher.drained && m.batcher.accepted == l.batcher.accepted
    requires m.batcher.tickets == l.batcher.tickets
    ensures TaintSeen(m)
  {
    TaintSame(l.batcher, m.batcher);
    hide Untainted, Refused;
    if !Untainted(m.batcher) && l.place != Unwinding(false) {
      var t: nat :| Refused(l.batcher, t) && Awaits(l, l.base + t);
      assert Refused(m.batcher, t) && Awaits(m, m.base + t);
    }
  }

  lemma ResumeTaint(l: Lease)
    requires CanResume(l) && Shaped(l) && Aligned(l) && RefusalsRecorded(l) && TaintSeen(l)
    ensures TaintSeen(Resume(l))
  {
    var m := Resume(l);
    assert Enabled(l, Resumes) && Take(l, Resumes) == m && m.base == l.base;
    assert l.place.FlushingTail? ==> m.place == WaitingTail;
    assert l.place.FlushingReplay? ==> m.place == Waiting(l.place.commit, false);
    DrainedTurn(l, Resumes);
    TurnAccepted(l, Resumes);
    TaintSame(l.batcher, m.batcher);
    if Untainted(l.batcher) {
    } else if l.place.FlushingReplay? || l.place.FlushingTail? {
      hide Untainted, Refused, Resume, Take, Enabled, Shaped, Aligned;
      var t: nat :| Refused(l.batcher, t) && Awaits(l, l.base + t);
      assert Refused(m.batcher, t) && Awaits(m, m.base + t);
    } else {
      AwaitedIsRecorded(l);
      hide Untainted, Refused, Aligned, Shaped;
    }
  }

  lemma TurnTaint(l: Lease, turn: Turn)
    requires Enabled(l, turn) && Shaped(l) && Aligned(l) && RefusalsRecorded(l) && TaintSeen(l)
    requires CutsInLoop(l.batcher.policy)
    ensures TaintSeen(Take(l, turn))
  {
    var m := Take(l, turn);
    match turn {
      case Pulls(measure) => PullTaint(l, measure);
      case Ticks =>
        AlignedInv(l);
        NoTimer(l.batcher);
      case Resumes => ResumeTaint(l);
      case Ends =>
        assert AwaitsAll(m);
        TurnAligned(l, turn);
        hide *;
        AllAwaited(m);
      case Breaks =>
        assert l.place.Pulling? && m.base == l.base;
        DrainedTurn(l, turn);
        TurnAccepted(l, turn);
        TaintSame(l.batcher, m.batcher);
        hide Aligned, Shaped, RefusalsRecorded, Untainted, Refused;
      case _ =>
        assert m.place == l.place && m.base == l.base;
        DrainedTurn(l, turn);
        TurnAccepted(l, turn);
        hide *;
        SamePlaceTaint(l, m);
    }
  }

  /** Every turn keeps refusals in view, wherever cuts are made in the loop or nothing is ever refused. */
  lemma TurnRefusals(l: Lease, turn: Turn)
    requires Enabled(l, turn) && Sound(l) && Aligned(l) && RefusalInv(l)
    requires CutsInLoop(l.batcher.policy) || Whole(Take(l, turn))
    ensures RefusalInv(Take(l, turn))
  {
    assert Shaped(l) && Progressing(l);
    hide Take, Enabled, Sound, Shaped, Progressing, Aligned, RefusalsRejected, RefusalsRecorded;
    hide Untainted, Whole, Awaits;
    TurnRejects(l, turn);
    TurnRecords(l, turn);
    if CutsInLoop(l.batcher.policy) {
      hide TaintSeen;
      TurnTaint(l, turn);
    } else {
      WholeUntainted(Take(l, turn));
    }
  }

  lemma OpenRefusals(policy: Policy, base: nat, end: nat)
    ensures RefusalInv(Open(policy, base, end))
  {
  }

  // ---------------------------------------------------------------------------------------------
  // An attempt that can only end as an application failure
  // ---------------------------------------------------------------------------------------------

  /**
   The loop has a recorded failure still to report, or reports it already, or waits for the commit of a delivery that
   was rejected.
   */
  predicate Condemned(l: Lease) {
    || Doomed(l)
    || l.place == Unwinding(false)
    || exists p :: l.base <= p < l.pulled && Rejected(l, p) && Awaits(l, p)
  }

  lemma TaintCondemns(l: Lease)
    requires Aligned(l) && RefusalInv(l) && !Untainted(l.batcher)
    ensures Condemned(l)
  {
    AlignedTickets(l);
    hide Aligned, Untainted, Awaits, Doomed, Unaccepted;
    if l.place != Unwinding(false) {
      var t: nat :| Refused(l.batcher, t) && Awaits(l, l.base + t);
      assert Rejected(l, l.base + t);
    }
  }

  /** An attempt that is not condemned has applied a prefix, and nothing was cut behind a refused delivery. */
  lemma UncondemnedIsExact(l: Lease)
    requires Aligned(l) && PrefixOrDoomed(l) && RefusalInv(l) && !Condemned(l)
    ensures Prefix(l.batcher) && Untainted(l.batcher)
  {
    hide Aligned, Prefix, Untainted, RefusalInv;
    if !Untainted(l.batcher) {
      TaintCondemns(l);
    }
  }

  /** A commit that ran without success is on record. */
  ghost predicate CommitsRecorded(l: Lease) {
    forall p :: l.base <= p < l.committed ==> Resolved(l, p) || l.applicationFailed
  }

  lemma TurnCommitsRecorded(l: Lease, turn: Turn)
    requires Enabled(l, turn) && Shaped(l) && CommitsRecorded(l)
    ensures CommitsRecorded(Take(l, turn))
  {
    var m := Take(l, turn);
    TurnAccepted(l, turn);
    assert m.base == l.base && (l.applicationFailed ==> m.applicationFailed);
    assert m.committed == l.committed
           || (m.committed == l.committed + 1 && (Resolved(l, l.committed) || m.applicationFailed));
    hide Take, Enabled, Shaped;
    forall p | m.base <= p < m.committed && !m.applicationFailed
      ensures Resolved(m, p)
    {
      assert Resolved(l, p);
    }
  }

  lemma OneSettlement(b: State<nat>, i: nat, j: nat)
    requires Accounted(b) && i < |b.settled| && j < |b.settled| && b.settled[i].ticket == b.settled[j].ticket
    ensures i == j
  {
    var all := SettledTickets(b.settled);
    IssuedOnce(b.tickets, all[i]);
    if i < j {
      OccursTwice(all, i, j);
    } else if j < i {
      OccursTwice(all, j, i);
    }
  }

  lemma RejectedUnresolved(l: Lease, p: nat)
    requires Accounted(l.batcher) && Rejected(l, p)
    ensures !Resolved(l, p)
  {
    hide Accounted;
    var settled := l.batcher.settled;
    var i :| 0 <= i < |settled| && settled[i] == Settlement(p - l.base, false);
    forall j | 0 <= j < |settled|
      ensures settled[j] != Settlement(p - l.base, true)
    {
      if settled[j].ticket == p - l.base {
        OneSettlement(l.batcher, i, j);
      }
    }
  }

  /** The awaited commit of a rejected delivery is on record once the loop goes on. */
  lemma RejectionIsRecorded(l: Lease, p: nat)
    requires Progressing(l) && CommitsRecorded(l) && l.base <= p < l.committed && Rejected(l, p)
    ensures l.applicationFailed
  {
    assert Accounted(l.batcher);
    hide Progressing, Accounted;
    RejectedUnresolved(l, p);
  }

  lemma RejectedStays(l: Lease, turn: Turn, p: nat)
    requires Enabled(l, turn) && Shaped(l) && Rejected(l, p)
    ensures Rejected(Take(l, turn), p) && Take(l, turn).base == l.base && l.pulled <= Take(l, turn).pulled
  {
    TurnAccepted(l, turn);
  }

  /** A condemned attempt that has closed did so as an application failure, which is never retried. */
  lemma CondemnedCloses(l: Lease)
    requires Condemned(l) && Closed(l)
    ensures !l.place.infrastructure
  {
  }

  /** A condemned attempt stays condemned. */
  lemma CondemnedStays(l: Lease, turn: Turn)
    requires Enabled(l, turn) && Sound(l) && CommitsRecorded(l) && Condemned(l)
    ensures Condemned(Take(l, turn))
  {
    var m := Take(l, turn);
    assert Shaped(l) && Progressing(l);
    if !Doomed(l) && l.place != Unwinding(false) {
      var p :| l.base <= p < l.pulled && Rejected(l, p) && Awaits(l, p);
      RejectedStays(l, turn, p);
      if turn.Resumes? {
        if p < l.committed {
          RejectionIsRecorded(l, p);
        }
        ResumedStillAwaits(l, p);
      } else {
        assert m.place == l.place;
        assert Awaits(m, p);
      }
    }
  }

  lemma ResumedStillAwaits(l: Lease, p: nat)
    requires CanResume(l) && Awaits(l, p) && p < l.pulled && (p < l.committed ==> l.applicationFailed)
    ensures Awaits(Resume(l), p) || Resume(l).place == Unwinding(false)
  {
    hide HasBarrier;
  }

  /** What every reachable attempt keeps besides: commits that failed are on record. */
  lemma {:induction false} RunRecorded(l: Lease, turns: seq<Turn>)
    requires Sound(l) && CommitsRecorded(l) && IntakeProgress.Possible(l, turns)
    ensures Sound(IntakeProgress.Run(l, turns)) && CommitsRecorded(IntakeProgress.Run(l, turns))
    decreases |turns|
  {
    hide Enabled, Take, Sound, CommitsRecorded;
    if turns != [] {
      TurnRecorded(l, turns[0]);
      RunRecorded(Take(l, turns[0]), turns[1..]);
    }
  }

  lemma TurnRecorded(l: Lease, turn: Turn)
    requires Enabled(l, turn) && Sound(l) && CommitsRecorded(l)
    ensures Sound(Take(l, turn)) && CommitsRecorded(Take(l, turn))
  {
    hide Enabled, Take, Shaped, Paced, Progressing, CommitsRecorded;
    StepPaced(l, turn);
    StepProgress(l, turn);
    TurnCommitsRecorded(l, turn);
  }

  lemma OpenRecorded(policy: Policy, base: nat, end: nat)
    ensures Sound(Open(policy, base, end)) && CommitsRecorded(Open(policy, base, end))
  {
    OpenSound(policy, base, end);
    hide Sound;
  }

  lemma {:induction false} RunCondemned(l: Lease, turns: seq<Turn>)
    requires Sound(l) && CommitsRecorded(l) && Condemned(l) && IntakeProgress.Possible(l, turns)
    ensures
      var after := IntakeProgress.Run(l, turns);
      Condemned(after) && (Closed(after) ==> !after.place.infrastructure)
    decreases |turns|
  {
    hide Enabled, Take, Sound, CommitsRecorded, Condemned;
    if turns == [] {
      if Closed(l) {
        CondemnedCloses(l);
      }
    } else {
      TurnRecorded(l, turns[0]);
      CondemnedStays(l, turns[0]);
      RunCondemned(Take(l, turns[0]), turns[1..]);
    }
  }

  /** A reachable attempt that is condemned stays so, whatever happens, and never closes for a retry. */
  lemma CondemnedForGood(policy: Policy, base: nat, end: nat, before: seq<Turn>, after: seq<Turn>)
    requires IntakeProgress.Possible(Open(policy, base, end), before)
    requires
      var l := IntakeProgress.Run(Open(policy, base, end), before);
      Condemned(l) && IntakeProgress.Possible(l, after)
    ensures
      var l := IntakeProgress.Run(IntakeProgress.Run(Open(policy, base, end), before), after);
      Condemned(l) && (Closed(l) ==> !l.place.infrastructure)
  {
    hide *;
    OpenRecorded(policy, base, end);
    RunRecorded(Open(policy, base, end), before);
    RunCondemned(IntakeProgress.Run(Open(policy, base, end), before), after);
  }
}
