/**
 Which deliveries one attempt hands to the application. Deliveries that are refused apart, what has been
 applied is a prefix of what was pulled, unless a second batch was already behind a failing one; in that case
 the attempt can only end as an application failure.
 */
module IntakeExactness {
  import opened Prelude
  import opened Batching
  import opened BatchPromises
  import opened Intake
  import opened IntakeProgress

  /** The entries of the applied batches, in order. */
  function AppliedEntries(finished: seq<Outcome<nat>>): seq<Entry<nat>> {
    if finished == [] then []
    else
      var last := finished[|finished| - 1];
      AppliedEntries(finished[..|finished| - 1]) + if last.applied then last.batch else []
  }

  lemma AppliedSnoc(finished: seq<Outcome<nat>>, last: Outcome<nat>)
    ensures AppliedEntries(finished + [last]) == AppliedEntries(finished) + if last.applied then last.batch else []
  {
    assert (finished + [last])[..|finished|] == finished;
  }

  /** Ticket `t` names the `t`-th delivery after the attempt's first position; some tickets may have been refused. */
  ghost predicate Aligned(l: Lease) {
    && Batching.Inv(l.batcher)
    && Honest(l.batcher)
    && l.batcher.tickets == l.pulled - l.base
    && Stamped(l.batcher.accepted, l.base, l.batcher.tickets)
  }

  ghost predicate Stamped(accepted: seq<Entry<nat>>, base: nat, tickets: nat) {
    && (forall i :: 0 <= i < |accepted| ==> accepted[i].value == base + accepted[i].ticket)
    && (forall i :: 0 <= i < |accepted| ==> i <= accepted[i].ticket < tickets)
    && (forall i, j :: 0 <= i < j < |accepted| ==> accepted[i].ticket < accepted[j].ticket)
  }

  /** Every delivery so far was accepted. */
  ghost predicate Whole(l: Lease) {
    Numbered(l.batcher.accepted, l.base) && |l.batcher.accepted| == l.batcher.tickets
  }

  /** No delivery was refused ahead of one that was cut into a batch. */
  ghost predicate Untainted(b: State<nat>) {
    forall i :: 0 <= i < |Flatten(b.drained)| && i < |b.accepted| ==> b.accepted[i].ticket == i
  }

  /** The commits that ran are those of settled deliveries. */
  ghost predicate CommitsSettled(l: Lease) {
    forall t: nat :: t < l.committed - l.base ==> t in SettledTickets(l.batcher.settled)
  }

  ghost predicate Prefix(b: State<nat>) {
    AppliedEntries(b.finished) <= b.accepted
  }

  /** The attempt can only end as an application failure, which is never retried. */
  predicate Doomed(l: Lease) {
    l.applicationFailed && (l.place.Waiting? || l.place.FlushingReplay? || l.place == Unwinding(false))
  }

  lemma {:induction false} FlattenPrefix<T>(ss: seq<seq<T>>, tt: seq<seq<T>>)
    requires ss <= tt
    ensures Flatten(ss) <= Flatten(tt)
    decreases |tt|
  {
    if |ss| < |tt| {
      FlattenPrefix(ss, tt[..|tt| - 1]);
    } else {
      assert ss == tt;
    }
  }

  lemma {:induction false} UnspoiledApplied(finished: seq<Outcome<nat>>)
    requires forall i :: 0 <= i < |finished| ==> finished[i].applied
    ensures AppliedEntries(finished) == Flatten(FinishedBatches(finished))
    decreases |finished|
  {
    if finished != [] {
      var front := finished[..|finished| - 1];
      UnspoiledApplied(front);
      assert FinishedBatches(finished)[..|finished| - 1] == FinishedBatches(front);
    }
  }

  /** As long as no batch failed, what was applied is a prefix of what was accepted. */
  lemma UnspoiledPrefix(b: State<nat>)
    requires Batching.Inv(b) && !Spoiled(b)
    ensures Prefix(b)
  {
    UnspoiledApplied(b.finished);
    FlattenPrefix(FinishedBatches(b.finished), b.drained);
    assert Flatten(b.drained) <= b.accepted;
  }

  lemma {:induction false} AppliedHas(finished: seq<Outcome<nat>>, k: nat, j: nat)
    requires k < |finished| && finished[k].applied && j < |finished[k].batch|
    ensures finished[k].batch[j] in AppliedEntries(finished)
    decreases |finished|
  {
    if k < |finished| - 1 {
      AppliedHas(finished[..|finished| - 1], k, j);
    }
  }

  lemma {:induction false} AppliedFrom(finished: seq<Outcome<nat>>, i: nat) returns (k: nat, j: nat)
    requires i < |AppliedEntries(finished)|
    ensures k < |finished| && finished[k].applied && j < |finished[k].batch|
    ensures finished[k].batch[j] == AppliedEntries(finished)[i]
    decreases |finished|
  {
    var front := finished[..|finished| - 1];
    if i < |AppliedEntries(front)| {
      k, j := AppliedFrom(front, i);
    } else {
      k, j := |finished| - 1, i - |AppliedEntries(front)|;
    }
  }

  lemma {:induction false} AppliedShorter(finished: seq<Outcome<nat>>)
    ensures |AppliedEntries(finished)| <= |Flatten(FinishedBatches(finished))|
    decreases |finished|
  {
    if finished != [] {
      var front := finished[..|finished| - 1];
      AppliedShorter(front);
      assert FinishedBatches(finished)[..|finished| - 1] == FinishedBatches(front);
    }
  }

  /** What was applied was cut before. */
  lemma AppliedDrained(b: State<nat>)
    requires Batching.Inv(b)
    ensures |AppliedEntries(b.finished)| <= |Flatten(b.drained)| <= |b.accepted|
  {
    AppliedShorter(b.finished);
    FlattenPrefix(FinishedBatches(b.finished), b.drained);
  }

  /** The applied entries of a prefix carry the first tickets, as long as nothing was refused ahead of them. */
  lemma AppliedTickets(l: Lease)
    requires Aligned(l) && Prefix(l.batcher) && Untainted(l.batcher)
    ensures
      var applied := AppliedEntries(l.batcher.finished);
      forall i :: 0 <= i < |applied| ==> applied[i].ticket == i && applied[i].value == l.base + i
  {
    AppliedDrained(l.batcher);
    hide Batching.Inv, Honest, AppliedEntries, Flatten;
    var applied := AppliedEntries(l.batcher.finished);
    assert forall i :: 0 <= i < |applied| ==> applied[i] == l.batcher.accepted[i];
  }

  /** While the applied entries are a prefix, exactly their promises are resolved. */
  lemma ResolvedIffApplied(l: Lease, position: nat)
    requires Aligned(l) && Prefix(l.batcher) && Untainted(l.batcher) && l.base <= position
    ensures Resolved(l, position) <==> position < l.base + |AppliedEntries(l.batcher.finished)|
  {
    var b, t := l.batcher, position - l.base;
    var applied := AppliedEntries(b.finished);
    AppliedTickets(l);
    hide Batching.Inv, Stamped, Untainted, AppliedEntries, Prefix;
    if Resolved(l, position) {
      var n :| 0 <= n < |b.settled| && b.settled[n] == Settlement(t, true);
      assert InAppliedBatch(b, b.settled[n].ticket);
      var k, j :| 0 <= k < |b.finished| && b.finished[k].applied
               && 0 <= j < |b.finished[k].batch| && b.finished[k].batch[j].ticket == t;
      AppliedHas(b.finished, k, j);
      var i :| 0 <= i < |applied| && applied[i] == b.finished[k].batch[j];
    }
    if t < |applied| {
      var k, j := AppliedFrom(b.finished, t);
      assert Settlement(b.finished[k].batch[j].ticket, b.finished[k].applied) in b.settled;
    }
  }

  // ---------------------------------------------------------------------------------------------
  // Every turn is a short run of the coordinator
  // ---------------------------------------------------------------------------------------------

  function CoordinatorEvents(l: Lease, turn: Turn): seq<Event<nat>>
    requires Enabled(l, turn)
  {
    match turn
    case Pulls(measure) =>
      var b := Batching.Add(l.batcher, l.pulled, measure);
      [Adding(l.pulled, measure)]
      + if l.pulled + 1 == l.initialEnd then [Flushing]
        else if Backpressure(b) then [Registering(if b.pending == [] then l.pulled + 1 else l.pulled)]
        else []
    case Ticks => [TimerFiring]
    case Runs(ok) => [Running(HeadSucceeds(l, ok))]
    case Commits => []
    case Resumes =>
      (match l.place
       case Waiting(_, _) => if l.applicationFailed then [Cancelling] else []
       case FlushingReplay(commit) => [Registering(commit)]
       case FlushingTail => [Registering(l.pulled)]
       case WaitingTail => [Cancelling])
    case Ends => [Flushing]
    case Breaks => [Cancelling]
  }

  lemma RunOne(b: State<nat>, event: Event<nat>)
    ensures Batching.Run(b, [event]) == Batching.Step(b, event)
  {
    assert [event][..0] == [];
  }

  lemma RunTwo(b: State<nat>, first: Event<nat>, second: Event<nat>)
    ensures Batching.Run(b, [first] + [second]) == Batching.Step(Batching.Step(b, first), second)
  {
    assert ([first] + [second])[..1] == [first];
    RunOne(b, first);
  }

  lemma TurnRunsCoordinator(l: Lease, turn: Turn)
    requires Enabled(l, turn)
    ensures Take(l, turn).batcher == Batching.Run(l.batcher, CoordinatorEvents(l, turn))
  {
    var events := CoordinatorEvents(l, turn);
    if |events| == 1 {
      RunOne(l.batcher, events[0]);
      assert events == [events[0]];
    } else if |events| == 2 {
      RunTwo(l.batcher, events[0], events[1]);
      assert events == [events[0]] + [events[1]];
    }
  }

  lemma {:induction false} RunHonest(b: State<nat>, events: seq<Event<nat>>)
    requires Honest(b)
    ensures Honest(Batching.Run(b, events))
    decreases |events|
  {
    if events != [] {
      RunHonest(b, events[..|events| - 1]);
      StepHonest(Batching.Run(b, events[..|events| - 1]), events[|events| - 1]);
    }
  }

  lemma OtherAccepted(b: State<nat>, event: Event<nat>)
    requires !event.Adding?
    ensures var c := Batching.Step(b, event);
      c.accepted == b.accepted && c.tickets == b.tickets && c.policy == b.policy && b.settled <= c.settled
  {
  }

  lemma {:induction false} OthersAccepted(b: State<nat>, events: seq<Event<nat>>)
    requires forall i :: 0 <= i < |events| ==> !events[i].Adding?
    ensures var c := Batching.Run(b, events);
      c.accepted == b.accepted && c.tickets == b.tickets && c.policy == b.policy && b.settled <= c.settled
    decreases |events|
  {
    if events != [] {
      OthersAccepted(b, events[..|events| - 1]);
      OtherAccepted(Batching.Run(b, events[..|events| - 1]), events[|events| - 1]);
    }
  }

  /** What an `add` accepts: its value, unless the size is refused. */
  function Taken(b: State<nat>, value: nat, measure: Measure): seq<Entry<nat>> {
    if Admit(b.policy, measure).Admitted? then [Entry(b.tickets, value, Admit(b.policy, measure).size)] else []
  }

  lemma AddAccepted(b: State<nat>, value: nat, measure: Measure)
    requires !b.cancelled && !b.completed
    ensures var c := Batching.Add(b, value, measure);
      && c.accepted == b.accepted + Taken(b, value, measure)
      && c.tickets == b.tickets + 1 && c.policy == b.policy
      && c.settled == b.settled
           + if Admit(b.policy, measure).Admitted? then [] else [Settlement(b.tickets, false)]
  {
    assert b.accepted + [] == b.accepted && b.settled + [] == b.settled;
  }

  /** How a turn changes what was accepted: only a pull adds to it. */
  lemma TurnAccepted(l: Lease, turn: Turn)
    requires Enabled(l, turn) && Shaped(l)
    ensures var b, c := l.batcher, Take(l, turn).batcher;
      && c.policy == b.policy && b.settled <= c.settled
      && (turn.Pulls? && !Admit(b.policy, turn.measure).Admitted? ==> Settlement(b.tickets, false) in c.settled)
      && if turn.Pulls?
         then c.accepted == b.accepted + Taken(b, l.pulled, turn.measure) && c.tickets == b.tickets + 1
         else c.accepted == b.accepted && c.tickets == b.tickets
  {
    var events := CoordinatorEvents(l, turn);
    TurnRunsCoordinator(l, turn);
    if turn.Pulls? {
      var b := Batching.Add(l.batcher, l.pulled, turn.measure);
      AddAccepted(l.batcher, l.pulled, turn.measure);
      if |events| == 1 {
        RunOne(l.batcher, events[0]);
        assert events == [events[0]];
      } else {
        RunTwo(l.batcher, events[0], events[1]);
        assert events == [events[0]] + [events[1]];
        OtherAccepted(b, events[1]);
      }
      hide Batching.Add, Taken, Batching.Run, Batching.Step, Admit;
    } else {
      OthersAccepted(l.batcher, events);
    }
  }

  /** Ticket `i` names position `base + i`. */
  ghost predicate Numbered(accepted: seq<Entry<nat>>, base: nat) {
    forall i :: 0 <= i < |accepted| ==> accepted[i].ticket == i && accepted[i].value == base + i
  }

  lemma NumberedSnoc(accepted: seq<Entry<nat>>, base: nat, entry: Entry<nat>)
    requires Numbered(accepted, base) && entry.ticket == |accepted| && entry.value == base + |accepted|
    ensures Numbered(accepted + [entry], base)
  {
  }

  lemma StampedSnoc(accepted: seq<Entry<nat>>, base: nat, tickets: nat, more: seq<Entry<nat>>)
    requires Stamped(accepted, base, tickets)
    requires more == [] || (|more| == 1 && more[0].ticket == tickets && more[0].value == base + tickets)
    ensures Stamped(accepted + more, base, tickets + 1)
  {
    var all := accepted + more;
    if accepted != [] {
      assert |accepted| - 1 <= accepted[|accepted| - 1].ticket;
    }
    forall i | 0 <= i < |all|
      ensures all[i].value == base + all[i].ticket && i <= all[i].ticket < tickets + 1
    {
      assert i < |accepted| ==> all[i] == accepted[i];
    }
  }

  lemma TurnStamped(l: Lease, turn: Turn)
    requires Enabled(l, turn) && Shaped(l) && Stamped(l.batcher.accepted, l.base, l.batcher.tickets)
    requires l.batcher.tickets == l.pulled - l.base
    ensures var m := Take(l, turn);
      Stamped(m.batcher.accepted, m.base, m.batcher.tickets) && m.batcher.tickets == m.pulled - m.base
  {
    var m := Take(l, turn);
    assert m.base == l.base && m.pulled == l.pulled + if turn.Pulls? then 1 else 0;
    TurnAccepted(l, turn);
    if turn.Pulls? {
      var more := Taken(l.batcher, l.pulled, turn.measure);
      assert more == [] || (|more| == 1 && more[0].ticket == l.batcher.tickets && more[0].value == l.pulled);
      hide *;
      StampedSnoc(l.batcher.accepted, l.base, l.batcher.tickets, more);
    }
  }

  lemma TurnWhole(l: Lease, turn: Turn)
    requires Enabled(l, turn) && Shaped(l) && Aligned(l) && Whole(l)
    requires turn.Pulls? ==> Admit(l.batcher.policy, turn.measure).Admitted?
    ensures Whole(Take(l, turn))
  {
    var m := Take(l, turn);
    assert m.base == l.base;
    TurnAccepted(l, turn);
    hide Aligned, Enabled, Shaped, Take;
    if turn.Pulls? {
      assert l.batcher.tickets == l.pulled - l.base by {
        AlignedTickets(l);
      }
      NumberedSnoc(l.batcher.accepted, l.base, m.batcher.accepted[|l.batcher.accepted|]);
    }
  }

  lemma AlignedTickets(l: Lease)
    requires Aligned(l)
    ensures l.batcher.tickets == l.pulled - l.base && Stamped(l.batcher.accepted, l.base, l.batcher.tickets)
  {
    hide Batching.Inv, Honest, Stamped;
  }

  /** Where every delivery was accepted, none was refused ahead of another. */
  lemma WholeUntainted(l: Lease)
    requires Whole(l)
    ensures Untainted(l.batcher)
  {
  }

  lemma TurnAligned(l: Lease, turn: Turn)
    requires Enabled(l, turn) && Shaped(l) && Aligned(l)
    ensures Aligned(Take(l, turn))
  {
    hide Batching.Inv, Honest, Stamped, Enabled, Shaped, Take, CoordinatorEvents, Batching.Run;
    TurnStamped(l, turn);
    TurnRunsCoordinator(l, turn);
    RunInv(l.batcher, CoordinatorEvents(l, turn));
    RunHonest(l.batcher, CoordinatorEvents(l, turn));
  }

  lemma QuietStep(b: State<nat>, event: Event<nat>)
    requires !event.Running?
    ensures Batching.Step(b, event).finished == b.finished
  {
  }

  lemma {:induction false} QuietRun(b: State<nat>, events: seq<Event<nat>>)
    requires forall i :: 0 <= i < |events| ==> !events[i].Running?
    ensures Batching.Run(b, events).finished == b.finished
    decreases |events|
  {
    if events != [] {
      QuietRun(b, events[..|events| - 1]);
      QuietStep(Batching.Run(b, events[..|events| - 1]), events[|events| - 1]);
    }
  }

  /** Only the head of the chain applies anything, and it applies its whole batch or nothing. */
  lemma TurnApplied(l: Lease, turn: Turn)
    requires Enabled(l, turn)
    ensures AppliedEntries(Take(l, turn).batcher.finished)
         == AppliedEntries(l.batcher.finished) + if turn.Runs? then AppliedBatch(l, turn.ok) else []
  {
    if turn.Runs? {
      var succeeds := HeadSucceeds(l, turn.ok);
      var head := l.batcher.applications[0];
      if head.Apply? {
        AppliedSnoc(l.batcher.finished, Outcome(head.batch, succeeds));
      }
    } else {
      TurnRunsCoordinator(l, turn);
      QuietRun(l.batcher, CoordinatorEvents(l, turn));
    }
  }

  lemma TurnSettled(l: Lease, turn: Turn)
    requires Enabled(l, turn) && Shaped(l) && Progressing(l) && CommitsSettled(l)
    ensures CommitsSettled(Take(l, turn))
  {
    var m := Take(l, turn);
    TurnAccepted(l, turn);
    var before, after := SettledTickets(l.batcher.settled), SettledTickets(m.batcher.settled);
    assert before <= after;
    forall t: nat | t < m.committed - m.base
      ensures t in after
    {
      if t >= l.committed - l.base {
        var ok := Resolved(l, l.committed);
        var n :| 0 <= n < |l.batcher.settled| && l.batcher.settled[n] == Settlement(t, ok);
        assert before[n] == t;
      } else {
        assert t in before;
      }
    }
  }

  /** The first ticket of the batch about to leave the chain is unsettled, so no commit went past it. */
  lemma CommitsStopAtHead(l: Lease)
    requires Progressing(l) && Aligned(l) && CommitsSettled(l)
    requires l.batcher.applications != [] && l.batcher.applications[0].Apply?
    ensures l.batcher.applications[0].batch != []
    ensures l.committed <= l.base + l.batcher.applications[0].batch[0].ticket
  {
    var b := l.batcher;
    var head, done := b.applications[0].batch, FinishedBatches(b.finished);
    BatchesHead(b.applications);
    assert b.drained[|done|] == head;
    assert Bounded(b.policy, b.drained[|done|]);
    FlattenSnoc(done, head);
    FlattenPrefix(done + [head], b.drained);
    var first := |Flatten(done)|;
    assert Flatten(done + [head])[first] == head[0];
    assert (Flatten(b.drained) + b.pending + b.dropped)[first] == head[0];
    assert head[0] == b.accepted[first];
    assert b.applications == [b.applications[0]] + b.applications[1..];
    QueuedCons(b.applications[0], b.applications[1..]);
    var ticket := head[0].ticket;
    assert Tickets(head)[0] == ticket;
    assert ticket in Queued(b.applications);
    IssuedOnce(b.tickets, ticket);
    assert multiset(Queued(b.applications))[ticket] >= 1;
    assert multiset(SettledTickets(b.settled))[ticket] == 0;
    assert ticket !in SettledTickets(b.settled);
  }

  ghost predicate PrefixOrDoomed(l: Lease) {
    Prefix(l.batcher) || Doomed(l)
  }

  /** A batch is applied behind a failed one only where intake already waits to report that failure. */
  lemma SpoiledDoomed(l: Lease, ok: bool)
    requires CanRun(l) && Shaped(l) && Paced(l) && Spoiled(l.batcher) && l.batcher.applications[0].Apply?
    ensures Doomed(l) && Doomed(RunHead(l, ok))
  {
    BatchesHead(l.batcher.applications);
  }

  lemma ApplyPrefix(l: Lease, ok: bool)
    requires CanRun(l) && Batching.Inv(l.batcher) && !Spoiled(l.batcher) && AppliedBatch(l, ok) != []
    ensures Prefix(RunHead(l, ok).batcher)
  {
    var b, c := l.batcher, RunHead(l, ok).batcher;
    RunNextInv(b, true);
    assert forall i :: 0 <= i < |b.finished| ==> b.finished[i].applied;
    assert c.finished == b.finished + [Outcome(b.applications[0].batch, true)];
    UnspoiledPrefix(c);
  }

  lemma AlignedInv(l: Lease)
    requires Aligned(l)
    ensures Batching.Inv(l.batcher)
  {
    hide Batching.Inv, Honest, Stamped;
  }

  lemma RunPrefix(l: Lease, ok: bool)
    requires CanRun(l) && Sound(l) && Aligned(l) && PrefixOrDoomed(l)
    ensures PrefixOrDoomed(RunHead(l, ok))
  {
    var b, m := l.batcher, RunHead(l, ok);
    assert m == Take(l, Runs(ok));
    assert Doomed(l) ==> Doomed(m);
    assert AppliedBatch(l, ok) != [] ==> b.applications[0].Apply?;
    assert Shaped(l) && Paced(l);
    TurnApplied(l, Runs(ok));
    TurnAccepted(l, Runs(ok));
    hide CanRun, Sound, Aligned, Shaped, Paced, Doomed, RunHead, AppliedBatch, AppliedEntries, Spoiled, Take;
    if Prefix(b) {
      if AppliedBatch(l, ok) == [] {
        assert AppliedEntries(m.batcher.finished) == AppliedEntries(b.finished);
      } else if Spoiled(b) {
        SpoiledDoomed(l, ok);
      } else {
        AlignedInv(l);
        ApplyPrefix(l, ok);
      }
    }
  }

  lemma TurnPrefix(l: Lease, turn: Turn)
    requires Enabled(l, turn) && Sound(l) && Aligned(l) && PrefixOrDoomed(l)
    ensures PrefixOrDoomed(Take(l, turn))
  {
    if turn.Runs? {
      RunPrefix(l, turn.ok);
    } else {
      TurnApplied(l, turn);
      TurnAccepted(l, turn);
    }
  }

  // ---------------------------------------------------------------------------------------------
  // Without application failures
  // ---------------------------------------------------------------------------------------------

  /** Nothing has gone wrong but, possibly, the transport. */
  ghost predicate Clean(l: Lease) {
    if l.place.Unwinding? then l.place.infrastructure
    else
      && !l.applicationFailed && !l.batcher.barrierFailed
      && forall i :: 0 <= i < |l.batcher.settled| ==> l.batcher.settled[i].resolved
  }

  lemma CleanSettledResolved(l: Lease, position: nat)
    requires Clean(l) && !l.place.Unwinding? && l.base <= position
    requires position - l.base in SettledTickets(l.batcher.settled)
    ensures Resolved(l, position)
  {
    var settled := l.batcher.settled;
    var i :| 0 <= i < |settled| && SettledTickets(settled)[i] == position - l.base;
    assert settled[i] == Settlement(position - l.base, true);
  }

  lemma RunClean(l: Lease)
    requires CanRun(l) && Clean(l) && CommitsSettled(l)
    ensures Clean(RunHead(l, true))
  {
    if !l.place.Unwinding? {
      var head := l.batcher.applications[0];
      if head.Barrier? && l.base < head.commit {
        CleanSettledResolved(l, head.commit - 1);
      }
    }
  }

  lemma CommitClean(l: Lease)
    requires CanCommit(l) && Clean(l) && l.base <= l.committed
    ensures Clean(Commit(l))
  {
    assert !l.place.Unwinding? ==> Settlement(l.committed - l.base, false) !in l.batcher.settled;
  }

  lemma QuietClean(b: State<nat>, event: Event<nat>)
    requires !event.Running? && !event.Cancelling?
    requires event.Adding? ==> !b.cancelled && !b.completed && Admit(b.policy, event.measure).Admitted?
    ensures var c := Batching.Step(b, event); c.settled == b.settled && c.barrierFailed == b.barrierFailed
  {
  }

  lemma PullClean(l: Lease, measure: Measure)
    requires CanPull(l) && Shaped(l) && Clean(l) && Admit(l.batcher.policy, measure).Admitted?
    ensures Clean(Pull(l, measure))
  {
    var events, m := CoordinatorEvents(l, Pulls(measure)), Pull(l, measure);
    var b := Batching.Add(l.batcher, l.pulled, measure);
    assert m.applicationFailed == l.applicationFailed && !m.place.Unwinding?;
    TurnRunsCoordinator(l, Pulls(measure));
    QuietClean(l.batcher, Adding(l.pulled, measure));
    if |events| == 1 {
      RunOne(l.batcher, events[0]);
      assert events == [events[0]];
    } else {
      RunTwo(l.batcher, events[0], events[1]);
      assert events == [events[0]] + [events[1]];
      QuietClean(b, events[1]);
    }
  }

  lemma TurnClean(l: Lease, turn: Turn)
    requires Enabled(l, turn) && Shaped(l) && Clean(l) && CommitsSettled(l) && l.base <= l.committed
    requires turn.Pulls? ==> Admit(l.batcher.policy, turn.measure).Admitted?
    requires turn.Runs? ==> turn.ok
    ensures Clean(Take(l, turn))
  {
    match turn {
      case Pulls(measure) => PullClean(l, measure);
      case Runs(_) => RunClean(l);
      case Commits => CommitClean(l);
      case _ =>
    }
  }
}
