/**
 The bounded batch coordinator of the core package: one partial buffer cut by count, bytes, time or an
 explicit flush, and one serial chain of applications and commit barriers behind it.
 */
module Batching {
  import opened Prelude

  datatype Policy = Policy(maxItems: Option<nat>, maxBytes: Option<nat>, timed: bool)
  {
    predicate Valid() {
      && (maxItems.Some? ==> 0 < maxItems.value)
      && (maxBytes.Some? ==> 0 < maxBytes.value)
      && (maxItems.Some? || maxBytes.Some? || timed)
    }

    /** The new value does not fit beside the buffered ones. */
    predicate Overflows(items: nat, bytes: nat, size: nat) {
      maxBytes.Some? && 0 < items && maxBytes.value < bytes + size
    }

    predicate CountReached(items: nat) {
      maxItems.Some? && maxItems.value <= items
    }

    predicate Full(items: nat, bytes: nat) {
      CountReached(items) || (maxBytes.Some? && maxBytes.value <= bytes)
    }

    /** The bounds every batch handed to the application has to respect. */
    predicate Within(items: nat, bytes: nat) {
      && 0 < items
      && (maxItems.Some? ==> items <= maxItems.value)
      && (maxBytes.Some? ==> bytes <= maxBytes.value)
    }
  }

  /** What the caller's `sizeOf` produced for a value; it may throw, or return a negative number. */
  datatype Measure = Unmeasurable | Size(bytes: int)

  datatype Admission = Admitted(size: nat) | InvalidSize | TooLarge

  function Admit(policy: Policy, measure: Measure): Admission {
    if policy.maxBytes.None? then Admitted(0)
    else if measure.Unmeasurable? || measure.bytes < 0 then InvalidSize
    else if policy.maxBytes.value < measure.bytes then TooLarge
    else Admitted(measure.bytes)
  }

  datatype Reason = ByCount | ByBytes | ByTime | ByCompletion | ByHand

  /** One stored `add` call; the ticket names the promise it returned. */
  datatype Entry<T> = Entry(ticket: nat, value: T, size: nat)

  /** One link of the application chain. A barrier waits for the commit it names. */
  datatype Op<T> = Apply(batch: seq<Entry<T>>, reason: Reason) | Barrier(commit: nat)

  datatype Settlement = Settlement(ticket: nat, resolved: bool)

  /** A batch that left the chain, and whether it was applied. */
  datatype Outcome<T> = Outcome(batch: seq<Entry<T>>, applied: bool)

  /**
   The coordinator, together with what it has done so far: every entry stored, every batch cut, every
   batch that left the chain, and every promise settled.
   */
  datatype State<T> = State(
    policy: Policy,
    pending: seq<Entry<T>>,
    pendingBytes: nat,
    timer: bool,
    applications: seq<Op<T>>,
    barrierFailed: bool,
    cancelled: bool,
    completed: bool,
    tickets: nat,
    accepted: seq<Entry<T>>,
    drained: seq<seq<Entry<T>>>,
    dropped: seq<Entry<T>>,
    finished: seq<Outcome<T>>,
    settled: seq<Settlement>)

  function Initial<T>(policy: Policy): State<T> {
    State(policy, [], 0, false, [], false, false, false, 0, [], [], [], [], [])
  }

  function Drain<T>(s: State<T>, reason: Reason): State<T> {
    if s.pending == [] || s.cancelled then s
    else s.(timer := false,
            pending := [],
            pendingBytes := 0,
            applications := s.applications + [Apply(s.pending, reason)],
            drained := s.drained + [s.pending])
  }

  /** An `add` whose promise is rejected before anything is stored. */
  function Refuse<T>(s: State<T>): State<T> {
    s.(tickets := s.tickets + 1, settled := s.settled + [Settlement(s.tickets, false)])
  }

  function Store<T>(s: State<T>, value: T, size: nat): State<T> {
    var entry := Entry(s.tickets, value, size);
    s.(tickets := s.tickets + 1,
       pending := s.pending + [entry],
       pendingBytes := s.pendingBytes + size,
       accepted := s.accepted + [entry])
  }

  /** Cuts the buffer when it is full, and otherwise makes sure its timer runs. */
  function CutOrArm<T>(s: State<T>): State<T> {
    if s.policy.Full(|s.pending|, s.pendingBytes)
    then Drain(s, if s.policy.CountReached(|s.pending|) then ByCount else ByBytes)
    else s.(timer := s.timer || s.policy.timed)
  }

  function Add<T>(s: State<T>, value: T, measure: Measure): State<T> {
    if s.cancelled || s.completed then Refuse(s)
    else
      match Admit(s.policy, measure)
      case Admitted(size) =>
        var room := if s.policy.Overflows(|s.pending|, s.pendingBytes, size) then Drain(s, ByBytes) else s;
        CutOrArm(Store(room, value, size))
      case _ => Refuse(s)
  }

  function TimerFires<T>(s: State<T>): State<T> {
    if s.timer then Drain(s.(timer := false), ByTime) else s
  }

  function Complete<T>(s: State<T>): State<T> {
    if s.cancelled || s.completed then s else Drain(s.(completed := true), ByCompletion)
  }

  function Settle<T>(batch: seq<Entry<T>>, resolved: bool): (r: seq<Settlement>)
    ensures |r| == |batch|
  {
    seq(|batch|, i requires 0 <= i < |batch| => Settlement(batch[i].ticket, resolved))
  }

  function Cancel<T>(s: State<T>): State<T> {
    if s.cancelled then s
    else s.(cancelled := true,
            timer := false,
            pending := [],
            pendingBytes := 0,
            dropped := s.dropped + s.pending,
            settled := s.settled + Settle(s.pending, false))
  }

  function Register<T>(s: State<T>, commit: nat): State<T> {
    s.(applications := s.applications + [Barrier(commit)])
  }

  /** The head of the chain finishes: `ok` says whether the application, or the awaited commit, succeeded. */
  function RunNext<T>(s: State<T>, ok: bool): State<T> {
    if s.applications == [] then s
    else
      var rest := s.(applications := s.applications[1..]);
      match s.applications[0]
      case Barrier(_) => rest.(barrierFailed := s.barrierFailed || !ok)
      case Apply(batch, _) =>
        var applied := ok && !s.barrierFailed;
        rest.(finished := s.finished + [Outcome(batch, applied)], settled := s.settled + Settle(batch, applied))
  }

  datatype Event<T> =
    | Adding(value: T, measure: Measure)
    | TimerFiring
    | Flushing
    | Completing
    | Cancelling
    | Registering(commit: nat)
    | Running(ok: bool)

  function Step<T>(s: State<T>, event: Event<T>): State<T> {
    match event
    case Adding(value, measure) => Add(s, value, measure)
    case TimerFiring => TimerFires(s)
    case Flushing => Drain(s, ByHand)
    case Completing => Complete(s)
    case Cancelling => Cancel(s)
    case Registering(commit) => Register(s, commit)
    case Running(ok) => RunNext(s, ok)
  }

  function Run<T>(s: State<T>, events: seq<Event<T>>): State<T> {
    if events == [] then s else Step(Run(s, events[..|events| - 1]), events[|events| - 1])
  }

  // ---------------------------------------------------------------------------------------------
  // What every reachable coordinator satisfies
  // ---------------------------------------------------------------------------------------------

  function Bytes<T>(entries: seq<Entry<T>>): nat {
    if entries == [] then 0 else Bytes(entries[..|entries| - 1]) + entries[|entries| - 1].size
  }

  lemma BytesSnoc<T>(entries: seq<Entry<T>>, entry: Entry<T>)
    ensures Bytes(entries + [entry]) == Bytes(entries) + entry.size
  {
    assert (entries + [entry])[..|entries|] == entries;
  }

  /** The batches still in the application chain. */
  function Batches<T>(ops: seq<Op<T>>): seq<seq<Entry<T>>> {
    if ops == [] then []
    else Batches(ops[..|ops| - 1]) + (if ops[|ops| - 1].Apply? then [ops[|ops| - 1].batch] else [])
  }

  function FinishedBatches<T>(finished: seq<Outcome<T>>): (r: seq<seq<Entry<T>>>)
    ensures |r| == |finished|
  {
    seq(|finished|, i requires 0 <= i < |finished| => finished[i].batch)
  }

  /** Batches leave the chain in the order in which they were cut, and none is skipped. */
  ghost predicate Ordered<T>(s: State<T>) {
    s.drained == FinishedBatches(s.finished) + Batches(s.applications)
  }

  ghost predicate Bounded<T>(policy: Policy, batch: seq<Entry<T>>) {
    policy.Within(|batch|, Bytes(batch))
  }

  ghost predicate Conserving<T>(s: State<T>) {
    && s.accepted == Flatten(s.drained) + s.pending + s.dropped
    && (s.dropped != [] ==> s.cancelled)
    && (s.cancelled || s.completed ==> s.pending == [])
  }

  /** The partial buffer is never full, its byte count is exact, and its timer runs exactly while it is non-empty. */
  ghost predicate Buffered<T>(s: State<T>) {
    && s.pendingBytes == Bytes(s.pending)
    && !s.policy.Full(|s.pending|, s.pendingBytes)
    && (s.timer <==> s.pending != [] && s.policy.timed)
  }

  /** Every batch ever cut was non-empty and within both bounds. */
  ghost predicate CutWithinBounds<T>(s: State<T>) {
    forall i :: 0 <= i < |s.drained| ==> Bounded(s.policy, s.drained[i])
  }

  ghost predicate Inv<T>(s: State<T>) {
    s.policy.Valid() && Conserving(s) && Ordered(s) && Buffered(s) && CutWithinBounds(s)
  }

  lemma {:induction false} BatchesSnoc<T>(ops: seq<Op<T>>, op: Op<T>)
    ensures Batches(ops + [op]) == Batches(ops) + if op.Apply? then [op.batch] else []
  {
    assert (ops + [op])[..|ops|] == ops;
  }

  lemma {:induction false} BatchesCons<T>(op: Op<T>, ops: seq<Op<T>>)
    ensures Batches([op] + ops) == (if op.Apply? then [op.batch] else []) + Batches(ops)
    decreases |ops|
  {
    if ops == [] {
      assert [op] + ops == [] + [op];
      BatchesSnoc([], op);
    } else {
      var front, last := ops[..|ops| - 1], ops[|ops| - 1];
      assert [op] + ops == ([op] + front) + [last];
      BatchesSnoc([op] + front, last);
      BatchesCons(op, front);
    }
  }

  lemma BatchesHead<T>(ops: seq<Op<T>>)
    requires ops != []
    ensures Batches(ops) == (if ops[0].Apply? then [ops[0].batch] else []) + Batches(ops[1..])
    ensures |Batches(ops)| == (if ops[0].Apply? then 1 else 0) + |Batches(ops[1..])|
  {
    assert ops == [ops[0]] + ops[1..];
    BatchesCons(ops[0], ops[1..]);
  }

  lemma DrainOrdered<T>(s: State<T>, reason: Reason)
    requires Ordered(s)
    ensures Ordered(Drain(s, reason))
  {
    if s.pending != [] && !s.cancelled {
      BatchesSnoc(s.applications, Apply(s.pending, reason));
    }
  }

  lemma DrainConserving<T>(s: State<T>, reason: Reason)
    requires Conserving(s)
    ensures Conserving(Drain(s, reason)) && Drain(s, reason).pending == []
  {
    if s.pending != [] {
      FlattenSnoc(s.drained, s.pending);
      assert Flatten(s.drained) + s.pending + s.dropped == (Flatten(s.drained) + s.pending) + [] + s.dropped;
    }
  }

  lemma DrainInv<T>(s: State<T>, reason: Reason)
    requires s.policy.Valid() && Conserving(s) && Ordered(s) && CutWithinBounds(s)
    requires s.pendingBytes == Bytes(s.pending)
    requires s.pending != [] ==> s.policy.Within(|s.pending|, s.pendingBytes)
    requires s.pending == [] ==> !s.timer
    ensures Inv(Drain(s, reason)) && Drain(s, reason).pending == []
  {
    DrainOrdered(s, reason);
    DrainConserving(s, reason);
  }

  lemma StoreConserving<T>(s: State<T>, value: T, size: nat)
    requires Conserving(s) && !s.cancelled && !s.completed
    ensures Conserving(Store(s, value, size))
  {
    var entry := [Entry(s.tickets, value, size)];
    assert Flatten(s.drained) + s.pending + [] + entry == Flatten(s.drained) + (s.pending + entry) + [];
  }

  lemma CutInv<T>(s: State<T>)
    requires s.policy.Valid() && Conserving(s) && Ordered(s) && CutWithinBounds(s)
    requires s.pendingBytes == Bytes(s.pending)
    requires s.policy.Within(|s.pending|, s.pendingBytes)
    requires s.timer ==> s.policy.timed
    ensures Inv(CutOrArm(s))
  {
    if s.policy.Full(|s.pending|, s.pendingBytes) {
      DrainInv(s, if s.policy.CountReached(|s.pending|) then ByCount else ByBytes);
    }
  }

  lemma AdmitInv<T>(s: State<T>, value: T, size: nat)
    requires Inv(s) && !s.cancelled && !s.completed
    requires s.policy.maxBytes.Some? ==> size <= s.policy.maxBytes.value
    requires !s.policy.Overflows(|s.pending|, s.pendingBytes, size)
    ensures Inv(CutOrArm(Store(s, value, size)))
  {
    StoreConserving(s, value, size);
    BytesSnoc(s.pending, Entry(s.tickets, value, size));
    CutInv(Store(s, value, size));
  }

  lemma RefuseInv<T>(s: State<T>)
    requires Inv(s)
    ensures Inv(Refuse(s))
  {
    hide Conserving, Ordered, Buffered, CutWithinBounds;
    SameBuffers(s, Refuse(s));
    SameChain(s, Refuse(s));
  }

  lemma SameChain<T>(s: State<T>, t: State<T>)
    requires t.drained == s.drained && t.finished == s.finished && t.applications == s.applications
    ensures Ordered(s) ==> Ordered(t)
  {
    hide Batches;
  }

  /** The buffer can be cut at any time, and is then empty. */
  lemma CutNow<T>(s: State<T>)
    requires Inv(s) && !s.cancelled
    ensures
      var t := Drain(s, ByBytes);
      && Inv(t) && !t.cancelled && t.completed == s.completed && t.policy == s.policy
      && t.pending == [] && t.tickets == s.tickets
  {
    DrainInv(s, ByBytes);
    hide Inv;
  }

  lemma AddInv<T>(s: State<T>, value: T, measure: Measure)
    requires Inv(s)
    ensures Inv(Add(s, value, measure))
  {
    hide Inv, Drain, Store, CutOrArm;
    var admission := Admit(s.policy, measure);
    if s.cancelled || s.completed || !admission.Admitted? {
      RefuseInv(s);
    } else if s.policy.Overflows(|s.pending|, s.pendingBytes, admission.size) {
      CutNow(s);
      AdmitInv(Drain(s, ByBytes), value, admission.size);
    } else {
      AdmitInv(s, value, admission.size);
    }
  }

  lemma CancelInv<T>(s: State<T>)
    requires Inv(s)
    ensures Inv(Cancel(s))
  {
    if !s.cancelled {
      assert Flatten(s.drained) + s.pending + [] == Flatten(s.drained) + [] + ([] + s.pending);
    }
  }

  lemma RunNextOrdered<T>(s: State<T>, ok: bool)
    requires Ordered(s) && s.applications != []
    ensures Ordered(RunNext(s, ok))
  {
    var head, rest := s.applications[0], s.applications[1..];
    assert s.applications == [head] + rest;
    BatchesCons(head, rest);
    if head.Apply? {
      assert FinishedBatches(RunNext(s, ok).finished) == FinishedBatches(s.finished) + [head.batch];
    }
  }

  lemma RunNextInv<T>(s: State<T>, ok: bool)
    requires Inv(s)
    ensures Inv(RunNext(s, ok))
  {
    if s.applications != [] {
      RunNextOrdered(s, ok);
      RunNextBuffers(s, ok);
      hide Ordered, Conserving, Buffered, CutWithinBounds, RunNext;
      SameBuffers(s, RunNext(s, ok));
    }
  }

  lemma RunNextBuffers<T>(s: State<T>, ok: bool)
    ensures
      var t := RunNext(s, ok);
      && t.policy == s.policy && t.pending == s.pending && t.pendingBytes == s.pendingBytes && t.timer == s.timer
      && t.cancelled == s.cancelled && t.completed == s.completed
      && t.accepted == s.accepted && t.drained == s.drained && t.dropped == s.dropped
  {
    hide Settle;
  }

  lemma SameBuffers<T>(s: State<T>, t: State<T>)
    requires t.policy == s.policy && t.pending == s.pending && t.pendingBytes == s.pendingBytes && t.timer == s.timer
    requires t.cancelled == s.cancelled && t.completed == s.completed
    requires t.accepted == s.accepted && t.drained == s.drained && t.dropped == s.dropped
    ensures Conserving(s) ==> Conserving(t)
    ensures Buffered(s) ==> Buffered(t)
    ensures CutWithinBounds(s) ==> CutWithinBounds(t)
  {
    hide Flatten, Bytes, Bounded;
  }

  lemma TimerInv<T>(s: State<T>)
    requires Inv(s)
    ensures Inv(TimerFires(s))
  {
    if s.timer {
      DrainInv(s.(timer := false), ByTime);
    }
  }

  lemma CompleteInv<T>(s: State<T>)
    requires Inv(s)
    ensures Inv(Complete(s))
  {
    if !s.cancelled && !s.completed {
      var drained := Drain(s, ByCompletion);
      DrainInv(s, ByCompletion);
      assert Complete(s) == drained.(completed := true);
    }
  }

  lemma RegisterInv<T>(s: State<T>, commit: nat)
    requires Inv(s)
    ensures Inv(Register(s, commit))
  {
    BatchesSnoc(s.applications, Barrier(commit));
  }

  lemma StepInv<T>(s: State<T>, event: Event<T>)
    requires Inv(s)
    ensures Inv(Step(s, event))
  {
    match event {
      case Adding(value, measure) => AddInv(s, value, measure);
      case TimerFiring => TimerInv(s);
      case Flushing => DrainInv(s, ByHand);
      case Completing => CompleteInv(s);
      case Cancelling => CancelInv(s);
      case Registering(commit) => RegisterInv(s, commit);
      case Running(ok) => RunNextInv(s, ok);
    }
  }

  /** Every reachable coordinator keeps its bounds, its order and its accounts. */
  lemma {:induction false} RunInv<T>(s: State<T>, events: seq<Event<T>>)
    requires Inv(s)
    ensures Inv(Run(s, events))
    decreases |events|
  {
    if events != [] {
      RunInv(s, events[..|events| - 1]);
      StepInv(Run(s, events[..|events| - 1]), events[|events| - 1]);
    }
  }

  lemma InitialInv<T>(policy: Policy)
    requires policy.Valid()
    ensures Inv<T>(Initial(policy))
  {
  }

  /** `t` continues `s` without applying another batch. */
  ghost predicate Blocked<T>(s: State<T>, t: State<T>) {
    && t.barrierFailed
    && s.finished <= t.finished
    && forall i :: |s.finished| <= i < |t.finished| ==> !t.finished[i].applied
  }

  lemma StepBlocked<T>(s: State<T>, event: Event<T>)
    requires s.barrierFailed
    ensures Step(s, event).barrierFailed
    ensures Step(s, event).finished == s.finished
         || exists batch :: Step(s, event).finished == s.finished + [Outcome(batch, false)]
  {
  }

  /** Once the commit behind a barrier has failed, whatever happens next applies no further batch. */
  lemma {:induction false} FailedBarrierBlocks<T>(s: State<T>, events: seq<Event<T>>)
    requires s.barrierFailed
    ensures Blocked(s, Run(s, events))
    decreases |events|
  {
    if events != [] {
      FailedBarrierBlocks(s, events[..|events| - 1]);
      StepBlocked(Run(s, events[..|events| - 1]), events[|events| - 1]);
    }
  }

  /** Over every run, from the moment when a commit that the chain waits for has failed, no batch is applied. */
  lemma FailedCommitBlocks<T>(s: State<T>, events: seq<Event<T>>)
    requires s.applications != [] && s.applications[0].Barrier?
    ensures Blocked(Step(s, Running(false)), Run(Step(s, Running(false)), events))
    ensures Step(s, Running(true)) == s.(applications := s.applications[1..])
  {
    FailedBarrierBlocks(Step(s, Running(false)), events);
  }
}
