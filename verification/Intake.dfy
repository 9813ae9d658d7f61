/**
 One attempt of the ordered, batched consumer: the intake loop, its batch coordinator, the chain of commits
 that follows delivery order, and the barriers that tie the two together.

 Deliveries are named by their position in the retained, matching part of the stream. Promise continuations
 are steps: a step of the application chain, of the commit chain, or of the suspended intake loop.
 */
module Intake {
  import opened Batching

  /** Where the intake loop is suspended. A commit is named by how many positions it brings the cursor to. */
  datatype Place =
    | Pulling
      /** Waiting for `commit`, and, when `chain` is set, for the barrier in the application chain as well. */
    | Waiting(commit: nat, chain: bool)
      /** Waiting for the flush after the last initial delivery. */
    | FlushingReplay(commit: nat)
      /** The loop ended; waiting for the last flush, then for the last commit. */
    | FlushingTail
    | WaitingTail
      /** The catch block; `infrastructure` tells a transport failure from an application failure. */
    | Unwinding(infrastructure: bool)

  datatype Lease = Lease(
    base: nat,
    initialEnd: nat,
    pulled: nat,
    committed: nat,
    batcher: State<nat>,
    place: Place,
    applicationFailed: bool)

  function Open(policy: Policy, base: nat, end: nat): Lease {
    Lease(base, end, base, base, Batching.Initial(policy), Pulling, false)
  }

  predicate Backpressure(b: State<nat>) {
    Batches(b.applications) != []
  }

  predicate CanPull(l: Lease) {
    l.place.Pulling? && !l.applicationFailed
  }

  /** Takes the next delivery and hands it to the coordinator. */
  function Pull(l: Lease, measure: Measure): Lease
    requires CanPull(l)
  {
    AfterAdd(l, Batching.Add(l.batcher, l.pulled, measure))
  }

  /** After the last initial delivery the loop flushes; otherwise it registers a barrier when the chain is busy. */
  function AfterAdd(l: Lease, b: State<nat>): Lease {
    var next := l.(pulled := l.pulled + 1);
    if l.pulled + 1 == l.initialEnd then
      next.(batcher := Drain(b, ByHand), place := FlushingReplay(l.pulled + 1))
    else if Backpressure(b) then
      var commit := if b.pending == [] then l.pulled + 1 else l.pulled;
      next.(batcher := Register(b, commit), place := Waiting(commit, true))
    else
      next.(batcher := b)
  }

  function FireTimer(l: Lease): Lease {
    l.(batcher := Batching.TimerFires(l.batcher))
  }

  predicate Resolved(l: Lease, position: nat) {
    l.base <= position && Settlement(position - l.base, true) in l.batcher.settled
  }

  predicate Rejected(l: Lease, position: nat) {
    l.base <= position && Settlement(position - l.base, false) in l.batcher.settled
  }

  predicate CanCommit(l: Lease) {
    l.committed < l.pulled && (Resolved(l, l.committed) || Rejected(l, l.committed))
  }

  /** The next commit runs: a rejected delivery records the application failure and closes the messages. */
  function Commit(l: Lease): Lease
    requires CanCommit(l)
  {
    l.(committed := l.committed + 1,
       applicationFailed := l.applicationFailed || !Resolved(l, l.committed))
  }

  predicate CanRun(l: Lease) {
    var ops := l.batcher.applications;
    ops != [] && (ops[0].Barrier? ==> ops[0].commit <= l.committed)
  }

  predicate HeadSucceeds(l: Lease, ok: bool)
    requires CanRun(l)
  {
    match l.batcher.applications[0]
    case Apply(_, _) => ok && !l.batcher.barrierFailed
    case Barrier(commit) => commit <= l.base || Resolved(l, commit - 1)
  }

  /** The batch that leaves the chain applied, if any. */
  function AppliedBatch(l: Lease, ok: bool): seq<Entry<nat>>
    requires CanRun(l)
  {
    var head := l.batcher.applications[0];
    if head.Apply? && HeadSucceeds(l, ok) then head.batch else []
  }

  /** The head of the application chain finishes; a failing batch closes the messages in the same step. */
  function RunHead(l: Lease, ok: bool): Lease
    requires CanRun(l)
  {
    var succeeds := HeadSucceeds(l, ok);
    l.(batcher := Batching.RunNext(l.batcher, succeeds),
       applicationFailed := l.applicationFailed || !succeeds)
  }

  predicate HasBarrier(ops: seq<Op<nat>>) {
    exists i :: 0 <= i < |ops| && ops[i].Barrier?
  }

  predicate CanResume(l: Lease) {
    match l.place
    case Pulling => false
    case Waiting(commit, chain) => commit <= l.committed && (chain ==> !HasBarrier(l.batcher.applications))
    case FlushingReplay(_) => !Backpressure(l.batcher)
    case FlushingTail => !Backpressure(l.batcher)
    case WaitingTail => l.pulled <= l.committed
    case Unwinding(_) => false
  }

  function Unwind(l: Lease, infrastructure: bool): Lease {
    l.(batcher := Batching.Cancel(l.batcher), place := Unwinding(infrastructure))
  }

  /** The suspended intake loop continues. */
  function Resume(l: Lease): Lease
    requires CanResume(l)
  {
    match l.place
    case Waiting(_, _) =>
      if l.applicationFailed then Unwind(l, false) else l.(place := Pulling)
    case FlushingReplay(commit) =>
      l.(batcher := Register(l.batcher, commit), place := Waiting(commit, false))
    case FlushingTail =>
      l.(batcher := Register(l.batcher, l.pulled), place := WaitingTail)
    case WaitingTail =>
      Unwind(l, !l.applicationFailed)
  }

  /** The message iterator ends: closed by an application failure, or by the transport. */
  function End(l: Lease): Lease
    requires l.place.Pulling?
  {
    l.(batcher := Drain(l.batcher, ByHand), place := FlushingTail)
  }

  /** The message iterator throws. */
  function TransportFails(l: Lease): Lease
    requires CanPull(l)
  {
    Unwind(l, true)
  }

  /** The catch block has waited for the application chain and the commit chain. */
  predicate Closed(l: Lease) {
    l.place.Unwinding? && l.batcher.applications == [] && l.committed == l.pulled
  }

  datatype Turn =
    | Pulls(measure: Measure)
    | Ticks
    | Runs(ok: bool)
    | Commits
    | Resumes
    | Ends
    | Breaks

  predicate Enabled(l: Lease, turn: Turn) {
    match turn
    case Pulls(_) => CanPull(l)
    case Ticks => l.batcher.timer
    case Runs(_) => CanRun(l)
    case Commits => CanCommit(l)
    case Resumes => CanResume(l)
    case Ends => l.place.Pulling?
    case Breaks => CanPull(l)
  }

  function Take(l: Lease, turn: Turn): Lease
    requires Enabled(l, turn)
  {
    match turn
    case Pulls(measure) => Pull(l, measure)
    case Ticks => FireTimer(l)
    case Runs(ok) => RunHead(l, ok)
    case Commits => Commit(l)
    case Resumes => Resume(l)
    case Ends => End(l)
    case Breaks => TransportFails(l)
  }

  // ---------------------------------------------------------------------------------------------
  // Load: how many batches are unfinished, the partial buffer counting as one
  // ---------------------------------------------------------------------------------------------

  function Load(b: State<nat>): nat {
    |Batches(b.applications)| + if b.pending == [] then 0 else 1
  }

  /** The part of the chain behind the last barrier. */
  function Behind(ops: seq<Op<nat>>): seq<Op<nat>> {
    if ops == [] || ops[|ops| - 1].Barrier? then []
    else Behind(ops[..|ops| - 1]) + [ops[|ops| - 1]]
  }

  function LoadBehind(b: State<nat>): nat {
    |Batches(Behind(b.applications))| + if b.pending == [] then 0 else 1
  }

  /** Some batch left the chain without being applied. */
  predicate Spoiled(b: State<nat>) {
    exists i :: 0 <= i < |b.finished| && !b.finished[i].applied
  }

  /** What backpressure buys: at each pull at most one batch is unfinished, and then nothing is buffered. */
  predicate Paced(l: Lease) {
    && Load(l.batcher) <= 2
    && (Spoiled(l.batcher) ==> l.applicationFailed)
    && match l.place
       case Waiting(_, chain) =>
         if chain then LoadBehind(l.batcher) <= 1 else Load(l.batcher) == 0
       case FlushingReplay(_) => l.batcher.pending == []
       case Unwinding(false) => l.batcher.pending == []
       case _ =>
         && Load(l.batcher) <= 1
         && (Spoiled(l.batcher) ==> Load(l.batcher) == 0)
         && (!l.place.Pulling? ==> l.batcher.pending == [])
  }

  /** Only the catch block cancels the coordinator; intake never completes it. */
  predicate Shaped(l: Lease) {
    && (l.batcher.cancelled <==> l.place.Unwinding?)
    && !l.batcher.completed
    && (l.batcher.cancelled ==> l.batcher.pending == [])
  }

  lemma BehindSnoc(ops: seq<Op<nat>>, op: Op<nat>)
    ensures Behind(ops + [op]) == if op.Apply? then Behind(ops) + [op] else []
  {
    assert (ops + [op])[..|ops|] == ops;
  }

  lemma BatchesBehindSnoc(ops: seq<Op<nat>>, op: Op<nat>)
    requires op.Apply?
    ensures |Batches(ops + [op])| == |Batches(ops)| + 1
    ensures |Batches(Behind(ops + [op]))| == |Batches(Behind(ops))| + 1
  {
    BatchesSnoc(ops, op);
    BehindSnoc(ops, op);
    BatchesSnoc(Behind(ops), op);
  }

  lemma DrainLoad(b: State<nat>, reason: Reason)
    requires !b.cancelled
    ensures Load(Drain(b, reason)) == Load(b) && Drain(b, reason).pending == []
    ensures LoadBehind(Drain(b, reason)) == LoadBehind(b)
  {
    if b.pending != [] {
      BatchesBehindSnoc(b.applications, Apply(b.pending, reason));
    }
  }

  /** `c` continues `b` without finishing a batch. */
  predicate SameRun(b: State<nat>, c: State<nat>) {
    c.finished == b.finished && c.cancelled == b.cancelled && c.completed == b.completed
  }

  lemma CutLoad(b: State<nat>)
    requires !b.cancelled
    ensures Load(CutOrArm(b)) == Load(b) && SameRun(b, CutOrArm(b))
  {
    DrainLoad(b, if b.policy.CountReached(|b.pending|) then ByCount else ByBytes);
  }

  lemma AddLoad(b: State<nat>, value: nat, measure: Measure)
    requires !b.cancelled && !b.completed
    ensures Load(Batching.Add(b, value, measure)) <= Load(b) + 1
    ensures SameRun(b, Batching.Add(b, value, measure))
  {
    var admission := Admit(b.policy, measure);
    if admission.Admitted? {
      DrainLoad(b, ByBytes);
      var room := if b.policy.Overflows(|b.pending|, b.pendingBytes, admission.size) then Drain(b, ByBytes) else b;
      CutLoad(Store(room, value, admission.size));
    }
  }

  lemma RegisterLoad(b: State<nat>, commit: nat)
    ensures Load(Register(b, commit)) == Load(b)
    ensures LoadBehind(Register(b, commit)) == if b.pending == [] then 0 else 1
  {
    BatchesSnoc(b.applications, Barrier(commit));
  }

  lemma {:induction false} BehindRest(ops: seq<Op<nat>>)
    requires ops != []
    ensures |Batches(Behind(ops[1..]))| <= |Batches(Behind(ops))|
    decreases |ops|
  {
    var front, last := ops[..|ops| - 1], ops[|ops| - 1];
    if last.Apply? {
      BatchesSnoc(Behind(front), last);
      if |ops| == 1 {
        assert ops[1..] == [];
      } else {
        assert ops[1..][..|ops| - 2] == front[1..] && ops[1..][|ops| - 2] == last;
        BehindRest(front);
        BatchesSnoc(Behind(front[1..]), last);
      }
    } else if |ops| > 1 {
      assert ops[1..][|ops| - 2] == last;
    }
  }

  lemma {:induction false} NothingBehind(ops: seq<Op<nat>>)
    requires !HasBarrier(ops)
    ensures Behind(ops) == ops
    decreases |ops|
  {
    if ops != [] {
      assert !ops[|ops| - 1].Barrier?;
      var front := ops[..|ops| - 1];
      assert forall i :: 0 <= i < |front| ==> front[i] == ops[i];
      NothingBehind(front);
    }
  }

  lemma RunLoad(b: State<nat>, ok: bool)
    requires b.applications != []
    ensures Load(RunNext(b, ok)) == Load(b) - if b.applications[0].Apply? then 1 else 0
    ensures LoadBehind(RunNext(b, ok)) <= LoadBehind(b)
  {
    BatchesHead(b.applications);
    BehindRest(b.applications);
    RunNextRest(b, ok);
    hide RunNext, Batches, Behind;
  }

  lemma RunNextRest(b: State<nat>, ok: bool)
    requires b.applications != []
    ensures RunNext(b, ok).applications == b.applications[1..] && RunNext(b, ok).pending == b.pending
  {
  }

  lemma AfterAddPaced(l: Lease, b: State<nat>)
    requires l.place.Pulling? && Load(b) <= 2 && !Spoiled(b) && !b.cancelled && !b.completed
    ensures Paced(AfterAdd(l, b)) && Shaped(AfterAdd(l, b))
  {
    hide Batches, Behind;
    if l.pulled + 1 == l.initialEnd {
      DrainLoad(b, ByHand);
      assert !Spoiled(Drain(b, ByHand));
    } else if Backpressure(b) {
      var commit := if b.pending == [] then l.pulled + 1 else l.pulled;
      RegisterLoad(b, commit);
      assert !Spoiled(Register(b, commit));
    }
  }

  lemma PullPaced(l: Lease, measure: Measure)
    requires CanPull(l) && Shaped(l) && Paced(l)
    ensures Paced(Pull(l, measure)) && Shaped(Pull(l, measure))
  {
    AddLoad(l.batcher, l.pulled, measure);
    AfterAddPaced(l, Batching.Add(l.batcher, l.pulled, measure));
  }

  lemma TimerPaced(l: Lease)
    requires l.batcher.timer && Shaped(l) && Paced(l)
    ensures Paced(FireTimer(l)) && Shaped(FireTimer(l))
  {
    if !l.batcher.cancelled {
      DrainLoad(l.batcher.(timer := false), ByTime);
    }
    assert FireTimer(l).batcher.finished == l.batcher.finished;
  }

  lemma RunPaced(l: Lease, ok: bool)
    requires CanRun(l) && Shaped(l) && Paced(l)
    ensures Paced(RunHead(l, ok)) && Shaped(RunHead(l, ok))
  {
    var b, succeeds := l.batcher, HeadSucceeds(l, ok);
    var c := RunNext(b, succeeds);
    RunLoad(b, succeeds);
    if Spoiled(c) && !Spoiled(b) {
      var i :| 0 <= i < |c.finished| && !c.finished[i].applied;
      assert i == |b.finished|;
    }
    if Spoiled(b) {
      assert Spoiled(c) by {
        var i :| 0 <= i < |b.finished| && !b.finished[i].applied;
        assert c.finished[i] == b.finished[i];
      }
    }
  }

  lemma CommitPaced(l: Lease)
    requires CanCommit(l) && Shaped(l) && Paced(l)
    ensures Paced(Commit(l)) && Shaped(Commit(l))
  {
  }

  lemma UnwindPaced(l: Lease, infrastructure: bool)
    requires Shaped(l) && !l.place.Unwinding? && Load(l.batcher) <= 2
    requires Spoiled(l.batcher) ==> l.applicationFailed
    requires infrastructure ==> Load(l.batcher) <= 1 && (Spoiled(l.batcher) ==> Load(l.batcher) == 0)
    ensures Paced(Unwind(l, infrastructure)) && Shaped(Unwind(l, infrastructure))
  {
    assert Batching.Cancel(l.batcher).finished == l.batcher.finished;
  }

  lemma ResumePaced(l: Lease)
    requires CanResume(l) && Shaped(l) && Paced(l)
    ensures Paced(Resume(l)) && Shaped(Resume(l))
  {
    match l.place {
      case Waiting(_, chain) =>
        if l.applicationFailed {
          UnwindPaced(l, false);
        } else if chain {
          NothingBehind(l.batcher.applications);
        }
      case FlushingReplay(commit) => RegisterLoad(l.batcher, commit);
      case FlushingTail => RegisterLoad(l.batcher, l.pulled);
      case WaitingTail => UnwindPaced(l, !l.applicationFailed);
    }
  }

  lemma StepPaced(l: Lease, turn: Turn)
    requires Enabled(l, turn) && Shaped(l) && Paced(l)
    ensures Paced(Take(l, turn)) && Shaped(Take(l, turn))
  {
    match turn {
      case Pulls(measure) => PullPaced(l, measure);
      case Ticks => TimerPaced(l);
      case Runs(ok) => RunPaced(l, ok);
      case Commits => CommitPaced(l);
      case Resumes => ResumePaced(l);
      case Ends =>
        DrainLoad(l.batcher, ByHand);
        assert Drain(l.batcher, ByHand).finished == l.batcher.finished;
      case Breaks => UnwindPaced(l, true);
    }
  }
}
