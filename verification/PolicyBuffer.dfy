/** The RxJS form of the batch policy: count, byte and time bookkeeping over storage that the operator owns. */
module PolicyBuffer {
  import opened Batching

  /** The buffer, the operator's array behind it, and the arrays handed downstream. */
  datatype Buffer<T> = Buffer(
    policy: Policy, items: nat, bytes: nat, timer: bool, cancelled: bool, stored: seq<T>, emitted: seq<seq<T>>)

  function Empty<T>(policy: Policy): Buffer<T> {
    Buffer(policy, 0, 0, false, false, [], [])
  }

  function Emitting<T>(b: Buffer<T>): Buffer<T> {
    if b.items == 0 then b.(timer := false)
    else b.(timer := false, items := 0, bytes := 0, emitted := b.emitted + [b.stored], stored := [])
  }

  /** Cancelling drops the bookkeeping and, with it, the operator's array. */
  function Cancelled<T>(b: Buffer<T>): Buffer<T> {
    b.(cancelled := true, timer := false, items := 0, bytes := 0, stored := [])
  }

  function Stored<T>(b: Buffer<T>, value: T, size: nat): Buffer<T> {
    var grown := b.(stored := b.stored + [value], items := b.items + 1, bytes := b.bytes + size);
    if b.policy.Full(grown.items, grown.bytes) then Emitting(grown)
    else grown.(timer := grown.timer || b.policy.timed)
  }

  /**
   Adds a value; a bad size errors the stream and drops the buffer. `leaves` says that the subscriber unsubscribes
   when it is handed the batch cut to make room.
   */
  function AddValue<T>(b: Buffer<T>, value: T, measure: Measure, leaves: bool): Buffer<T> {
    match Admit(b.policy, measure)
    case Admitted(size) =>
      if b.policy.Overflows(b.items, b.bytes, size) then
        if leaves then Cancelled(Emitting(b)) else Stored(Emitting(b), value, size)
      else Stored(b, value, size)
    case _ => Cancelled(b)
  }

  function FireTimer<T>(b: Buffer<T>): Buffer<T> {
    if b.timer then Emitting(b) else b
  }

  /**
   A value ends the stream early exactly if its size is invalid, or the subscriber leaves during the cut that makes
   room for it. Nothing is then stored or timed, and nothing was handed on but what that cut handed on.
   */
  lemma EndsEarlyIff<T>(b: Buffer<T>, value: T, measure: Measure, leaves: bool)
    requires !b.cancelled && b.items == |b.stored|
    ensures
      var r, limit := AddValue(b, value, measure, leaves), b.policy.maxBytes;
      var valid := limit.None? || (measure.Size? && 0 <= measure.bytes <= limit.value);
      var cut := valid && limit.Some? && b.stored != [] && limit.value < b.bytes + measure.bytes;
      && (r.cancelled <==> !valid || (cut && leaves))
      && (r.cancelled ==>
            && r.stored == [] && r.items == 0 && r.bytes == 0 && !r.timer
            && r.emitted == b.emitted + (if cut then [b.stored] else []))
  {
    assert b.emitted + [] == b.emitted;
  }

  /** A flush hands on what is stored, if anything is, and leaves no timer; a timer that fires does the same. */
  lemma FlushEmpties<T>(b: Buffer<T>)
    requires b.items == |b.stored|
    ensures
      var r := Emitting(b);
      && !r.timer && r.stored == [] && r.items == 0
      && r.emitted == b.emitted + (if b.stored == [] then [] else [b.stored])
    ensures FireTimer(b) == if b.timer then Emitting(b) else b
  {
    assert b.emitted + [] == b.emitted;
  }

  // ---------------------------------------------------------------------------------------------
  // The same batches as the core coordinator
  // ---------------------------------------------------------------------------------------------

  function Values<T>(batch: seq<Entry<T>>): (r: seq<T>)
    ensures |r| == |batch|
  {
    seq(|batch|, i requires 0 <= i < |batch| => batch[i].value)
  }

  function AllValues<T>(batches: seq<seq<Entry<T>>>): (r: seq<seq<T>>)
    ensures |r| == |batches|
  {
    seq(|batches|, i requires 0 <= i < |batches| => Values(batches[i]))
  }

  /** An event on which the two forms are meant to agree: a value of valid size, a timer, a flush, or chain work. */
  predicate Shared<T>(policy: Policy, event: Event<T>) {
    match event
    case Adding(_, measure) => Admit(policy, measure).Admitted?
    case TimerFiring => true
    case Flushing => true
    case Registering(_) => true
    case Running(_) => true
    case _ => false
  }

  function BufferStep<T>(b: Buffer<T>, event: Event<T>): Buffer<T> {
    match event
    case Adding(value, measure) => AddValue(b, value, measure, false)
    case TimerFiring => FireTimer(b)
    case Flushing => Emitting(b)
    case _ => b
  }

  function BufferRun<T>(b: Buffer<T>, events: seq<Event<T>>): Buffer<T> {
    if events == [] then b else BufferStep(BufferRun(b, events[..|events| - 1]), events[|events| - 1])
  }

  /** The buffer and the coordinator hold the same values and have cut the same batches. */
  ghost predicate Agree<T>(b: Buffer<T>, s: State<T>) {
    && b.policy == s.policy && b.items == |b.stored| && !b.cancelled && !s.cancelled && !s.completed
    && b.stored == Values(s.pending) && b.bytes == s.pendingBytes
    && b.timer == s.timer && (s.timer ==> s.pending != [])
    && b.emitted == AllValues(s.drained)
  }

  lemma ValuesSnoc<T>(batch: seq<Entry<T>>, entry: Entry<T>)
    ensures Values(batch + [entry]) == Values(batch) + [entry.value]
  {
  }

  lemma AllValuesSnoc<T>(batches: seq<seq<Entry<T>>>, batch: seq<Entry<T>>)
    ensures AllValues(batches + [batch]) == AllValues(batches) + [Values(batch)]
  {
  }

  lemma EmittingAgrees<T>(b: Buffer<T>, s: State<T>, reason: Reason)
    requires Agree(b, s)
    ensures Agree(Emitting(b), Drain(s, reason)) && !Emitting(b).timer
  {
    if s.pending != [] {
      AllValuesSnoc(s.drained, s.pending);
    }
  }

  lemma GrownAgrees<T>(b: Buffer<T>, s: State<T>, value: T, size: nat)
    requires Agree(b, s)
    ensures Agree(b.(stored := b.stored + [value], items := b.items + 1, bytes := b.bytes + size),
                  Store(s, value, size))
  {
    ValuesSnoc(s.pending, Entry(s.tickets, value, size));
    hide Values, AllValues;
  }

  lemma StoredAgrees<T>(b: Buffer<T>, s: State<T>, value: T, size: nat)
    requires Agree(b, s)
    ensures Agree(Stored(b, value, size), CutOrArm(Store(s, value, size)))
  {
    GrownAgrees(b, s, value, size);
    var grown := b.(stored := b.stored + [value], items := b.items + 1, bytes := b.bytes + size);
    var next := Store(s, value, size);
    assert next.pending != [] && grown.items == |next.pending|;
    hide Values, AllValues, Store;
    if s.policy.Full(|next.pending|, next.pendingBytes) {
      EmittingAgrees(grown, next, if s.policy.CountReached(|next.pending|) then ByCount else ByBytes);
    }
  }

  lemma StepAgrees<T>(b: Buffer<T>, s: State<T>, event: Event<T>)
    requires Agree(b, s) && Shared(s.policy, event)
    ensures Agree(BufferStep(b, event), Batching.Step(s, event))
  {
    hide Values, AllValues;
    match event {
      case Adding(value, measure) =>
        var size := Admit(s.policy, measure).size;
        assert b.items == |s.pending|;
        hide Stored, CutOrArm, Store;
        if s.policy.Overflows(|s.pending|, s.pendingBytes, size) {
          EmittingAgrees(b, s, ByBytes);
          StoredAgrees(Emitting(b), Drain(s, ByBytes), value, size);
        } else {
          StoredAgrees(b, s, value, size);
        }
      case TimerFiring =>
        if s.timer {
          EmittingAgrees(b.(timer := false), s.(timer := false), ByTime);
        }
      case Flushing => EmittingAgrees(b, s, ByHand);
      case Registering(commit) =>
      case Running(ok) =>
    }
  }

  lemma StepPolicy<T>(b: Buffer<T>, event: Event<T>)
    ensures BufferStep(b, event).policy == b.policy
  {
  }

  lemma AgreePolicy<T>(b: Buffer<T>, s: State<T>)
    requires Agree(b, s)
    ensures b.policy == s.policy
  {
  }

  lemma EmptyAgrees<T>(policy: Policy)
    ensures Agree(Empty<T>(policy), Initial<T>(policy))
  {
    assert AllValues<T>([]) == [] && Values<T>([]) == [];
  }

  lemma {:induction false} RunAgrees<T>(policy: Policy, events: seq<Event<T>>)
    requires forall i :: 0 <= i < |events| ==> Shared(policy, events[i])
    ensures Agree(BufferRun(Empty(policy), events), Batching.Run(Initial(policy), events))
    ensures BufferRun(Empty(policy), events).policy == policy
    decreases |events|
  {
    hide Agree, BufferStep, Batching.Step, Shared;
    if events == [] {
      EmptyAgrees<T>(policy);
    } else {
      var front, last := events[..|events| - 1], events[|events| - 1];
      RunAgrees(policy, front);
      AgreePolicy(BufferRun(Empty(policy), front), Batching.Run(Initial(policy), front));
      StepAgrees(BufferRun(Empty(policy), front), Batching.Run(Initial(policy), front), last);
      StepPolicy(BufferRun(Empty(policy), front), last);
    }
  }

  lemma AgreeBatches<T>(b: Buffer<T>, s: State<T>)
    requires Agree(b, s)
    ensures b.emitted == AllValues(s.drained) && b.stored == Values(s.pending)
  {
    hide Values, AllValues;
  }

  /**
   For every trace of valid adds, timer firings and flushes, with chain work in between, the buffer hands on exactly
   the batches that the coordinator cuts, and so does the final flush of one and the completion of the other.
   */
  lemma SameBatches<T>(policy: Policy, events: seq<Event<T>>)
    requires forall i :: 0 <= i < |events| ==> Shared(policy, events[i])
    ensures
      var b, s := BufferRun(Empty(policy), events), Batching.Run(Initial(policy), events);
      && b.emitted == AllValues(s.drained) && b.stored == Values(s.pending)
      && Emitting(b).emitted == AllValues(Complete(s).drained)
  {
    var b, s := BufferRun(Empty(policy), events), Batching.Run(Initial(policy), events);
    RunAgrees(policy, events);
    hide BufferRun, Batching.Run;
    AgreeBatches(b, s);
    EmittingAgrees(b, s, ByCompletion);
    AgreeBatches(Emitting(b), Drain(s, ByCompletion));
    assert Complete(s).drained == Drain(s, ByCompletion).drained by {
      hide AllValues, Values;
    }
  }

  // ---------------------------------------------------------------------------------------------
  // The buffer object
  // ---------------------------------------------------------------------------------------------

  class Operator<T> {
    const policy: Policy
    var pendingItems: nat
    var pendingBytes: nat
    var timer: bool
    var cancelled: bool
    var pending: seq<T>
    var emitted: seq<seq<T>>

    constructor (policy: Policy)
      ensures View() == Empty(policy)
    {
      this.policy, pendingItems, pendingBytes, timer, cancelled := policy, 0, 0, false, false;
      pending, emitted := [], [];
    }

    function View(): Buffer<T>
      reads this
    {
      Buffer(policy, pendingItems, pendingBytes, timer, cancelled, pending, emitted)
    }

    method Flush()
      modifies this
      ensures View() == Emitting(old(View()))
    {
      timer := false;
      if pendingItems == 0 {
        return;
      }
      pendingItems, pendingBytes := 0, 0;
      var batch := pending;
      pending := [];
      emitted := emitted + [batch];
    }

    method Cancel()
      modifies this
      ensures View() == Cancelled(old(View()))
    {
      cancelled, timer, pendingItems, pendingBytes, pending := true, false, 0, 0, [];
    }

    method Next(value: T, measure: Measure, leaves: bool) returns (failed: bool)
      requires !cancelled
      modifies this
      ensures failed == !Admit(policy, measure).Admitted?
      ensures View() == AddValue(old(View()), value, measure, leaves)
    {
      var size := 0;
      if policy.maxBytes.Some? {
        if measure.Unmeasurable? || measure.bytes < 0 || policy.maxBytes.value < measure.bytes {
          Cancel();
          return true;
        }
        size := measure.bytes;
        if 0 < pendingItems && policy.maxBytes.value < pendingBytes + size {
          Flush();
          if leaves {
            Cancel();
          }
          if cancelled {
            return false;
          }
        }
      }
      pending := pending + [value];
      pendingItems := pendingItems + 1;
      pendingBytes := pendingBytes + size;
      if (policy.maxItems.Some? && policy.maxItems.value <= pendingItems)
         || (policy.maxBytes.Some? && policy.maxBytes.value <= pendingBytes)
      {
        Flush();
      } else if !timer && policy.timed {
        timer := true;
      }
      return false;
    }

    method TimerElapsed()
      modifies this
      ensures View() == FireTimer(old(View()))
    {
      if timer {
        Flush();
      }
    }
  }
}
