/**
 Coalescing of cumulative states: phase changes pass at once, later live states share a window of which only the
 latest is emitted. The RxJS operator cuts windows with the shared batch policy, the Effect one by time alone.
 A state is named by its position in the input.
 */
module Coalescing {
  import opened Prelude
  import opened Batching
  import opened PolicyBuffer

  datatype Signal =
      /** A state arrives; `measure` is its size under the window's policy. */
    | Arrives(live: bool, measure: Measure)
    | Elapses
    | Completes
    | Errors

  datatype Ending = Ongoing | Completed | Failed

  // ---------------------------------------------------------------------------------------------
  // RxJS
  // ---------------------------------------------------------------------------------------------

  /** `inputs` lists the states seen so far, true for a live one; `out` the positions emitted. */
  datatype Window = Window(
    buffer: Buffer<nat>, seenLive: bool, ending: Ending, inputs: seq<bool>, out: seq<nat>)

  function Open(policy: Policy): Window {
    Window(Empty(policy), false, Ongoing, [], [])
  }

  /** The window emits only the latest value of each batch its buffer cuts. */
  function Latest(batches: seq<seq<nat>>): seq<nat> {
    if batches == [] then []
    else
      var last := batches[|batches| - 1];
      Latest(batches[..|batches| - 1]) + (if last == [] then [] else [last[|last| - 1]])
  }

  function Rebuffer(w: Window, buffer: Buffer<nat>): Window {
    var from := |w.buffer.emitted|;
    w.(buffer := buffer, out := w.out + if from <= |buffer.emitted| then Latest(buffer.emitted[from..]) else [])
  }

  function Flushed(w: Window): Window {
    Rebuffer(w, Emitting(w.buffer))
  }

  function Arrive(w: Window, live: bool, measure: Measure): Window {
    var position, inputs := |w.inputs|, w.inputs + [live];
    if !live then
      var flushed := Flushed(w);
      flushed.(seenLive := false, inputs := inputs, out := flushed.out + [position])
    else if !w.seenLive then w.(seenLive := true, inputs := inputs, out := w.out + [position])
    else
      var added := Rebuffer(w, AddValue(w.buffer, position, measure, false)).(inputs := inputs);
      if Admit(w.buffer.policy, measure).Admitted? then added else added.(ending := Failed)
  }

  function Step(w: Window, signal: Signal): Window {
    if w.ending != Ongoing then w
    else
      match signal
      case Arrives(live, measure) => Arrive(w, live, measure)
      case Elapses => Rebuffer(w, FireTimer(w.buffer))
      case Completes => Flushed(w).(ending := Completed)
      case Errors => w.(buffer := Cancelled(w.buffer), ending := Failed)
  }

  function Run(policy: Policy, signals: seq<Signal>): Window {
    if signals == [] then Open(policy) else Step(Run(policy, signals[..|signals| - 1]), signals[|signals| - 1])
  }

  // ---------------------------------------------------------------------------------------------
  // What has to be emitted
  // ---------------------------------------------------------------------------------------------

  /** A phase change, the first live state after one, or the last live state before one. */
  predicate Essential(inputs: seq<bool>, i: nat)
    requires i < |inputs|
  {
    || !inputs[i]
    || i == 0 || !inputs[i - 1]
    || (i + 1 < |inputs| && !inputs[i + 1])
  }

  ghost predicate Increasing(out: seq<nat>) {
    forall i, j :: 0 <= i < j < |out| ==> out[i] < out[j]
  }

  /** Every essential state below `n` was emitted. */
  ghost predicate Shown(inputs: seq<bool>, out: seq<nat>, n: nat) {
    forall i :: 0 <= i < n && i < |inputs| && Essential(inputs, i) ==> i in out
  }

  ghost predicate Below(out: seq<nat>, n: nat) {
    forall i :: 0 <= i < |out| ==> out[i] < n
  }

  /** The window holds the latest states, all live and none of them the first of their run. */
  ghost predicate Held(inputs: seq<bool>, stored: seq<nat>, from: nat) {
    && from + |stored| == |inputs|
    && (forall i :: 0 <= i < |stored| ==> stored[i] == from + i)
    && (stored != [] ==> 0 < from && inputs[from - 1])
    && (forall i :: from <= i < |inputs| ==> inputs[i])
  }

  /** The states of which nothing is pending have been dealt with, the latest of them by being emitted. */
  ghost predicate Settled(inputs: seq<bool>, out: seq<nat>, stored: seq<nat>, from: nat) {
    && Held(inputs, stored, from)
    && Increasing(out) && Below(out, from) && Shown(inputs, out, from)
    && (stored == [] && 0 < from ==> from - 1 in out)
  }

  ghost predicate Inv(w: Window) {
    && w.buffer.items == |w.buffer.stored|
    && (w.ending == Ongoing ==>
          && !w.buffer.cancelled
          && w.seenLive == (w.inputs != [] && w.inputs[|w.inputs| - 1])
          && |w.buffer.stored| <= |w.inputs|
          && Settled(w.inputs, w.out, w.buffer.stored, |w.inputs| - |w.buffer.stored|))
    && Increasing(w.out) && Below(w.out, |w.inputs|)
    && (w.ending == Completed ==> Shown(w.inputs, w.out, |w.inputs|) && (w.inputs != [] ==> |w.inputs| - 1 in w.out))
  }

  lemma OutSnoc(out: seq<nat>, n: nat, position: nat)
    requires Increasing(out) && Below(out, n) && n <= position
    ensures Increasing(out + [position]) && Below(out + [position], position + 1)
  {
  }

  lemma HeldInessential(inputs: seq<bool>, stored: seq<nat>, from: nat, i: nat)
    requires Held(inputs, stored, from) && stored != [] && from <= i < |inputs|
    ensures !Essential(inputs, i)
  {
    assert inputs[i] && inputs[i - 1];
  }

  lemma NoneHeld(inputs: seq<bool>, stored: seq<nat>, from: nat)
    requires Held(inputs, stored, from) && !(inputs != [] && inputs[|inputs| - 1])
    ensures stored == []
  {
  }

  /** Emitting the latest held state settles all of them. */
  lemma FlushSettles(inputs: seq<bool>, out: seq<nat>, stored: seq<nat>, from: nat)
    requires Settled(inputs, out, stored, from) && stored != []
    ensures Settled(inputs, out + [stored[|stored| - 1]], [], |inputs|)
  {
    var last := stored[|stored| - 1];
    var more := out + [last];
    OutSnoc(out, from, last);
    assert last in more;
    forall i | 0 <= i < |inputs| && Essential(inputs, i)
      ensures i in more
    {
      if i < from {
        assert i in out;
      } else {
        HeldInessential(inputs, stored, from, i);
      }
    }
  }

  /** A state that is emitted at once, with nothing held. */
  lemma EmitSettles(inputs: seq<bool>, out: seq<nat>, live: bool)
    requires Settled(inputs, out, [], |inputs|)
    ensures Settled(inputs + [live], out + [|inputs|], [], |inputs| + 1)
  {
    var all, more := inputs + [live], out + [|inputs|];
    OutSnoc(out, |inputs|, |inputs|);
    assert more[|out|] == |inputs|;
    forall i | 0 <= i < |all| && Essential(all, i)
      ensures i in more
    {
      if i + 1 < |inputs| {
        assert Essential(inputs, i);
      } else if i < |inputs| {
        assert i in out;
      }
    }
  }

  /** A live state that is held back behind another live one. */
  lemma HoldSettles(inputs: seq<bool>, out: seq<nat>, stored: seq<nat>, from: nat)
    requires Settled(inputs, out, stored, from) && inputs != [] && inputs[|inputs| - 1]
    ensures Settled(inputs + [true], out, stored + [|inputs|], from)
  {
    var all := inputs + [true];
    forall i | 0 <= i < from && i < |all| && Essential(all, i)
      ensures i in out
    {
      if i + 1 < |inputs| {
        assert Essential(inputs, i);
      } else {
        assert i == |inputs| - 1;
        assert Essential(all, i) ==> i == 0 || !all[i - 1];
        assert Essential(inputs, i);
      }
    }
  }

  // ---------------------------------------------------------------------------------------------
  // Every signal
  // ---------------------------------------------------------------------------------------------

  lemma {:induction false} LatestConcat(a: seq<seq<nat>>, b: seq<seq<nat>>)
    ensures Latest(a + b) == Latest(a) + Latest(b)
    decreases |b|
  {
    if b == [] {
      assert a + b == a;
    } else {
      assert (a + b)[..|a + b| - 1] == a + b[..|b| - 1];
      LatestConcat(a, b[..|b| - 1]);
    }
  }

  lemma LatestOne(batch: seq<nat>)
    requires batch != []
    ensures Latest([batch]) == [batch[|batch| - 1]]
  {
    assert [batch][..0] == [] && Latest([]) == [];
  }

  lemma RebufferTwice(w: Window, one: Buffer<nat>, two: Buffer<nat>)
    requires w.buffer.emitted <= one.emitted <= two.emitted
    ensures Rebuffer(Rebuffer(w, one), two) == Rebuffer(w, two)
  {
    hide Latest;
    var a, b := one.emitted[|w.buffer.emitted|..], two.emitted[|one.emitted|..];
    assert two.emitted[|w.buffer.emitted|..] == a + b;
    LatestConcat(a, b);
    assert (w.out + Latest(a)) + Latest(b) == w.out + (Latest(a) + Latest(b));
  }

  lemma RebufferSame(w: Window, buffer: Buffer<nat>)
    requires buffer.emitted == w.buffer.emitted
    ensures Rebuffer(w, buffer) == w.(buffer := buffer)
  {
    assert buffer.emitted[|w.buffer.emitted|..] == [];
  }

  lemma FlushedIs(w: Window)
    requires w.buffer.items == |w.buffer.stored|
    ensures
      var stored, r := w.buffer.stored, Flushed(w);
      && r == w.(buffer := Emitting(w.buffer), out := w.out + if stored == [] then [] else [stored[|stored| - 1]])
      && r.buffer.stored == [] && r.buffer.items == 0 && r.buffer.cancelled == w.buffer.cancelled
      && w.buffer.emitted <= r.buffer.emitted
  {
    var emitted := Emitting(w.buffer).emitted;
    if w.buffer.stored == [] {
      assert emitted[|w.buffer.emitted|..] == [];
    } else {
      assert emitted[|w.buffer.emitted|..] == [w.buffer.stored];
      LatestOne(w.buffer.stored);
    }
  }

  lemma FlushInv(w: Window)
    requires Inv(w) && w.ending == Ongoing
    ensures Inv(Flushed(w)) && Flushed(w).buffer.stored == [] && Flushed(w).ending == Ongoing
    ensures Flushed(w).inputs == w.inputs
  {
    hide *;
    OngoingParts(w);
    FlushedIs(w);
    var stored, out := w.buffer.stored, w.out;
    if stored != [] {
      FlushSettles(w.inputs, out, stored, |w.inputs| - |stored|);
    } else {
      assert out + [] == out;
    }
    SettledInv(Flushed(w));
  }

  lemma OngoingParts(w: Window)
    requires Inv(w) && w.ending == Ongoing
    ensures w.buffer.items == |w.buffer.stored| <= |w.inputs| && !w.buffer.cancelled
    ensures w.seenLive == (w.inputs != [] && w.inputs[|w.inputs| - 1])
    ensures Settled(w.inputs, w.out, w.buffer.stored, |w.inputs| - |w.buffer.stored|)
  {
    hide Settled, Increasing, Below;
  }

  lemma SettledInv(w: Window)
    requires w.ending == Ongoing && !w.buffer.cancelled && w.buffer.items == |w.buffer.stored| <= |w.inputs|
    requires w.seenLive == (w.inputs != [] && w.inputs[|w.inputs| - 1])
    requires Settled(w.inputs, w.out, w.buffer.stored, |w.inputs| - |w.buffer.stored|)
    ensures Inv(w)
  {
  }

  lemma PassInv(w: Window, live: bool)
    requires Inv(w) && w.ending == Ongoing && w.buffer.stored == []
    ensures Inv(w.(seenLive := live, inputs := w.inputs + [live], out := w.out + [|w.inputs|]))
  {
    var r := w.(seenLive := live, inputs := w.inputs + [live], out := w.out + [|w.inputs|]);
    EmitSettles(w.inputs, w.out, live);
    hide Settled;
    SettledInv(r);
  }

  /** Holding a value, with the timer in whatever state, before the window is cut. */
  lemma HoldInv(w: Window, buffer: Buffer<nat>)
    requires Inv(w) && w.ending == Ongoing && w.seenLive
    requires buffer.stored == w.buffer.stored + [|w.inputs|] && buffer.items == |buffer.stored| && !buffer.cancelled
    ensures Inv(w.(buffer := buffer, inputs := w.inputs + [true]))
  {
    HoldSettles(w.inputs, w.out, w.buffer.stored, |w.inputs| - |w.buffer.stored|);
    hide Settled;
    SettledInv(w.(buffer := buffer, inputs := w.inputs + [true]));
  }

  function Grown(buffer: Buffer<nat>, position: nat, size: nat): Buffer<nat> {
    buffer.(stored := buffer.stored + [position], items := buffer.items + 1, bytes := buffer.bytes + size)
  }

  /** Storing one more value: the window is cut if that fills it. */
  lemma StoredInv(w: Window, size: nat)
    requires Inv(w) && w.ending == Ongoing && w.seenLive
    ensures Inv(Rebuffer(w, Stored(w.buffer, |w.inputs|, size)).(inputs := w.inputs + [true]))
    ensures Rebuffer(w, Stored(w.buffer, |w.inputs|, size)).ending == Ongoing
    ensures w.buffer.emitted <= Stored(w.buffer, |w.inputs|, size).emitted
  {
    var grown := Grown(w.buffer, |w.inputs|, size);
    var held := w.(buffer := grown);
    RebufferSame(w, grown);
    if w.buffer.policy.Full(grown.items, grown.bytes) {
      HoldInv(w, grown);
      var taken := held.(inputs := w.inputs + [true]);
      FlushInv(taken);
      FlushedIs(held);
      FlushedIs(taken);
      RebufferTwice(w, grown, Emitting(grown));
    } else {
      var armed := grown.(timer := grown.timer || w.buffer.policy.timed);
      HoldInv(w, armed);
      RebufferSame(w, armed);
    }
  }

  lemma AdmittedInv(w: Window, measure: Measure)
    requires Inv(w) && w.ending == Ongoing && w.seenLive && Admit(w.buffer.policy, measure).Admitted?
    ensures Inv(Arrive(w, true, measure)) && Arrive(w, true, measure).ending == Ongoing
  {
    var size := Admit(w.buffer.policy, measure).size;
    hide Inv, Stored, Rebuffer, Emitting;
    if w.buffer.policy.Overflows(w.buffer.items, w.buffer.bytes, size) {
      RoomFor(w);
      var room := Flushed(w);
      StoredInv(room, size);
      assert room.buffer == Emitting(w.buffer) && room.inputs == w.inputs;
      RebufferTwice(w, Emitting(w.buffer), Stored(Emitting(w.buffer), |w.inputs|, size));
    } else {
      StoredInv(w, size);
    }
    ArriveLive(w, measure);
  }

  lemma RoomFor(w: Window)
    requires Inv(w) && w.ending == Ongoing && w.seenLive
    ensures var room := Flushed(w);
      && Inv(room) && room.ending == Ongoing && room.seenLive && room.inputs == w.inputs
      && room.buffer == Emitting(w.buffer) && room == Rebuffer(w, Emitting(w.buffer))
      && w.buffer.emitted <= room.buffer.emitted
  {
    FlushInv(w);
    FlushedIs(w);
  }

  lemma ArriveLive(w: Window, measure: Measure)
    requires w.seenLive && Admit(w.buffer.policy, measure).Admitted?
    ensures Arrive(w, true, measure)
         == Rebuffer(w, AddValue(w.buffer, |w.inputs|, measure, false)).(inputs := w.inputs + [true])
  {
  }

  lemma FailedInv(w: Window, inputs: seq<bool>, buffer: Buffer<nat>)
    requires Inv(w) && |w.inputs| <= |inputs| && buffer.stored == [] && buffer.items == 0
    requires buffer.emitted == w.buffer.emitted
    ensures Inv(Rebuffer(w, buffer).(inputs := inputs, ending := Failed))
  {
    RebufferSame(w, buffer);
  }

  lemma StepInv(w: Window, signal: Signal)
    requires Inv(w)
    ensures Inv(Step(w, signal))
  {
    if w.ending == Ongoing {
      match signal {
        case Arrives(live, measure) =>
          if !live {
            FlushInv(w);
            PassInv(Flushed(w), false);
          } else if !w.seenLive {
            NothingHeld(w);
            PassInv(w, true);
          } else if Admit(w.buffer.policy, measure).Admitted? {
            AdmittedInv(w, measure);
          } else {
            FailedInv(w, w.inputs + [true], Cancelled(w.buffer));
          }
        case Elapses =>
          if w.buffer.timer {
            FlushInv(w);
          } else {
            RebufferSame(w, w.buffer);
          }
        case Completes =>
          FlushInv(w);
          CompletedInv(Flushed(w));
        case Errors =>
      }
    }
  }

  lemma NothingHeld(w: Window)
    requires Inv(w) && w.ending == Ongoing && !w.seenLive
    ensures w.buffer.stored == []
  {
    NoneHeld(w.inputs, w.buffer.stored, |w.inputs| - |w.buffer.stored|);
  }

  lemma CompletedInv(w: Window)
    requires Inv(w) && w.ending == Ongoing && w.buffer.stored == []
    ensures Inv(w.(ending := Completed))
  {
  }

  lemma {:induction false} RunInv(policy: Policy, signals: seq<Signal>)
    ensures Inv(Run(policy, signals))
    decreases |signals|
  {
    if signals != [] {
      RunInv(policy, signals[..|signals| - 1]);
      StepInv(Run(policy, signals[..|signals| - 1]), signals[|signals| - 1]);
    }
  }

  /**
   For every window policy and every schedule of its timer: the emitted states are a subsequence of the input that
   has every phase change, the first live state after each, and the last live state before each phase change and
   before normal completion.
   */
  lemma CoalescingKeepsEssentials(policy: Policy, signals: seq<Signal>)
    ensures
      var w := Run(policy, signals);
      && Increasing(w.out) && Below(w.out, |w.inputs|)
      && (w.ending == Completed ==> Shown(w.inputs, w.out, |w.inputs|) && (w.inputs != [] ==> |w.inputs| - 1 in w.out))
      && (w.ending == Ongoing ==> Shown(w.inputs, w.out, |w.inputs|))
  {
    hide *;
    RunInv(policy, signals);
    KeepsEssentials(Run(policy, signals));
  }

  lemma KeepsEssentials(w: Window)
    requires Inv(w)
    ensures Increasing(w.out) && Below(w.out, |w.inputs|)
    ensures w.ending == Completed ==> Shown(w.inputs, w.out, |w.inputs|) && (w.inputs != [] ==> |w.inputs| - 1 in w.out)
    ensures w.ending == Ongoing ==> Shown(w.inputs, w.out, |w.inputs|)
  {
    if w.ending == Ongoing {
      hide Increasing, Below;
      forall i | 0 <= i < |w.inputs| && Essential(w.inputs, i)
        ensures i in w.out
      {
        assert i < |w.inputs| - |w.buffer.stored|;
      }
    }
  }

  // ---------------------------------------------------------------------------------------------
  // One state for a window
  // ---------------------------------------------------------------------------------------------

  function Continue(w: Window, signals: seq<Signal>): Window {
    if signals == [] then w else Step(Continue(w, signals[..|signals| - 1]), signals[|signals| - 1])
  }

  predicate AllLive(signals: seq<Signal>) {
    forall i :: 0 <= i < |signals| ==> signals[i].Arrives? && signals[i].live
  }

  /** The window is open, and so many more live states do not fill it. */
  predicate HasRoom(w: Window, count: nat) {
    && w.ending == Ongoing && w.seenLive && !w.buffer.cancelled && w.buffer.items == |w.buffer.stored|
    && w.buffer.policy.timed && w.buffer.policy.maxBytes.None?
    && (w.buffer.policy.maxItems.Some? ==> |w.buffer.stored| + count < w.buffer.policy.maxItems.value)
  }

  /** Live states that do not fill the window are held back, all of them. */
  lemma {:induction false} WindowHolds(w: Window, signals: seq<Signal>)
    requires AllLive(signals) && HasRoom(w, |signals|)
    ensures
      var r := Continue(w, signals);
      && HasRoom(r, 0) && r.out == w.out && |r.inputs| == |w.inputs| + |signals|
      && |r.buffer.stored| == |w.buffer.stored| + |signals| && r.buffer.policy == w.buffer.policy
      && (signals != [] ==> r.buffer.timer && r.buffer.stored[|r.buffer.stored| - 1] == |r.inputs| - 1)
    decreases |signals|
  {
    if signals != [] {
      var front, last := signals[..|signals| - 1], signals[|signals| - 1];
      WindowHolds(w, front);
      var before := Continue(w, front);
      var grown := Stored(before.buffer, |before.inputs|, 0);
      assert AddValue(before.buffer, |before.inputs|, last.measure, false) == grown;
      RebufferSame(before, grown);
      hide Rebuffer, Continue;
    }
  }

  /** When its window ends, exactly the latest of the states held back is emitted, however many there were. */
  lemma OneStatePerWindow(w: Window, signals: seq<Signal>)
    requires AllLive(signals) && signals != [] && HasRoom(w, |signals|)
    ensures
      var held := Continue(w, signals);
      && Step(held, Elapses).out == w.out + [|w.inputs| + |signals| - 1]
      && Step(held, Completes).out == w.out + [|w.inputs| + |signals| - 1]
      && Step(held, Elapses).buffer.stored == [] && !Step(held, Elapses).buffer.timer
      && Step(held, Errors).out == w.out
  {
    hide *;
    WindowHolds(w, signals);
    WindowEnds(Continue(w, signals));
  }

  lemma WindowEnds(w: Window)
    requires HasRoom(w, 0) && w.buffer.timer && w.buffer.stored != []
    ensures
      var last := w.buffer.stored[|w.buffer.stored| - 1];
      && Step(w, Elapses).out == w.out + [last] && Step(w, Completes).out == w.out + [last]
      && Step(w, Elapses).buffer.stored == [] && !Step(w, Elapses).buffer.timer
      && Step(w, Errors).out == w.out
  {
    FlushedIs(w);
    EmittingStops(w.buffer);
    hide Rebuffer, Emitting;
  }

  lemma EmittingStops(b: Buffer<nat>)
    requires b.timer
    ensures !Emitting(b).timer && FireTimer(b) == Emitting(b)
  {
  }

  /** A failure of the source emits nothing, drops what is held back and stops the window. */
  lemma FailureDrops(w: Window, signal: Signal)
    requires w.ending == Ongoing
    ensures
      var failed := Step(w, Errors);
      && failed.ending == Failed && failed.out == w.out && failed.buffer.stored == [] && !failed.buffer.timer
      && failed.buffer.cancelled && Step(failed, signal) == failed
  {
  }

  // ---------------------------------------------------------------------------------------------
  // Effect
  // ---------------------------------------------------------------------------------------------

  /** The pull loop: one latest pending state, and whether its deadline is running. */
  datatype Puller = Puller(
    seenLive: bool, pending: Option<nat>, armed: bool, ending: Ending, inputs: seq<bool>, out: seq<nat>)

  const Closed := Puller(false, None, false, Ongoing, [], [])

  function FlushPuller(p: Puller): Puller {
    if p.pending.None? then p else p.(out := p.out + [p.pending.value], pending := None, armed := false)
  }

  function PullOne(p: Puller, live: bool): Puller {
    var position, inputs := |p.inputs|, p.inputs + [live];
    if !live then
      var flushed := FlushPuller(p);
      flushed.(seenLive := false, inputs := inputs, out := flushed.out + [position])
    else if !p.seenLive then p.(seenLive := true, inputs := inputs, out := p.out + [position])
    else p.(pending := Some(position), armed := true, inputs := inputs)
  }

  /** The source ends, well or with a failure: what is pending is emitted before the end is passed on. */
  function PullStep(p: Puller, signal: Signal): Puller {
    if p.ending != Ongoing then p
    else
      match signal
      case Arrives(live, _) => PullOne(p, live)
      case Elapses => if p.armed then FlushPuller(p) else p
      case Completes => FlushPuller(p).(ending := Completed)
      case Errors => FlushPuller(p).(ending := Failed)
  }

  function PullRun(signals: seq<Signal>): Puller {
    if signals == [] then Closed else PullStep(PullRun(signals[..|signals| - 1]), signals[|signals| - 1])
  }

  const TimeOnly := Policy(None, None, true)

  /** The pull loop is the window that only time cuts. */
  predicate SameWindow(p: Puller, w: Window) {
    && w.buffer.policy == TimeOnly && w.buffer.items == |w.buffer.stored| && !w.buffer.cancelled
    && p.seenLive == w.seenLive && p.inputs == w.inputs && p.out == w.out && p.ending == w.ending
    && p.pending == (if w.buffer.stored == [] then None else Some(w.buffer.stored[|w.buffer.stored| - 1]))
    && p.armed == p.pending.Some? && (p.pending.Some? ==> w.buffer.timer)
  }

  lemma FlushSame(p: Puller, w: Window)
    requires SameWindow(p, w)
    ensures SameWindow(FlushPuller(p), Flushed(w))
  {
    FlushedIs(w);
  }

  lemma PullSame(p: Puller, w: Window, signal: Signal)
    requires SameWindow(p, w) && !signal.Errors?
    ensures SameWindow(PullStep(p, signal), Step(w, signal))
  {
    if p.ending == Ongoing {
      match signal {
        case Arrives(live, measure) =>
          if !live {
            FlushSame(p, w);
          } else if w.seenLive {
            var grown := Grown(w.buffer, |w.inputs|, 0).(timer := true);
            assert AddValue(w.buffer, |w.inputs|, measure, false) == grown;
            RebufferSame(w, grown);
          }
        case Elapses =>
          if p.armed {
            FlushSame(p, w);
          } else if w.buffer.timer {
            FlushedIs(w);
          } else {
            RebufferSame(w, w.buffer);
          }
        case Completes => FlushSame(p, w);
      }
    }
  }

  lemma {:induction false} PullRunSame(signals: seq<Signal>)
    requires forall i :: 0 <= i < |signals| ==> !signals[i].Errors?
    ensures SameWindow(PullRun(signals), Run(TimeOnly, signals))
    decreases |signals|
  {
    if signals != [] {
      PullRunSame(signals[..|signals| - 1]);
      PullSame(PullRun(signals[..|signals| - 1]), Run(TimeOnly, signals[..|signals| - 1]), signals[|signals| - 1]);
    }
  }

  /**
   Unless its source fails, the Effect form emits exactly what the RxJS form emits under a policy of time alone;
   when its source fails it still emits the latest pending state, which the RxJS form drops.
   */
  lemma EffectCoalescing(signals: seq<Signal>)
    requires forall i :: 0 <= i < |signals| ==> !signals[i].Errors?
    ensures PullRun(signals).out == Run(TimeOnly, signals).out
    ensures PullRun(signals).inputs == Run(TimeOnly, signals).inputs
    ensures
      var p, failed := PullRun(signals), PullRun(signals + [Errors]);
      p.ending == Ongoing ==>
        && Shown(failed.inputs, failed.out, |failed.inputs|)
        && (failed.inputs != [] ==> |failed.inputs| - 1 in failed.out)
        && failed.out == Run(TimeOnly, signals + [Completes]).out
        && Run(TimeOnly, signals + [Errors]).out == p.out
  {
    hide *;
    PullRunSame(signals);
    WindowParts(PullRun(signals), Run(TimeOnly, signals));
    RunSnoc(signals, Errors);
    RunSnoc(signals, Completes);
    if PullRun(signals).ending == Ongoing {
      PullFails(PullRun(signals), Run(TimeOnly, signals));
      CoalescingKeepsEssentials(TimeOnly, signals + [Completes]);
    }
  }

  lemma WindowParts(p: Puller, w: Window)
    requires SameWindow(p, w)
    ensures p.out == w.out && p.inputs == w.inputs && p.ending == w.ending
  {
  }

  lemma RunSnoc(signals: seq<Signal>, last: Signal)
    ensures PullRun(signals + [last]) == PullStep(PullRun(signals), last)
    ensures Run(TimeOnly, signals + [last]) == Step(Run(TimeOnly, signals), last)
  {
    assert (signals + [last])[..|signals|] == signals;
    hide PullStep, Step;
  }

  /** A failing pull loop flushes, as the window does when it completes; a failing window drops what is pending. */
  lemma PullFails(p: Puller, w: Window)
    requires SameWindow(p, w) && p.ending == Ongoing
    ensures PullStep(p, Errors).out == Step(w, Completes).out && Step(w, Completes).ending == Completed
    ensures PullStep(p, Errors).inputs == Step(w, Completes).inputs && Step(w, Errors).out == p.out
  {
    FlushSame(p, w);
    hide FlushPuller, Flushed;
  }

  // ---------------------------------------------------------------------------------------------
  // The pull loop, over the chunks it is given
  // ---------------------------------------------------------------------------------------------

  class PullLoop {
    var seenLive: bool
    var pendingLive: Option<nat>
    var armed: bool
    var ending: Ending
    var inputs: seq<bool>
    var output: seq<nat>

    constructor ()
      ensures View() == Closed
    {
      seenLive, pendingLive, armed, ending, inputs, output := false, None, false, Ongoing, [], [];
    }

    function View(): Puller
      reads this
    {
      Puller(seenLive, pendingLive, armed, ending, inputs, output)
    }

    method FlushPending()
      modifies this
      ensures View() == FlushPuller(old(View()))
    {
      if pendingLive.None? {
        return;
      }
      output := output + [pendingLive.value];
      pendingLive, armed := None, false;
    }

    /** Works through one pulled chunk. */
    method Chunk(buffered: seq<bool>)
      modifies this
      ensures View() == PullAll(old(View()), buffered)
    {
      var index := 0;
      while index < |buffered|
        invariant 0 <= index <= |buffered|
        invariant View() == PullAll(old(View()), buffered[..index])
      {
        assert buffered[..index + 1][..index] == buffered[..index];
        var live, position := buffered[index], |inputs|;
        if !live {
          FlushPending();
          seenLive := false;
          output := output + [position];
        } else if !seenLive {
          seenLive := true;
          output := output + [position];
        } else {
          pendingLive, armed := Some(position), true;
        }
        inputs := inputs + [live];
        index := index + 1;
      }
      assert buffered[..index] == buffered;
    }

    method Elapse()
      requires ending == Ongoing
      modifies this
      ensures View() == PullStep(old(View()), Elapses)
    {
      if armed {
        FlushPending();
      }
    }

    method End(failed: bool)
      requires ending == Ongoing
      modifies this
      ensures View() == PullStep(old(View()), if failed then Errors else Completes)
    {
      FlushPending();
      ending := if failed then Failed else Completed;
    }
  }

  /** A chunk is its states one by one. */
  function PullAll(p: Puller, chunk: seq<bool>): Puller {
    if chunk == [] then p else PullOne(PullAll(p, chunk[..|chunk| - 1]), chunk[|chunk| - 1])
  }
}
