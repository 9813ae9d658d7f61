/**
 Why the batch coordinator cuts. Every batch it hands to the application has a reason that can be read off the entries
 themselves: it holds exactly the permitted number, or exactly the permitted bytes, or the next entry would not have
 fitted beside it, or a timer, a flush or the completion asked for it. Nothing is cut for less.
 */
module BatchCuts {
  import opened Prelude
  import opened Batching

  /** What an event adds to the application chain, barriers aside. */
  function CutsOf<T>(s: State<T>, event: Event<T>): seq<Op<T>> {
    var t := Step(s, event);
    if event.Registering? || |t.applications| < |s.applications| then [] else t.applications[|s.applications|..]
  }

  /** Every batch handed to the application chain over a run, with the reason handed over beside it. */
  function Cuts<T>(policy: Policy, events: seq<Event<T>>): seq<Op<T>> {
    if events == [] then []
    else
      var front := events[..|events| - 1];
      Cuts(policy, front) + CutsOf(Run(Initial(policy), front), events[|events| - 1])
  }

  /** The reason fits the batch, given the entries that were accepted after it. */
  predicate Justified<T>(policy: Policy, batch: seq<Entry<T>>, reason: Reason, rest: seq<Entry<T>>) {
    match reason
    case ByCount => policy.maxItems == Some(|batch|)
    case ByBytes =>
      && policy.maxBytes.Some? && policy.maxItems != Some(|batch|)
      && (Bytes(batch) == policy.maxBytes.value
          || (rest != [] && policy.maxBytes.value < Bytes(batch) + rest[0].size))
    case ByTime => policy.timed
    case _ => true
  }

  /** What was accepted after the `i`-th batch. */
  function After<T>(drained: seq<seq<Entry<T>>>, accepted: seq<Entry<T>>, i: nat): seq<Entry<T>>
    requires i < |drained|
  {
    var n := |Flatten(drained[..i + 1])|;
    if n <= |accepted| then accepted[n..] else []
  }

  ghost predicate AllJustified<T>(policy: Policy, cuts: seq<Op<T>>, drained: seq<seq<Entry<T>>>,
                                  accepted: seq<Entry<T>>)
  {
    && |cuts| == |drained|
    && forall i :: 0 <= i < |cuts| ==>
         && cuts[i].Apply? && cuts[i].batch == drained[i]
         && Justified(policy, drained[i], cuts[i].reason, After(drained, accepted, i))
  }

  lemma JustifiedMore<T>(policy: Policy, cuts: seq<Op<T>>, drained: seq<seq<Entry<T>>>, accepted: seq<Entry<T>>,
                         entry: Entry<T>)
    requires AllJustified(policy, cuts, drained, accepted)
    ensures AllJustified(policy, cuts, drained, accepted + [entry])
  {
    hide Flatten;
    forall i | 0 <= i < |cuts|
      ensures Justified(policy, drained[i], cuts[i].reason, After(drained, accepted + [entry], i))
    {
      assert Justified(policy, drained[i], cuts[i].reason, After(drained, accepted, i));
    }
  }

  lemma JustifiedSnoc<T>(policy: Policy, cuts: seq<Op<T>>, drained: seq<seq<Entry<T>>>, accepted: seq<Entry<T>>,
                         batch: seq<Entry<T>>, reason: Reason, rest: seq<Entry<T>>)
    requires AllJustified(policy, cuts, drained, accepted)
    requires accepted == Flatten(drained) + batch + rest && Justified(policy, batch, reason, rest)
    ensures AllJustified(policy, cuts + [Apply(batch, reason)], drained + [batch], accepted)
  {
    FlattenSnoc(drained, batch);
    var more := drained + [batch];
    hide Flatten, Justified;
    forall i | 0 <= i < |drained|
      ensures After(more, accepted, i) == After(drained, accepted, i)
    {
      assert more[..i + 1] == drained[..i + 1];
    }
    assert more[..|drained| + 1] == more;
    assert After(more, accepted, |drained|) == rest;
  }

  /** The buffer is cut whole, behind everything cut before. */
  lemma DrainCuts<T>(s: State<T>, reason: Reason, cuts: seq<Op<T>>)
    requires Inv(s) && AllJustified(s.policy, cuts, s.drained, s.accepted)
    requires s.pending != [] && !s.cancelled && Justified(s.policy, s.pending, reason, [])
    ensures
      var t := Drain(s, reason);
      && t.applications == s.applications + [Apply(s.pending, reason)] && t.accepted == s.accepted
      && AllJustified(s.policy, cuts + [Apply(s.pending, reason)], t.drained, t.accepted)
  {
    assert s.accepted == Flatten(s.drained) + s.pending + s.dropped && s.dropped == [];
    hide Inv, AllJustified, Justified;
    assert s.accepted == Flatten(s.drained) + s.pending + [];
    JustifiedSnoc(s.policy, cuts, s.drained, s.accepted, s.pending, reason, []);
  }

  /** A value is stored behind the cuts made so far, and cut off at once when it fills the buffer. */
  lemma StoreCuts<T>(s: State<T>, value: T, size: nat, cuts: seq<Op<T>>, entry: Entry<T>)
    requires !s.cancelled && s.dropped == [] && entry == Entry(s.tickets, value, size)
    requires AllJustified(s.policy, cuts, s.drained, s.accepted + [entry])
    requires s.accepted == Flatten(s.drained) + s.pending && s.pendingBytes == Bytes(s.pending)
    requires s.policy.maxItems.Some? ==> |s.pending| < s.policy.maxItems.value
    requires s.policy.maxBytes.Some? ==> Bytes(s.pending) + size <= s.policy.maxBytes.value
    ensures
      var t := CutOrArm(Store(s, value, size));
      && s.applications <= t.applications
      && AllJustified(s.policy, cuts + t.applications[|s.applications|..], t.drained, t.accepted)
  {
    var stored, all := Store(s, value, size), s.pending + [entry];
    var t := CutOrArm(stored);
    BytesSnoc(s.pending, entry);
    assert stored.accepted == Flatten(s.drained) + all + [];
    hide Flatten, AllJustified, Bytes;
    if s.policy.Full(|stored.pending|, stored.pendingBytes) {
      var reason := if s.policy.CountReached(|stored.pending|) then ByCount else ByBytes;
      JustifiedSnoc(s.policy, cuts, s.drained, stored.accepted, all, reason, []);
      assert t.applications[|s.applications|..] == [Apply(all, reason)];
    } else {
      assert cuts + t.applications[|s.applications|..] == cuts;
    }
  }

  lemma AddCases<T>(s: State<T>, value: T, measure: Measure)
    ensures
      var admission, t := Admit(s.policy, measure), Add(s, value, measure);
      if s.cancelled || s.completed || !admission.Admitted?
      then t.applications == s.applications && t.drained == s.drained && t.accepted == s.accepted
      else
        var over := s.policy.Overflows(|s.pending|, s.pendingBytes, admission.size);
        t == CutOrArm(Store(if over then Drain(s, ByBytes) else s, value, admission.size))
    ensures Admit(s.policy, measure).Admitted? && s.policy.maxBytes.Some? ==>
      Admit(s.policy, measure).size <= s.policy.maxBytes.value
  {
    hide Store, CutOrArm, Drain;
  }

  lemma AddCuts<T>(s: State<T>, value: T, measure: Measure, cuts: seq<Op<T>>)
    requires Inv(s) && AllJustified(s.policy, cuts, s.drained, s.accepted)
    ensures
      var t := Add(s, value, measure);
      && s.applications <= t.applications
      && AllJustified(s.policy, cuts + t.applications[|s.applications|..], t.drained, t.accepted)
  {
    hide *;
    var admission := Admit(s.policy, measure);
    AddCases(s, value, measure);
    if s.cancelled || s.completed || !admission.Admitted? {
      var t := Add(s, value, measure);
      assert cuts + t.applications[|s.applications|..] == cuts;
    } else {
      JustifiedMore(s.policy, cuts, s.drained, s.accepted, Entry(s.tickets, value, admission.size));
      AcceptedParts(s);
      if s.policy.Overflows(|s.pending|, s.pendingBytes, admission.size) {
        OverflowCuts(s, value, admission.size, cuts);
      } else {
        FitCuts(s, value, admission.size, cuts);
      }
    }
  }

  lemma FitCuts<T>(s: State<T>, value: T, size: nat, cuts: seq<Op<T>>)
    requires Inv(s) && !s.cancelled && !s.policy.Overflows(|s.pending|, s.pendingBytes, size)
    requires s.policy.maxBytes.Some? ==> size <= s.policy.maxBytes.value
    requires AllJustified(s.policy, cuts, s.drained, s.accepted + [Entry(s.tickets, value, size)])
    ensures
      var t := CutOrArm(Store(s, value, size));
      && s.applications <= t.applications
      && AllJustified(s.policy, cuts + t.applications[|s.applications|..], t.drained, t.accepted)
  {
    AcceptedParts(s);
    NoBytes<T>();
    hide Inv, AllJustified, Store, CutOrArm, Bytes, Flatten;
    StoreCuts(s, value, size, cuts, Entry(s.tickets, value, size));
  }

  lemma OverflowCuts<T>(s: State<T>, value: T, size: nat, cuts: seq<Op<T>>)
    requires Inv(s) && !s.cancelled && s.policy.Overflows(|s.pending|, s.pendingBytes, size)
    requires s.policy.maxBytes.Some? ==> size <= s.policy.maxBytes.value
    requires AllJustified(s.policy, cuts, s.drained, s.accepted + [Entry(s.tickets, value, size)])
    ensures
      var t := CutOrArm(Store(Drain(s, ByBytes), value, size));
      && s.applications <= t.applications
      && AllJustified(s.policy, cuts + t.applications[|s.applications|..], t.drained, t.accepted)
  {
    hide *;
    var entry, room, cut := Entry(s.tickets, value, size), Drain(s, ByBytes), [Apply(s.pending, ByBytes)];
    OverflowFacts(s, value, size);
    JustifiedSnoc(s.policy, cuts, s.drained, s.accepted + [entry], s.pending, ByBytes, [entry]);
    StoreCuts(room, value, size, cuts + cut, entry);
    var t := CutOrArm(Store(room, value, size));
    SuffixBehind(s.applications, cut, t.applications);
    assert cuts + (cut + t.applications[|room.applications|..]) == cuts + cut + t.applications[|room.applications|..];
  }

  /** Where the value does not fit, the buffer is cut by bytes and the value finds it empty. */
  lemma OverflowFacts<T>(s: State<T>, value: T, size: nat)
    requires Inv(s) && !s.cancelled && s.policy.Overflows(|s.pending|, s.pendingBytes, size)
    requires s.policy.maxBytes.Some? ==> size <= s.policy.maxBytes.value
    ensures
      var entry, room := Entry(s.tickets, value, size), Drain(s, ByBytes);
      && Justified(s.policy, s.pending, ByBytes, [entry])
      && s.accepted + [entry] == Flatten(s.drained) + s.pending + [entry]
      && room == s.(timer := false, pending := [], pendingBytes := 0, drained := s.drained + [s.pending],
                    applications := s.applications + [Apply(s.pending, ByBytes)])
      && room.dropped == [] && room.accepted == Flatten(room.drained) + room.pending
      && room.pendingBytes == Bytes(room.pending)
      && (room.policy.maxItems.Some? ==> |room.pending| < room.policy.maxItems.value)
      && (room.policy.maxBytes.Some? ==> Bytes(room.pending) + size <= room.policy.maxBytes.value)
  {
    AcceptedParts(s);
    NoBytes<T>();
    FlattenSnoc(s.drained, s.pending);
    hide Inv, Flatten, Bytes;
    assert Flatten(s.drained + [s.pending]) + [] == Flatten(s.drained + [s.pending]);
  }

  lemma SuffixBehind<T>(a: seq<Op<T>>, b: seq<Op<T>>, all: seq<Op<T>>)
    requires a + b <= all
    ensures a <= all && all[|a|..] == b + all[|a + b|..]
  {
  }

  lemma NoBytes<T>()
    ensures Bytes<T>([]) == 0
  {
  }

  /** A coordinator that still accepts has dropped nothing, and its buffer is below both bounds. */
  lemma AcceptedParts<T>(s: State<T>)
    requires Inv(s) && !s.cancelled
    ensures s.dropped == [] && s.accepted == Flatten(s.drained) + s.pending && s.pendingBytes == Bytes(s.pending)
    ensures s.policy.Valid() && (s.policy.maxItems.Some? ==> |s.pending| < s.policy.maxItems.value)
    ensures s.policy.maxBytes.Some? ==> s.pendingBytes < s.policy.maxBytes.value
  {
    hide Ordered, CutWithinBounds, Flatten, Bytes;
    assert Flatten(s.drained) + s.pending + [] == Flatten(s.drained) + s.pending;
  }

  /** What each event does to the chain and the cuts, and which state the coordinator drains. */
  lemma StepCases<T>(s: State<T>, event: Event<T>)
    requires Inv(s)
    ensures
      var t := Step(s, event);
      && (event.Adding? ==> t == Add(s, event.value, event.measure))
      && (event.TimerFiring? ==>
            t == s || (t == Drain(s.(timer := false), ByTime) && (s.policy.timed || s.pending == [])))
      && (event.Flushing? ==> t == Drain(s, ByHand))
      && (event.Completing? ==> t == s || t == Drain(s.(completed := true), ByCompletion))
      && (event.Cancelling? || event.Registering? || event.Running? ==>
            t.drained == s.drained && t.accepted == s.accepted)
      && (event.Cancelling? ==> t.applications == s.applications)
      && (event.Running? ==> |t.applications| <= |s.applications|)
  {
    hide Conserving, Ordered, CutWithinBounds, Store, CutOrArm, Flatten, Settle;
  }

  lemma StepPolicy<T>(s: State<T>, event: Event<T>)
    ensures Step(s, event).policy == s.policy
  {
    hide Settle;
  }

  lemma StepCuts<T>(s: State<T>, event: Event<T>, cuts: seq<Op<T>>)
    requires Inv(s) && AllJustified(s.policy, cuts, s.drained, s.accepted)
    ensures AllJustified(s.policy, cuts + CutsOf(s, event), Step(s, event).drained, Step(s, event).accepted)
    ensures Step(s, event).policy == s.policy
  {
    var t := Step(s, event);
    hide Inv, AllJustified, Step, Add, Drain;
    StepCases(s, event);
    StepPolicy(s, event);
    assert cuts + [] == cuts;
    match event {
      case Adding(value, measure) => AddCuts(s, value, measure, cuts);
      case TimerFiring => CutOnce(s, s.(timer := false), ByTime, cuts, t);
      case Flushing => CutOnce(s, s, ByHand, cuts, t);
      case Completing => CutOnce(s, s.(completed := true), ByCompletion, cuts, t);
      case _ => assert CutsOf(s, event) == [];
    }
  }

  /** A timer, a flush or the completion cuts the whole buffer, if there is one. */
  lemma CutOnce<T>(s: State<T>, ready: State<T>, reason: Reason, cuts: seq<Op<T>>, t: State<T>)
    requires Inv(s) && AllJustified(s.policy, cuts, s.drained, s.accepted)
    requires ready == s.(timer := ready.timer, completed := ready.completed)
    requires reason.ByTime? || reason.ByHand? || reason.ByCompletion?
    requires t == s || (t == Drain(ready, reason) && (reason.ByTime? ==> s.policy.timed || s.pending == []))
    ensures s.applications <= t.applications
    ensures AllJustified(s.policy, cuts + t.applications[|s.applications|..], t.drained, t.accepted)
  {
    if t != s && s.pending != [] && !s.cancelled {
      DrainCuts(s, reason, cuts);
      hide AllJustified, Inv, Justified;
      assert t.applications[|s.applications|..] == [Apply(s.pending, reason)];
    } else {
      assert t.applications[|s.applications|..] == [];
      assert cuts + [] == cuts;
    }
  }

  lemma {:induction false} RunCuts<T>(policy: Policy, events: seq<Event<T>>)
    requires policy.Valid()
    ensures
      var s := Run(Initial(policy), events);
      Inv(s) && s.policy == policy && AllJustified(policy, Cuts(policy, events), s.drained, s.accepted)
    decreases |events|
  {
    InitialInv<T>(policy);
    hide Inv, AllJustified, CutsOf, Step;
    if events == [] {
      NoCuts<T>(policy);
    } else {
      var front, last := events[..|events| - 1], events[|events| - 1];
      RunCuts(policy, front);
      var s := Run(Initial(policy), front);
      StepInv(s, last);
      StepCuts(s, last, Cuts(policy, front));
    }
  }

  lemma NoCuts<T>(policy: Policy)
    ensures AllJustified<T>(policy, [], [], [])
  {
  }

  /**
   Over every run, every batch handed to the application is within both bounds and comes with the reason for which it
   was cut: exactly the permitted number; exactly the permitted bytes, or a next entry that does not fit; a timer.
   What is left in the buffer is below both bounds.
   */
  lemma CutsJustified<T>(policy: Policy, events: seq<Event<T>>)
    requires policy.Valid()
    ensures
      var s, cuts := Run(Initial(policy), events), Cuts(policy, events);
      && |cuts| == |s.drained|
      && (forall i :: 0 <= i < |cuts| ==>
            && cuts[i].Apply? && cuts[i].batch == s.drained[i] && cuts[i].batch != []
            && Justified(policy, cuts[i].batch, cuts[i].reason, After(s.drained, s.accepted, i))
            && (policy.maxItems.Some? ==> |cuts[i].batch| <= policy.maxItems.value)
            && (policy.maxBytes.Some? ==> Bytes(cuts[i].batch) <= policy.maxBytes.value))
      && (policy.maxItems.Some? ==> |s.pending| < policy.maxItems.value)
      && (policy.maxBytes.Some? ==> Bytes(s.pending) < policy.maxBytes.value)
  {
    RunCuts(policy, events);
    var s, cuts := Run(Initial(policy), events), Cuts(policy, events);
    assert CutWithinBounds(s) && Buffered(s);
    hide Run, Cuts, Justified, After, Bytes, Inv, Conserving, Ordered;
    forall i | 0 <= i < |cuts|
      ensures cuts[i].batch != [] && (policy.maxItems.Some? ==> |cuts[i].batch| <= policy.maxItems.value)
      ensures policy.maxBytes.Some? ==> Bytes(cuts[i].batch) <= policy.maxBytes.value
    {
      assert Bounded(policy, s.drained[i]);
    }
  }

  /** What a caller's `add` does: exactly the values with a valid size are stored, under that size. */
  lemma AddAccepts<T>(s: State<T>, value: T, measure: Measure)
    ensures
      var t := Add(s, value, measure);
      var open := !s.cancelled && !s.completed;
      var valid := s.policy.maxBytes.None? || (measure.Size? && 0 <= measure.bytes <= s.policy.maxBytes.value);
      && t.tickets == s.tickets + 1
      && t.accepted
         == s.accepted
            + (if !open || !valid then []
               else [Entry(s.tickets, value, if s.policy.maxBytes.None? then 0 else measure.bytes)])
      && t.settled == s.settled + (if !open || !valid then [Settlement(s.tickets, false)] else [])
  {
  }

  /** Timers, flushes and the completion hand over the whole buffer under their own reason. */
  lemma WholeBufferCut<T>(s: State<T>, event: Event<T>)
    requires Inv(s) && !s.cancelled && !s.completed
    requires (event.TimerFiring? && s.timer) || event.Flushing? || event.Completing?
    ensures
      var reason := if event.TimerFiring? then ByTime else if event.Flushing? then ByHand else ByCompletion;
      && Step(s, event).pending == [] && !Step(s, event).timer
      && CutsOf(s, event) == (if s.pending == [] then [] else [Apply(s.pending, reason)])
      && (event.Completing? ==> Step(s, event).completed)
  {
    assert (s.applications + [Apply(s.pending, ByTime)])[|s.applications|..] == [Apply(s.pending, ByTime)];
    hide Conserving, Ordered, CutWithinBounds;
  }

  /** A cancel drops the buffer and rejects exactly what was in it; what was cut before is not interrupted. */
  lemma CancelDrops<T>(s: State<T>)
    requires Inv(s) && !s.cancelled
    ensures
      var t := Step(s, Cancelling);
      && t.cancelled && t.pending == [] && !t.timer && t.dropped == s.dropped + s.pending
      && t.applications == s.applications && t.finished == s.finished && t.barrierFailed == s.barrierFailed
      && |t.settled| == |s.settled| + |s.pending| && s.settled <= t.settled
      && (forall i :: 0 <= i < |s.pending| ==> t.settled[|s.settled| + i] == Settlement(s.pending[i].ticket, false))
      && Step(t, Cancelling) == t
  {
  }

  /** Over every run: only a cancel cancels, only the completion completes, and only a failed wait blocks the chain. */
  lemma {:induction false} ClosedOnRequest<T>(policy: Policy, events: seq<Event<T>>)
    ensures
      var s := Run(Initial(policy), events);
      && (s.cancelled <==> Cancelling in events)
      && (s.completed ==> Completing in events)
      && (Completing in events && Cancelling !in events ==> s.completed)
      && (s.barrierFailed ==> Running(false) in events)
    decreases |events|
  {
    hide Settle, Store, CutOrArm;
    if events != [] {
      var front, last := events[..|events| - 1], events[|events| - 1];
      ClosedOnRequest(policy, front);
      assert events == front + [last];
      StepFlags(Run(Initial(policy), front), last);
      hide Step;
    }
  }

  lemma StepFlags<T>(s: State<T>, event: Event<T>)
    ensures
      var t := Step(s, event);
      && t.cancelled == (s.cancelled || event.Cancelling?)
      && (s.completed ==> t.completed) && (t.completed ==> s.completed || event.Completing?)
      && (event.Completing? && !s.cancelled ==> t.completed)
      && (t.barrierFailed ==> s.barrierFailed || event == Running(false)) && (s.barrierFailed ==> t.barrierFailed)
      && (event.Registering? ==> t.applications == s.applications + [Barrier(event.commit)])
  {
    hide Add, Drain, Settle;
    DrainFlags(s.(timer := false), ByTime);
    DrainFlags(s, ByHand);
    DrainFlags(s.(completed := true), ByCompletion);
    if event.Adding? {
      AddFlags(s, event.value, event.measure);
    }
  }

  predicate SameFlags<T>(s: State<T>, t: State<T>) {
    t.cancelled == s.cancelled && t.completed == s.completed && t.barrierFailed == s.barrierFailed
  }

  lemma DrainFlags<T>(s: State<T>, reason: Reason)
    ensures SameFlags(s, Drain(s, reason))
  {
  }

  lemma AddFlags<T>(s: State<T>, value: T, measure: Measure)
    ensures SameFlags(s, Add(s, value, measure))
  {
    var admission := Admit(s.policy, measure);
    if !s.cancelled && !s.completed && admission.Admitted? {
      AddCases(s, value, measure);
      var over := s.policy.Overflows(|s.pending|, s.pendingBytes, admission.size);
      var room := if over then Drain(s, ByBytes) else s;
      DrainFlags(s, ByBytes);
      var stored := Store(room, value, admission.size);
      DrainFlags(stored, if stored.policy.CountReached(|stored.pending|) then ByCount else ByBytes);
      assert SameFlags(stored, CutOrArm(stored));
    }
    hide Drain, Store, CutOrArm;
  }
}
