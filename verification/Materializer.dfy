/**
 The Effect materializer: an event stream arrives in groups, and every group is reduced in bounded batches. What is
 left at the end does not depend on how the stream was grouped; which states are shown on the way does.
 */
module Materializer {
  import opened Prelude
  import opened Batching

  datatype Delivery<V> = Delivery(value: V, cursor: nat)

  datatype Happening<V> = Delivered(delivery: Delivery<V>) | CaughtUp(delivered: nat, cursor: Option<nat>)

  /** What is carried from one group to the next. A snapshot has the same parts. */
  datatype Accumulated<S> = Accumulated(live: bool, data: S, cursor: Option<nat>, replayed: nat)

  /** One group being worked on: the batch it is filling, the snapshots it has taken and the reducer calls it made. */
  datatype Work<S, V> = Work(
    acc: Accumulated<S>,
    pending: seq<Delivery<V>>,
    pendingBytes: nat,
    snapshots: seq<Accumulated<S>>,
    calls: seq<seq<Delivery<V>>>,
    died: bool)

  type Reducer<!S, !V> = (S, seq<Delivery<V>>) -> S
  type SizeOf<!V> = Delivery<V> -> Measure

  function ReducePending<S, V>(reduce: Reducer<S, V>, w: Work<S, V>): Work<S, V> {
    if w.pending == [] then w
    else
      var last := w.pending[|w.pending| - 1];
      w.(acc := Accumulated(w.acc.live, reduce(w.acc.data, w.pending), Some(last.cursor),
                            if w.acc.live then w.acc.replayed else w.acc.replayed + |w.pending|),
         pending := [],
         pendingBytes := 0,
         calls := w.calls + [w.pending])
  }

  function Push<S, V>(policy: Policy, reduce: Reducer<S, V>, w: Work<S, V>, delivery: Delivery<V>, size: nat)
    : Work<S, V>
  {
    var grown := w.(pending := w.pending + [delivery], pendingBytes := w.pendingBytes + size);
    if policy.Full(|grown.pending|, grown.pendingBytes) then ReducePending(reduce, grown) else grown
  }

  function Handle<S, V>(policy: Policy, sizeOf: SizeOf<V>, reduce: Reducer<S, V>, w: Work<S, V>, event: Happening<V>)
    : Work<S, V>
  {
    if w.died then w
    else
      match event
      case Delivered(delivery) =>
        (match Admit(policy, sizeOf(delivery))
         case Admitted(size) =>
           var room := if policy.Overflows(|w.pending|, w.pendingBytes, size) then ReducePending(reduce, w) else w;
           Push(policy, reduce, room, delivery, size)
         case _ => w.(died := true))
      case CaughtUp(delivered, cursor) =>
        var reduced := ReducePending(reduce, w);
        var acc := Accumulated(true, reduced.acc.data, if cursor.Some? then cursor else reduced.acc.cursor, delivered);
        reduced.(acc := acc, snapshots := reduced.snapshots + [acc])
  }

  function HandleAll<S, V>(policy: Policy, sizeOf: SizeOf<V>, reduce: Reducer<S, V>, w: Work<S, V>,
                           events: seq<Happening<V>>): Work<S, V>
  {
    if events == [] then w
    else Handle(policy, sizeOf, reduce, HandleAll(policy, sizeOf, reduce, w, events[..|events| - 1]),
                events[|events| - 1])
  }

  /** The end of a group: the rest is reduced, and shown once the stream is live. */
  function Finish<S, V>(reduce: Reducer<S, V>, w: Work<S, V>): Work<S, V> {
    if w.died then w
    else
      var reduced := ReducePending(reduce, w);
      if reduced.acc.live && w.pending != [] then reduced.(snapshots := reduced.snapshots + [reduced.acc]) else reduced
  }

  function Begin<S, V>(acc: Accumulated<S>): Work<S, V> {
    Work(acc, [], 0, [], [], false)
  }

  function Group<S, V>(policy: Policy, sizeOf: SizeOf<V>, reduce: Reducer<S, V>, acc: Accumulated<S>,
                       events: seq<Happening<V>>): Work<S, V>
  {
    Finish(reduce, HandleAll(policy, sizeOf, reduce, Begin(acc), events))
  }

  /** The stream after some groups: what is accumulated, every snapshot emitted, every reducer call made. */
  datatype Stream<S, V> = Stream(
    acc: Accumulated<S>, snapshots: seq<Accumulated<S>>, calls: seq<seq<Delivery<V>>>, died: bool)

  function Groups<S, V>(policy: Policy, sizeOf: SizeOf<V>, reduce: Reducer<S, V>, initial: S,
                        groups: seq<seq<Happening<V>>>): Stream<S, V>
  {
    if groups == [] then Stream(Accumulated(false, initial, None, 0), [], [], false)
    else
      var before := Groups(policy, sizeOf, reduce, initial, groups[..|groups| - 1]);
      if before.died then before
      else
        var w := Group(policy, sizeOf, reduce, before.acc, groups[|groups| - 1]);
        if w.died then before.(calls := before.calls + w.calls, died := true)
        else Stream(w.acc, before.snapshots + w.snapshots, before.calls + w.calls, false)
  }

  // ---------------------------------------------------------------------------------------------
  // What the stream means, event by event
  // ---------------------------------------------------------------------------------------------

  function Meaning<S, V>(fold: (S, V) -> S, initial: S, events: seq<Happening<V>>): Accumulated<S> {
    if events == [] then Accumulated(false, initial, None, 0)
    else
      var before := Meaning(fold, initial, events[..|events| - 1]);
      match events[|events| - 1]
      case Delivered(d) =>
        Accumulated(before.live, fold(before.data, d.value), Some(d.cursor),
                    if before.live then before.replayed else before.replayed + 1)
      case CaughtUp(delivered, cursor) =>
        Accumulated(true, before.data, if cursor.Some? then cursor else before.cursor, delivered)
  }

  function FoldBatch<S, V>(fold: (S, V) -> S, data: S, batch: seq<Delivery<V>>): S {
    if batch == [] then data
    else fold(FoldBatch(fold, data, batch[..|batch| - 1]), batch[|batch| - 1].value)
  }

  /** The reducer handles a batch as it would handle its deliveries one by one. */
  ghost predicate LeftFold<S(!new), V(!new)>(reduce: Reducer<S, V>, fold: (S, V) -> S) {
    forall data: S, batch: seq<Delivery<V>> :: reduce(data, batch) == FoldBatch(fold, data, batch)
  }

  predicate ValidSizes<V>(policy: Policy, sizeOf: SizeOf<V>, deliveries: seq<Delivery<V>>) {
    forall i :: 0 <= i < |deliveries| ==> Admit(policy, sizeOf(deliveries[i])).Admitted?
  }

  function Deliveries<V>(events: seq<Happening<V>>): seq<Delivery<V>> {
    if events == [] then []
    else
      Deliveries(events[..|events| - 1])
      + (if events[|events| - 1].Delivered? then [events[|events| - 1].delivery] else [])
  }

  function Bytes<V>(policy: Policy, sizeOf: SizeOf<V>, batch: seq<Delivery<V>>): nat {
    if batch == [] then 0
    else
      var last := Admit(policy, sizeOf(batch[|batch| - 1]));
      Bytes(policy, sizeOf, batch[..|batch| - 1]) + (if last.Admitted? then last.size else 0)
  }

  /** What the batch in hand would become, had it been reduced already. */
  function Caught<S, V>(fold: (S, V) -> S, acc: Accumulated<S>, pending: seq<Delivery<V>>): Accumulated<S> {
    Accumulated(acc.live, FoldBatch(fold, acc.data, pending),
                if pending == [] then acc.cursor else Some(pending[|pending| - 1].cursor),
                if acc.live then acc.replayed else acc.replayed + |pending|)
  }

  function Prefix<S, V>(fold: (S, V) -> S, initial: S, events: seq<Happening<V>>, n: nat): Accumulated<S>
    requires n <= |events|
  {
    Meaning(fold, initial, events[..n])
  }

  ghost predicate Bounded<V>(policy: Policy, sizeOf: SizeOf<V>, batch: seq<Delivery<V>>) {
    policy.Within(|batch|, Bytes(policy, sizeOf, batch))
  }

  /** A group in progress, after the given events of the whole stream. */
  ghost predicate Faithful<S, V(!new)>(policy: Policy, sizeOf: SizeOf<V>, fold: (S, V) -> S, initial: S,
                                       events: seq<Happening<V>>, w: Work<S, V>)
  {
    && !w.died
    && Caught(fold, w.acc, w.pending) == Meaning(fold, initial, events)
    && w.pendingBytes == Bytes(policy, sizeOf, w.pending)
    && !policy.Full(|w.pending|, w.pendingBytes)
  }

  /** The snapshots show the meaning of the stream at these positions: after that many events. */
  ghost predicate AllShow<S, V(!new)>(fold: (S, V) -> S, initial: S, events: seq<Happening<V>>, positions: seq<nat>,
                                      snapshots: seq<Accumulated<S>>)
  {
    && |snapshots| == |positions|
    && forall i :: 0 <= i < |positions| ==>
         positions[i] <= |events| && snapshots[i] == Prefix(fold, initial, events, positions[i])
  }

  ghost predicate AllBounded<V>(policy: Policy, sizeOf: SizeOf<V>, calls: seq<seq<Delivery<V>>>) {
    forall i :: 0 <= i < |calls| ==> Bounded(policy, sizeOf, calls[i])
  }

  // ---------------------------------------------------------------------------------------------
  // Where snapshots are taken: a matter of the sizes and the groups, not of the reducer
  // ---------------------------------------------------------------------------------------------

  datatype Load = Load(items: nat, bytes: nat)

  /** The load of the batch that is being filled after these events of a group. */
  function Fill<V>(policy: Policy, sizeOf: SizeOf<V>, events: seq<Happening<V>>): Load {
    if events == [] then Load(0, 0)
    else
      var before := Fill(policy, sizeOf, events[..|events| - 1]);
      match events[|events| - 1]
      case CaughtUp(_, _) => Load(0, 0)
      case Delivered(d) =>
        (match Admit(policy, sizeOf(d))
         case Admitted(size) =>
           var room := if policy.Overflows(before.items, before.bytes, size) then Load(0, 0) else before;
           if policy.Full(room.items + 1, room.bytes + size) then Load(0, 0)
           else Load(room.items + 1, room.bytes + size)
         case _ => before)
  }

  predicate CaughtUpIn<V>(events: seq<Happening<V>>) {
    exists i :: 0 <= i < |events| && events[i].CaughtUp?
  }

  /** The positions right after a caught-up event. */
  function Marks<V>(events: seq<Happening<V>>, offset: nat): seq<nat> {
    if events == [] then []
    else Marks(events[..|events| - 1], offset) + Mark(events[|events| - 1], offset + |events|)
  }

  function Mark<V>(event: Happening<V>, position: nat): seq<nat> {
    if event.CaughtUp? then [position] else []
  }

  /** The end of a group is shown once the stream is live, if its last batch is still being filled. */
  function EndMark<V>(policy: Policy, sizeOf: SizeOf<V>, earlier: seq<Happening<V>>, events: seq<Happening<V>>)
    : seq<nat>
  {
    if CaughtUpIn(earlier + events) && Fill(policy, sizeOf, events).items != 0 then [|earlier| + |events|] else []
  }

  function Positions<V>(policy: Policy, sizeOf: SizeOf<V>, groups: seq<seq<Happening<V>>>): seq<nat> {
    if groups == [] then []
    else
      var front, last := groups[..|groups| - 1], groups[|groups| - 1];
      var earlier := Flatten(front);
      Positions(policy, sizeOf, front) + (Marks(last, |earlier|) + EndMark(policy, sizeOf, earlier, last))
  }

  // ---------------------------------------------------------------------------------------------
  // One group
  // ---------------------------------------------------------------------------------------------

  lemma ReduceCatches<S(!new), V(!new)>(reduce: Reducer<S, V>, fold: (S, V) -> S, w: Work<S, V>)
    requires LeftFold(reduce, fold)
    ensures ReducePending(reduce, w).acc == Caught(fold, w.acc, w.pending)
    ensures ReducePending(reduce, w).pending == [] && ReducePending(reduce, w).pendingBytes
            == if w.pending == [] then w.pendingBytes else 0
    ensures Caught(fold, ReducePending(reduce, w).acc, []) == Caught(fold, w.acc, w.pending)
  {
  }

  lemma CaughtSnoc<S, V>(fold: (S, V) -> S, acc: Accumulated<S>, pending: seq<Delivery<V>>, d: Delivery<V>)
    ensures
      var before := Caught(fold, acc, pending);
      Caught(fold, acc, pending + [d])
      == Accumulated(before.live, fold(before.data, d.value), Some(d.cursor),
                     if before.live then before.replayed else before.replayed + 1)
  {
    assert (pending + [d])[..|pending|] == pending;
  }

  lemma BytesSnoc<V>(policy: Policy, sizeOf: SizeOf<V>, batch: seq<Delivery<V>>, d: Delivery<V>)
    requires Admit(policy, sizeOf(d)).Admitted?
    ensures Bytes(policy, sizeOf, batch + [d]) == Bytes(policy, sizeOf, batch) + Admit(policy, sizeOf(d)).size
  {
    assert (batch + [d])[..|batch|] == batch;
  }

  lemma MeaningSnoc<S, V>(fold: (S, V) -> S, initial: S, events: seq<Happening<V>>, event: Happening<V>)
    ensures
      var before := Meaning(fold, initial, events);
      Meaning(fold, initial, events + [event])
      == match event
         case Delivered(d) =>
           Accumulated(before.live, fold(before.data, d.value), Some(d.cursor),
                       if before.live then before.replayed else before.replayed + 1)
         case CaughtUp(delivered, cursor) =>
           Accumulated(true, before.data, if cursor.Some? then cursor else before.cursor, delivered)
  {
    assert (events + [event])[..|events|] == events;
  }

  lemma ShowsMore<S, V(!new)>(fold: (S, V) -> S, initial: S, events: seq<Happening<V>>, more: seq<Happening<V>>,
                              positions: seq<nat>, snapshots: seq<Accumulated<S>>)
    requires AllShow(fold, initial, events, positions, snapshots)
    ensures AllShow(fold, initial, events + more, positions, snapshots)
  {
    hide Meaning;
    forall i | 0 <= i < |positions|
      ensures snapshots[i] == Prefix(fold, initial, events + more, positions[i])
    {
      assert (events + more)[..positions[i]] == events[..positions[i]];
    }
  }

  lemma CallSnoc<V>(policy: Policy, sizeOf: SizeOf<V>, calls: seq<seq<Delivery<V>>>, call: seq<Delivery<V>>)
    requires AllBounded(policy, sizeOf, calls) && Bounded(policy, sizeOf, call)
    ensures AllBounded(policy, sizeOf, calls + [call])
  {
  }

  lemma SnapshotSnoc<S, V(!new)>(fold: (S, V) -> S, initial: S, events: seq<Happening<V>>, positions: seq<nat>,
                                 snapshots: seq<Accumulated<S>>, snapshot: Accumulated<S>)
    requires AllShow(fold, initial, events, positions, snapshots) && snapshot == Meaning(fold, initial, events)
    ensures AllShow(fold, initial, events, positions + [|events|], snapshots + [snapshot])
  {
    hide Meaning;
    assert events[..|events|] == events;
    assert snapshot == Prefix(fold, initial, events, |events|);
    hide Prefix;
  }

  /** Everything delivered is in a call or in the batch in hand. */
  ghost predicate Conserved<V>(calls: seq<seq<Delivery<V>>>, pending: seq<Delivery<V>>, events: seq<Happening<V>>) {
    Flatten(calls) + pending == Deliveries(events)
  }

  lemma ReduceConserves<S, V>(reduce: Reducer<S, V>, w: Work<S, V>, events: seq<Happening<V>>)
    requires Conserved(w.calls, w.pending, events)
    ensures Conserved(ReducePending(reduce, w).calls, [], events)
  {
    if w.pending != [] {
      FlattenSnoc(w.calls, w.pending);
    }
  }

  lemma DeliverConserves<V>(calls: seq<seq<Delivery<V>>>, pending: seq<Delivery<V>>, events: seq<Happening<V>>,
                            delivery: Delivery<V>)
    requires Conserved(calls, pending, events)
    ensures Conserved(calls, pending + [delivery], events + [Delivered(delivery)])
  {
    assert (events + [Delivered(delivery)])[..|events|] == events;
    assert Flatten(calls) + (pending + [delivery]) == (Flatten(calls) + pending) + [delivery];
  }

  lemma MarkConserves<V>(calls: seq<seq<Delivery<V>>>, pending: seq<Delivery<V>>, events: seq<Happening<V>>,
                         event: Happening<V>)
    requires Conserved(calls, pending, events) && event.CaughtUp?
    ensures Conserved(calls, pending, events + [event])
  {
    assert (events + [event])[..|events|] == events;
  }

  /** Reducing the batch in hand early changes nothing that the group means. */
  lemma ReduceFaithful<S(!new), V(!new)>(policy: Policy, sizeOf: SizeOf<V>, reduce: Reducer<S, V>, fold: (S, V) -> S,
                                         initial: S, events: seq<Happening<V>>, w: Work<S, V>)
    requires policy.Valid() && LeftFold(reduce, fold) && !w.died
    requires Caught(fold, w.acc, w.pending) == Meaning(fold, initial, events)
    requires w.pendingBytes == Bytes(policy, sizeOf, w.pending)
    requires w.pending != [] ==> policy.Within(|w.pending|, w.pendingBytes)
    requires AllBounded(policy, sizeOf, w.calls)
    ensures
      var r := ReducePending(reduce, w);
      && Faithful(policy, sizeOf, fold, initial, events, r) && r.pending == [] && r.snapshots == w.snapshots
      && r.acc == Meaning(fold, initial, events) && AllBounded(policy, sizeOf, r.calls)
  {
    ReduceCatches(reduce, fold, w);
    assert Bytes(policy, sizeOf, []) == 0;
    if w.pending != [] {
      CallSnoc(policy, sizeOf, w.calls, w.pending);
    }
    hide Meaning, Bytes, LeftFold, AllBounded;
  }

  lemma PushFaithful<S(!new), V(!new)>(policy: Policy, sizeOf: SizeOf<V>, reduce: Reducer<S, V>, fold: (S, V) -> S,
                                       initial: S, events: seq<Happening<V>>, w: Work<S, V>, d: Delivery<V>)
    requires policy.Valid() && LeftFold(reduce, fold) && Faithful(policy, sizeOf, fold, initial, events, w)
    requires AllBounded(policy, sizeOf, w.calls) && Admit(policy, sizeOf(d)).Admitted?
    requires !policy.Overflows(|w.pending|, w.pendingBytes, Admit(policy, sizeOf(d)).size)
    ensures
      var r := Push(policy, reduce, w, d, Admit(policy, sizeOf(d)).size);
      && Faithful(policy, sizeOf, fold, initial, events + [Delivered(d)], r) && r.snapshots == w.snapshots
      && AllBounded(policy, sizeOf, r.calls)
  {
    var size := Admit(policy, sizeOf(d)).size;
    var grown := w.(pending := w.pending + [d], pendingBytes := w.pendingBytes + size);
    CaughtSnoc(fold, w.acc, w.pending, d);
    BytesSnoc(policy, sizeOf, w.pending, d);
    MeaningSnoc(fold, initial, events, Delivered(d));
    hide Meaning, Bytes, LeftFold, AllBounded, Caught, ReducePending;
    if policy.Full(|grown.pending|, grown.pendingBytes) {
      ReduceFaithful(policy, sizeOf, reduce, fold, initial, events + [Delivered(d)], grown);
    }
  }

  lemma NotFullIsWithin(policy: Policy, items: nat, bytes: nat)
    requires policy.Valid() && 0 < items && !policy.Full(items, bytes)
    ensures policy.Within(items, bytes)
  {
  }

  /** A group in progress after one more event. */
  lemma HandleFaithful<S(!new), V(!new)>(policy: Policy, sizeOf: SizeOf<V>, reduce: Reducer<S, V>, fold: (S, V) -> S,
                                         initial: S, events: seq<Happening<V>>, positions: seq<nat>, w: Work<S, V>,
                                         event: Happening<V>)
    requires policy.Valid() && LeftFold(reduce, fold)
    requires event.Delivered? ==> Admit(policy, sizeOf(event.delivery)).Admitted?
    requires Faithful(policy, sizeOf, fold, initial, events, w) && AllBounded(policy, sizeOf, w.calls)
    requires AllShow(fold, initial, events, positions, w.snapshots)
    ensures
      var r := Handle(policy, sizeOf, reduce, w, event);
      && Faithful(policy, sizeOf, fold, initial, events + [event], r) && AllBounded(policy, sizeOf, r.calls)
      && AllShow(fold, initial, events + [event], positions + Mark(event, |events| + 1), r.snapshots)
  {
    if w.pending != [] {
      NotFullIsWithin(policy, |w.pending|, w.pendingBytes);
    }
    ShowsMore(fold, initial, events, [event], positions, w.snapshots);
    ReduceFaithful(policy, sizeOf, reduce, fold, initial, events, w);
    hide AllShow, AllBounded, LeftFold, ReducePending, Meaning, Bytes, Caught, Push;
    match event {
      case Delivered(d) =>
        assert positions + Mark(event, |events| + 1) == positions;
        if policy.Overflows(|w.pending|, w.pendingBytes, Admit(policy, sizeOf(d)).size) {
          PushFaithful(policy, sizeOf, reduce, fold, initial, events, ReducePending(reduce, w), d);
        } else {
          PushFaithful(policy, sizeOf, reduce, fold, initial, events, w, d);
        }
      case CaughtUp(delivered, cursor) =>
        CaughtUpFaithful(policy, sizeOf, reduce, fold, initial, events, positions, w, event);
    }
  }

  lemma CaughtUpFaithful<S(!new), V(!new)>(
    policy: Policy, sizeOf: SizeOf<V>, reduce: Reducer<S, V>, fold: (S, V) -> S,
    initial: S, events: seq<Happening<V>>, positions: seq<nat>, w: Work<S, V>, event: Happening<V>)
    requires event.CaughtUp? && !w.died
    requires AllShow(fold, initial, events + [event], positions, w.snapshots)
    requires
      var r := ReducePending(reduce, w);
      && Faithful(policy, sizeOf, fold, initial, events, r) && r.pending == [] && r.snapshots == w.snapshots
      && r.acc == Meaning(fold, initial, events)
    ensures
      var r := Handle(policy, sizeOf, reduce, w, event);
      && Faithful(policy, sizeOf, fold, initial, events + [event], r)
      && r.calls == ReducePending(reduce, w).calls
      && AllShow(fold, initial, events + [event], positions + Mark(event, |events| + 1), r.snapshots)
  {
    var r := Handle(policy, sizeOf, reduce, w, event);
    MeaningSnoc(fold, initial, events, event);
    assert r.acc == Meaning(fold, initial, events + [event]);
    assert Caught(fold, r.acc, []) == r.acc;
    hide AllShow, Meaning, ReducePending, Bytes, Caught;
    SnapshotSnoc(fold, initial, events + [event], positions, w.snapshots, r.acc);
  }

  lemma HandleConserves<S, V>(policy: Policy, sizeOf: SizeOf<V>, reduce: Reducer<S, V>,
                              events: seq<Happening<V>>, w: Work<S, V>, event: Happening<V>)
    requires !Handle(policy, sizeOf, reduce, w, event).died && Conserved(w.calls, w.pending, events)
    ensures
      var r := Handle(policy, sizeOf, reduce, w, event);
      Conserved(r.calls, r.pending, events + [event])
  {
    ReduceConserves(reduce, w, events);
    ReducePendingFields(reduce, w);
    hide Conserved;
    match event {
      case Delivered(d) =>
        var size := Admit(policy, sizeOf(d)).size;
        var room := if policy.Overflows(|w.pending|, w.pendingBytes, size) then ReducePending(reduce, w) else w;
        hide ReducePending;
        DeliverConserves(room.calls, room.pending, events, d);
        var grown := room.(pending := room.pending + [d], pendingBytes := room.pendingBytes + size);
        ReduceConserves(reduce, grown, events + [event]);
        ReducePendingFields(reduce, grown);
      case CaughtUp(_, _) =>
        hide ReducePending;
        MarkConserves(ReducePending(reduce, w).calls, [], events, event);
    }
  }

  lemma ReducePendingFields<S, V>(reduce: Reducer<S, V>, w: Work<S, V>)
    ensures ReducePending(reduce, w).pending == [] && ReducePending(reduce, w).died == w.died
  {
  }

  // ---------------------------------------------------------------------------------------------
  // Any grouping
  // ---------------------------------------------------------------------------------------------

  /** A group is worked on to its end exactly when the sizes of all its deliveries are valid. */
  lemma {:induction false} DiesIff<S, V>(policy: Policy, sizeOf: SizeOf<V>, reduce: Reducer<S, V>,
                                         acc: Accumulated<S>, events: seq<Happening<V>>)
    ensures HandleAll(policy, sizeOf, reduce, Begin(acc), events).died
         <==> !ValidSizes(policy, sizeOf, Deliveries(events))
    decreases |events|
  {
    if events != [] {
      var front, last := events[..|events| - 1], events[|events| - 1];
      DiesIff(policy, sizeOf, reduce, acc, front);
      ValidConcat(policy, sizeOf, Deliveries(front), if last.Delivered? then [last.delivery] else []);
      HandleDies(policy, sizeOf, reduce, HandleAll(policy, sizeOf, reduce, Begin(acc), front), last);
      hide Handle, ValidSizes;
    }
  }

  lemma HandleDies<S, V>(policy: Policy, sizeOf: SizeOf<V>, reduce: Reducer<S, V>, w: Work<S, V>, event: Happening<V>)
    ensures Handle(policy, sizeOf, reduce, w, event).died
         <==> w.died || !ValidSizes(policy, sizeOf, if event.Delivered? then [event.delivery] else [])
  {
    if event.Delivered? {
      assert ValidSizes(policy, sizeOf, [event.delivery]) <==> Admit(policy, sizeOf([event.delivery][0])).Admitted?;
    }
  }

  lemma ValidConcat<V>(policy: Policy, sizeOf: SizeOf<V>, a: seq<Delivery<V>>, b: seq<Delivery<V>>)
    ensures ValidSizes(policy, sizeOf, a + b) <==> ValidSizes(policy, sizeOf, a) && ValidSizes(policy, sizeOf, b)
  {
    if ValidSizes(policy, sizeOf, a + b) {
      forall i | 0 <= i < |b|
        ensures Admit(policy, sizeOf(b[i])).Admitted?
      {
        assert (a + b)[|a| + i] == b[i];
      }
      forall i | 0 <= i < |a|
        ensures Admit(policy, sizeOf(a[i])).Admitted?
      {
        assert (a + b)[i] == a[i];
      }
    }
  }

  /** The batch in hand has the load that the sizes imply. */
  lemma {:induction false} HandleAllFills<S, V>(policy: Policy, sizeOf: SizeOf<V>, reduce: Reducer<S, V>,
                                                acc: Accumulated<S>, events: seq<Happening<V>>)
    requires !HandleAll(policy, sizeOf, reduce, Begin(acc), events).died
    ensures
      var r := HandleAll(policy, sizeOf, reduce, Begin(acc), events);
      Load(|r.pending|, r.pendingBytes) == Fill(policy, sizeOf, events) && (r.pending == [] ==> r.pendingBytes == 0)
    decreases |events|
  {
    if events != [] {
      var w := HandleAll(policy, sizeOf, reduce, Begin(acc), events[..|events| - 1]);
      assert !w.died;
      HandleAllFills(policy, sizeOf, reduce, acc, events[..|events| - 1]);
      HandleFills(policy, sizeOf, reduce, w, events);
    }
  }

  lemma HandleFills<S, V>(policy: Policy, sizeOf: SizeOf<V>, reduce: Reducer<S, V>, w: Work<S, V>,
                          events: seq<Happening<V>>)
    requires events != [] && !w.died && (w.pending == [] ==> w.pendingBytes == 0)
    requires Load(|w.pending|, w.pendingBytes) == Fill(policy, sizeOf, events[..|events| - 1])
    requires !Handle(policy, sizeOf, reduce, w, events[|events| - 1]).died
    ensures
      var r := Handle(policy, sizeOf, reduce, w, events[|events| - 1]);
      Load(|r.pending|, r.pendingBytes) == Fill(policy, sizeOf, events) && (r.pending == [] ==> r.pendingBytes == 0)
  {
  }

  lemma {:induction false} HandleAllFaithful<S(!new), V(!new)>(
    policy: Policy, sizeOf: SizeOf<V>, reduce: Reducer<S, V>, fold: (S, V) -> S, initial: S,
    earlier: seq<Happening<V>>, acc: Accumulated<S>, events: seq<Happening<V>>)
    requires policy.Valid() && LeftFold(reduce, fold) && ValidSizes(policy, sizeOf, Deliveries(events))
    requires acc == Meaning(fold, initial, earlier)
    ensures
      var r := HandleAll(policy, sizeOf, reduce, Begin(acc), events);
      && Faithful(policy, sizeOf, fold, initial, earlier + events, r) && AllBounded(policy, sizeOf, r.calls)
      && AllShow(fold, initial, earlier + events, Marks(events, |earlier|), r.snapshots)
      && Conserved(r.calls, r.pending, events)
    decreases |events|
  {
    hide *;
    if events == [] {
      BeginFaithful(policy, sizeOf, reduce, fold, initial, earlier, acc, events);
    } else {
      var front, last := events[..|events| - 1], events[|events| - 1];
      assert (earlier + front) + [last] == earlier + events && front + [last] == events;
      LastValid(policy, sizeOf, events);
      HandleAllFaithful(policy, sizeOf, reduce, fold, initial, earlier, acc, front);
      var w := HandleAll(policy, sizeOf, reduce, Begin(acc), front);
      HandleFaithful(policy, sizeOf, reduce, fold, initial, earlier + front, Marks(front, |earlier|), w, last);
      Undead(policy, sizeOf, fold, initial, earlier + events, Handle(policy, sizeOf, reduce, w, last));
      HandleConserves(policy, sizeOf, reduce, front, w, last);
      LastHandled(policy, sizeOf, reduce, Begin(acc), events, |earlier|);
    }
  }

  lemma BeginFaithful<S(!new), V(!new)>(
    policy: Policy, sizeOf: SizeOf<V>, reduce: Reducer<S, V>, fold: (S, V) -> S, initial: S,
    earlier: seq<Happening<V>>, acc: Accumulated<S>, events: seq<Happening<V>>)
    requires policy.Valid() && acc == Meaning(fold, initial, earlier) && events == []
    ensures
      var r := HandleAll(policy, sizeOf, reduce, Begin(acc), events);
      && Faithful(policy, sizeOf, fold, initial, earlier + events, r) && AllBounded(policy, sizeOf, r.calls)
      && AllShow(fold, initial, earlier + events, Marks(events, |earlier|), r.snapshots)
      && Conserved(r.calls, r.pending, events)
  {
    assert earlier + events == earlier;
    hide Meaning, Prefix;
  }

  lemma LastHandled<S, V>(policy: Policy, sizeOf: SizeOf<V>, reduce: Reducer<S, V>, w: Work<S, V>,
                          events: seq<Happening<V>>, offset: nat)
    requires events != []
    ensures
      var front, last := events[..|events| - 1], events[|events| - 1];
      && HandleAll(policy, sizeOf, reduce, w, events)
         == Handle(policy, sizeOf, reduce, HandleAll(policy, sizeOf, reduce, w, front), last)
      && Marks(events, offset) == Marks(front, offset) + Mark(last, offset + |events|)
  {
    hide Handle, Mark;
  }

  lemma LastValid<V>(policy: Policy, sizeOf: SizeOf<V>, events: seq<Happening<V>>)
    requires events != [] && ValidSizes(policy, sizeOf, Deliveries(events))
    ensures ValidSizes(policy, sizeOf, Deliveries(events[..|events| - 1]))
    ensures events[|events| - 1].Delivered? ==>
      Admit(policy, sizeOf(events[|events| - 1].delivery)).Admitted?
  {
    var front, last := events[..|events| - 1], events[|events| - 1];
    ValidConcat(policy, sizeOf, Deliveries(front), if last.Delivered? then [last.delivery] else []);
    if last.Delivered? {
      assert [last.delivery][0] == last.delivery;
    }
  }

  lemma Undead<S, V(!new)>(policy: Policy, sizeOf: SizeOf<V>, fold: (S, V) -> S, initial: S,
                           events: seq<Happening<V>>, w: Work<S, V>)
    requires Faithful(policy, sizeOf, fold, initial, events, w)
    ensures !w.died
  {
  }

  lemma FinishFaithful<S(!new), V(!new)>(
    policy: Policy, sizeOf: SizeOf<V>, reduce: Reducer<S, V>, fold: (S, V) -> S, initial: S,
    events: seq<Happening<V>>, positions: seq<nat>, w: Work<S, V>)
    requires policy.Valid() && LeftFold(reduce, fold)
    requires Faithful(policy, sizeOf, fold, initial, events, w) && AllBounded(policy, sizeOf, w.calls)
    requires AllShow(fold, initial, events, positions, w.snapshots)
    ensures
      var r := Finish(reduce, w);
      && !r.died && r.acc == Meaning(fold, initial, events) && AllBounded(policy, sizeOf, r.calls)
      && r.calls == ReducePending(reduce, w).calls
      && AllShow(fold, initial, events, positions + (if r.acc.live && w.pending != [] then [|events|] else []),
                 r.snapshots)
  {
    if w.pending != [] {
      NotFullIsWithin(policy, |w.pending|, w.pendingBytes);
    }
    ReduceFaithful(policy, sizeOf, reduce, fold, initial, events, w);
    hide AllShow, AllBounded, LeftFold, ReducePending, Meaning, Bytes, Caught;
    var reduced := ReducePending(reduce, w);
    if reduced.acc.live && w.pending != [] {
      SnapshotSnoc(fold, initial, events, positions, w.snapshots, reduced.acc);
    } else {
      assert positions + [] == positions;
    }
  }

  lemma GroupFaithful<S(!new), V(!new)>(
    policy: Policy, sizeOf: SizeOf<V>, reduce: Reducer<S, V>, fold: (S, V) -> S, initial: S,
    earlier: seq<Happening<V>>, acc: Accumulated<S>, events: seq<Happening<V>>)
    requires policy.Valid() && LeftFold(reduce, fold) && ValidSizes(policy, sizeOf, Deliveries(events))
    requires acc == Meaning(fold, initial, earlier)
    ensures
      var r := Group(policy, sizeOf, reduce, acc, events);
      && !r.died && r.acc == Meaning(fold, initial, earlier + events) && AllBounded(policy, sizeOf, r.calls)
      && AllShow(fold, initial, earlier + events,
                 Marks(events, |earlier|) + EndMark(policy, sizeOf, earlier, events), r.snapshots)
      && Flatten(r.calls) == Deliveries(events)
  {
    hide Faithful, AllBounded, AllShow, LeftFold, ValidSizes, Meaning, Begin, HandleAll, Finish, Fill, CaughtUpIn;
    HandleAllFaithful(policy, sizeOf, reduce, fold, initial, earlier, acc, events);
    var w := HandleAll(policy, sizeOf, reduce, Begin(acc), events);
    FinishFaithful(policy, sizeOf, reduce, fold, initial, earlier + events, Marks(events, |earlier|), w);
    DiesIff(policy, sizeOf, reduce, acc, events);
    HandleAllFills(policy, sizeOf, reduce, acc, events);
    LiveIffCaughtUp(fold, initial, earlier + events);
    ReduceConserves(reduce, w, events);
    assert Flatten(ReducePending(reduce, w).calls) + [] == Flatten(ReducePending(reduce, w).calls);
  }

  lemma {:induction false} DeliveriesConcat<V>(a: seq<Happening<V>>, b: seq<Happening<V>>)
    ensures Deliveries(a + b) == Deliveries(a) + Deliveries(b)
    decreases |b|
  {
    if b == [] {
      assert a + b == a;
    } else {
      assert (a + b)[..|a + b| - 1] == a + b[..|b| - 1];
      DeliveriesConcat(a, b[..|b| - 1]);
    }
  }

  lemma {:induction false} FlattenConcat<T>(a: seq<seq<T>>, b: seq<seq<T>>)
    ensures Flatten(a + b) == Flatten(a) + Flatten(b)
    decreases |b|
  {
    if b == [] {
      assert a + b == a;
    } else {
      assert (a + b)[..|a + b| - 1] == a + b[..|b| - 1];
      FlattenConcat(a, b[..|b| - 1]);
    }
  }

  lemma ShowConcat<S, V(!new)>(fold: (S, V) -> S, initial: S, events: seq<Happening<V>>,
                               before: seq<nat>, a: seq<Accumulated<S>>, after: seq<nat>, b: seq<Accumulated<S>>)
    requires AllShow(fold, initial, events, before, a) && AllShow(fold, initial, events, after, b)
    ensures AllShow(fold, initial, events, before + after, a + b)
  {
    hide Prefix;
  }

  lemma BoundedConcat<V>(policy: Policy, sizeOf: SizeOf<V>, a: seq<seq<Delivery<V>>>, b: seq<seq<Delivery<V>>>)
    requires AllBounded(policy, sizeOf, a) && AllBounded(policy, sizeOf, b)
    ensures AllBounded(policy, sizeOf, a + b)
  {
    hide Bounded;
  }

  /** A group ends early when it holds a delivery whose size is invalid, and the stream with it. */
  lemma {:induction false} GroupsDie<S, V>(policy: Policy, sizeOf: SizeOf<V>, reduce: Reducer<S, V>, initial: S,
                                           groups: seq<seq<Happening<V>>>)
    ensures Groups(policy, sizeOf, reduce, initial, groups).died
         <==> !ValidSizes(policy, sizeOf, Deliveries(Flatten(groups)))
    decreases |groups|
  {
    if groups != [] {
      var front, last := groups[..|groups| - 1], groups[|groups| - 1];
      hide HandleAll, ValidSizes, Deliveries;
      GroupsDie(policy, sizeOf, reduce, initial, front);
      DeliveriesConcat(Flatten(front), last);
      ValidConcat(policy, sizeOf, Deliveries(Flatten(front)), Deliveries(last));
      DiesIff(policy, sizeOf, reduce, Groups(policy, sizeOf, reduce, initial, front).acc, last);
    }
  }

  /** A stream that fails shows what the groups before the one that fails have shown, and nothing of that one. */
  lemma {:induction false} FailureShowsNothing<S, V>(policy: Policy, sizeOf: SizeOf<V>, reduce: Reducer<S, V>,
                                                     initial: S, groups: seq<seq<Happening<V>>>) returns (n: nat)
    requires Groups(policy, sizeOf, reduce, initial, groups).died
    ensures n < |groups| && !ValidSizes(policy, sizeOf, Deliveries(groups[n]))
    ensures
      var r, before := Groups(policy, sizeOf, reduce, initial, groups),
                       Groups(policy, sizeOf, reduce, initial, groups[..n]);
      !before.died && r.acc == before.acc && r.snapshots == before.snapshots
    decreases |groups|
  {
    var front, last := groups[..|groups| - 1], groups[|groups| - 1];
    hide HandleAll, ValidSizes, Deliveries;
    if Groups(policy, sizeOf, reduce, initial, front).died {
      n := FailureShowsNothing(policy, sizeOf, reduce, initial, front);
      assert front[..n] == groups[..n];
    } else {
      n := |front|;
      DiesIff(policy, sizeOf, reduce, Groups(policy, sizeOf, reduce, initial, front).acc, last);
    }
  }

  /**
   However the event stream is grouped, it fails exactly when a delivery's size is invalid; and otherwise the data,
   cursor, phase and replay count are those of the stream read event by event, the reducer sees every delivery once
   and in order, in non-empty calls within both bounds, and the snapshots show the stream at the given positions.
   */
  lemma {:induction false} GroupingIndependent<S(!new), V(!new)>(
    policy: Policy, sizeOf: SizeOf<V>, reduce: Reducer<S, V>, fold: (S, V) -> S, initial: S,
    groups: seq<seq<Happening<V>>>)
    requires policy.Valid() && LeftFold(reduce, fold)
    ensures
      var r := Groups(policy, sizeOf, reduce, initial, groups);
      && (r.died <==> !ValidSizes(policy, sizeOf, Deliveries(Flatten(groups))))
      && (!r.died ==>
            && r.acc == Meaning(fold, initial, Flatten(groups))
            && AllBounded(policy, sizeOf, r.calls) && Flatten(r.calls) == Deliveries(Flatten(groups))
            && AllShow(fold, initial, Flatten(groups), Positions(policy, sizeOf, groups), r.snapshots))
    decreases |groups|
  {
    hide AllBounded, AllShow, LeftFold, ValidSizes, Meaning, Deliveries, Group, Marks, EndMark;
    GroupsDie(policy, sizeOf, reduce, initial, groups);
    if groups == [] {
      NoGroups(policy, sizeOf, reduce, fold, initial);
    } else if !Groups(policy, sizeOf, reduce, initial, groups).died {
      var front, last := groups[..|groups| - 1], groups[|groups| - 1];
      GroupingIndependent(policy, sizeOf, reduce, fold, initial, front);
      NextGroup(policy, sizeOf, reduce, fold, initial, front, last);
      assert front + [last] == groups;
    }
  }

  lemma NoGroups<S(!new), V(!new)>(policy: Policy, sizeOf: SizeOf<V>, reduce: Reducer<S, V>, fold: (S, V) -> S,
                                   initial: S)
    ensures
      var r := Groups(policy, sizeOf, reduce, initial, []);
      && r.acc == Meaning(fold, initial, []) && AllBounded(policy, sizeOf, r.calls)
      && Flatten(r.calls) == Deliveries<V>([]) && AllShow(fold, initial, [], [], r.snapshots)
  {
  }

  lemma NextGroup<S(!new), V(!new)>(policy: Policy, sizeOf: SizeOf<V>, reduce: Reducer<S, V>, fold: (S, V) -> S,
                                    initial: S, front: seq<seq<Happening<V>>>, last: seq<Happening<V>>)
    requires policy.Valid() && LeftFold(reduce, fold)
    requires ValidSizes(policy, sizeOf, Deliveries(Flatten(front + [last])))
    requires
      var r := Groups(policy, sizeOf, reduce, initial, front);
      && !r.died && r.acc == Meaning(fold, initial, Flatten(front))
      && AllBounded(policy, sizeOf, r.calls) && Flatten(r.calls) == Deliveries(Flatten(front))
      && AllShow(fold, initial, Flatten(front), Positions(policy, sizeOf, front), r.snapshots)
    ensures
      var r := Groups(policy, sizeOf, reduce, initial, front + [last]);
      && r.acc == Meaning(fold, initial, Flatten(front + [last]))
      && AllBounded(policy, sizeOf, r.calls) && Flatten(r.calls) == Deliveries(Flatten(front + [last]))
      && AllShow(fold, initial, Flatten(front + [last]), Positions(policy, sizeOf, front + [last]), r.snapshots)
  {
    hide AllBounded, AllShow, LeftFold, ValidSizes, Meaning, Deliveries, Group, Marks, EndMark, Flatten;
    var earlier := Flatten(front);
    FlattenSnoc(front, last);
    DeliveriesConcat(earlier, last);
    ValidConcat(policy, sizeOf, Deliveries(earlier), Deliveries(last));
    var before := Groups(policy, sizeOf, reduce, initial, front);
    GroupFaithful(policy, sizeOf, reduce, fold, initial, earlier, before.acc, last);
    var w := Group(policy, sizeOf, reduce, before.acc, last);
    ShowsMore(fold, initial, earlier, last, Positions(policy, sizeOf, front), before.snapshots);
    ShowConcat(fold, initial, earlier + last, Positions(policy, sizeOf, front), before.snapshots,
               Marks(last, |earlier|) + EndMark(policy, sizeOf, earlier, last), w.snapshots);
    BoundedConcat(policy, sizeOf, before.calls, w.calls);
    FlattenConcat(before.calls, w.calls);
    assert (front + [last])[..|front|] == front;
  }

  lemma {:induction false} LiveIffCaughtUp<S, V>(fold: (S, V) -> S, initial: S, events: seq<Happening<V>>)
    ensures Meaning(fold, initial, events).live <==> CaughtUpIn(events)
    decreases |events|
  {
    if events != [] {
      LiveIffCaughtUp(fold, initial, events[..|events| - 1]);
      if CaughtUpIn(events[..|events| - 1]) {
        var i :| 0 <= i < |events| - 1 && events[..|events| - 1][i].CaughtUp?;
        assert events[i].CaughtUp?;
      }
    }
  }

  // ---------------------------------------------------------------------------------------------
  // Which states are shown
  // ---------------------------------------------------------------------------------------------

  predicate Rising(positions: seq<nat>) {
    forall i, j :: 0 <= i < j < |positions| ==> positions[i] < positions[j]
  }

  predicate MarkedAt<V>(events: seq<Happening<V>>, offset: nat, p: nat) {
    offset < p <= offset + |events| && events[p - offset - 1].CaughtUp?
  }

  lemma {:induction false} MarksExact<V>(events: seq<Happening<V>>, offset: nat)
    ensures Rising(Marks(events, offset))
    ensures forall p :: p in Marks(events, offset) <==> MarkedAt(events, offset, p)
    decreases |events|
  {
    hide MarkedAt;
    if events == [] {
      assert forall p :: !MarkedAt(events, offset, p) by {
        NoneMarked(events, offset);
      }
    } else {
      var front, last := Marks(events[..|events| - 1], offset), Mark(events[|events| - 1], offset + |events|);
      hide Rising, Mark;
      MarksExact(events[..|events| - 1], offset);
      MarkedSnoc(events, offset);
      MarkRises(events[|events| - 1], offset + |events|);
      ConcatRises(front, last, offset + |events[..|events| - 1]|);
    }
  }

  lemma NoneMarked<V>(events: seq<Happening<V>>, offset: nat)
    requires events == []
    ensures forall p :: !MarkedAt(events, offset, p)
  {
  }

  lemma MarkedSnoc<V>(events: seq<Happening<V>>, offset: nat)
    requires events != []
    ensures forall p :: MarkedAt(events, offset, p)
                   <==> MarkedAt(events[..|events| - 1], offset, p)
                        || p in Mark(events[|events| - 1], offset + |events|)
    ensures
      var front := events[..|events| - 1];
      forall p: nat :: MarkedAt(front, offset, p) ==> p <= offset + |front|
  {
  }

  lemma MarkRises<V>(event: Happening<V>, position: nat)
    ensures Rising(Mark(event, position)) && forall p :: p in Mark(event, position) ==> p == position
  {
  }

  lemma FillStarts<V>(policy: Policy, sizeOf: SizeOf<V>, events: seq<Happening<V>>)
    ensures Fill(policy, sizeOf, events).items != 0 ==> events != [] && events[|events| - 1].Delivered?
  {
  }

  /** The positions shown by one group. */
  lemma GroupPositions<V>(policy: Policy, sizeOf: SizeOf<V>, earlier: seq<Happening<V>>, events: seq<Happening<V>>)
    ensures
      var positions := Marks(events, |earlier|) + EndMark(policy, sizeOf, earlier, events);
      && Rising(positions)
      && (forall p :: p in positions ==> Ready(earlier + events, p) && |earlier| < p)
      && (forall p :: MarkedAt(events, |earlier|, p) ==> p in positions)
  {
    hide *;
    var marks, end := Marks(events, |earlier|), EndMark(policy, sizeOf, earlier, events);
    MarksExact(events, |earlier|);
    forall p | p in marks
      ensures Ready(earlier + events, p) && |earlier| < p
    {
      MarkedReady(earlier, events, p);
    }
    EndReady(policy, sizeOf, earlier, events);
    if end == [] {
      assert marks + end == marks;
    } else {
      forall p | p in marks
        ensures p <= |earlier| + |events| - 1
      {
        EndUnmarked(policy, sizeOf, earlier, events, p);
      }
      ConcatRises(marks, end, |earlier| + |events| - 1);
    }
  }

  /** After that many events the stream has caught up. */
  predicate Ready<V>(events: seq<Happening<V>>, p: nat) {
    0 < p <= |events| && CaughtUpIn(events[..p])
  }

  lemma MarkedReady<V>(earlier: seq<Happening<V>>, events: seq<Happening<V>>, p: nat)
    requires MarkedAt(events, |earlier|, p)
    ensures Ready(earlier + events, p) && |earlier| < p
  {
    assert (earlier + events)[..p][p - 1] == events[p - |earlier| - 1];
  }

  lemma EndReady<V>(policy: Policy, sizeOf: SizeOf<V>, earlier: seq<Happening<V>>, events: seq<Happening<V>>)
    ensures
      var end := EndMark(policy, sizeOf, earlier, events);
      && Rising(end) && (end != [] ==> events != [])
      && (forall p :: p in end ==> Ready(earlier + events, p) && |earlier| + |events| - 1 < p && |earlier| < p)
  {
    FillStarts(policy, sizeOf, events);
    assert (earlier + events)[..|earlier| + |events|] == earlier + events;
    hide Fill, CaughtUpIn;
  }

  lemma EndUnmarked<V>(policy: Policy, sizeOf: SizeOf<V>, earlier: seq<Happening<V>>, events: seq<Happening<V>>,
                       p: nat)
    requires EndMark(policy, sizeOf, earlier, events) != [] && MarkedAt(events, |earlier|, p)
    ensures p <= |earlier| + |events| - 1
  {
    FillStarts(policy, sizeOf, events);
    hide Fill, CaughtUpIn;
  }

  /**
   The states shown, whatever the groups: each later in the stream than the one before, none before the stream has
   caught up, and one for every caught-up event.
   */
  lemma ShownOnce<S(!new), V(!new)>(policy: Policy, sizeOf: SizeOf<V>, reduce: Reducer<S, V>, fold: (S, V) -> S,
                                    initial: S, groups: seq<seq<Happening<V>>>)
    requires policy.Valid() && LeftFold(reduce, fold)
    ensures
      var r, events, positions :=
        Groups(policy, sizeOf, reduce, initial, groups), Flatten(groups), Positions(policy, sizeOf, groups);
      !r.died ==>
        && AllShow(fold, initial, events, positions, r.snapshots)
        && Rising(positions)
        && (forall p :: p in positions ==> Ready(events, p))
        && (forall p :: MarkedAt(events, 0, p) ==> p in positions)
  {
    hide *;
    GroupingIndependent(policy, sizeOf, reduce, fold, initial, groups);
    PositionsRise(policy, sizeOf, groups);
  }

  lemma {:induction false} PositionsRise<V>(policy: Policy, sizeOf: SizeOf<V>, groups: seq<seq<Happening<V>>>)
    ensures
      var positions, events := Positions(policy, sizeOf, groups), Flatten(groups);
      && Rising(positions)
      && (forall p :: p in positions ==> Ready(events, p))
      && (forall p :: MarkedAt(events, 0, p) ==> p in positions)
    decreases |groups|
  {
    hide Rising, Ready, MarkedAt, Marks, EndMark;
    if groups == [] {
      NoneMarked(Flatten(groups), 0);
      NoneRises();
    } else {
      var front, last := groups[..|groups| - 1], groups[|groups| - 1];
      var earlier := Flatten(front);
      PositionsRise(policy, sizeOf, front);
      hide Positions;
      ShownNext(Positions(policy, sizeOf, front), earlier, last);
      GroupPositions(policy, sizeOf, earlier, last);
      ConcatRises(Positions(policy, sizeOf, front), Marks(last, |earlier|) + EndMark(policy, sizeOf, earlier, last),
                  |earlier|);
      PositionsNext(policy, sizeOf, groups);
    }
  }

  lemma PositionsNext<V>(policy: Policy, sizeOf: SizeOf<V>, groups: seq<seq<Happening<V>>>)
    requires groups != []
    ensures
      var front, last := groups[..|groups| - 1], groups[|groups| - 1];
      && Positions(policy, sizeOf, groups)
         == Positions(policy, sizeOf, front)
            + (Marks(last, |Flatten(front)|) + EndMark(policy, sizeOf, Flatten(front), last))
      && Flatten(groups) == Flatten(front) + last
  {
    hide Marks, EndMark;
  }

  lemma NoneRises()
    ensures Rising([])
  {
  }

  /** What was shown stays ready, and what is marked in the longer stream was marked before or in the new group. */
  lemma ShownNext<V>(positions: seq<nat>, earlier: seq<Happening<V>>, last: seq<Happening<V>>)
    requires forall p :: p in positions ==> Ready(earlier, p)
    ensures forall p :: p in positions ==> Ready(earlier + last, p) && p <= |earlier|
    ensures forall p :: MarkedAt(earlier + last, 0, p) ==> MarkedAt(earlier, 0, p) || MarkedAt(last, |earlier|, p)
  {
    forall p | p in positions
      ensures Ready(earlier + last, p)
    {
      assert Ready(earlier, p);
      assert (earlier + last)[..p] == earlier[..p];
    }
  }

  lemma ConcatRises(a: seq<nat>, b: seq<nat>, bound: nat)
    requires Rising(a) && Rising(b)
    requires (forall p :: p in a ==> p <= bound) && (forall p :: p in b ==> bound < p)
    ensures Rising(a + b)
  {
    assert forall i :: 0 <= i < |a| ==> a[i] in a;
    assert forall i :: 0 <= i < |b| ==> b[i] in b;
  }

  lemma {:induction false} HandleAllLive<S, V>(policy: Policy, sizeOf: SizeOf<V>, reduce: Reducer<S, V>, w: Work<S, V>,
                                               events: seq<Happening<V>>)
    requires !HandleAll(policy, sizeOf, reduce, w, events).died
    ensures HandleAll(policy, sizeOf, reduce, w, events).acc.live <==> w.acc.live || CaughtUpIn(events)
    decreases |events|
  {
    if events != [] {
      var front, last := events[..|events| - 1], events[|events| - 1];
      HandleAllLive(policy, sizeOf, reduce, w, front);
      CaughtUpConcat(front, [last]);
      assert front + [last] == events;
      HandleLive(policy, sizeOf, reduce, HandleAll(policy, sizeOf, reduce, w, front), last);
      hide Handle, CaughtUpIn;
    }
  }

  lemma HandleLive<S, V>(policy: Policy, sizeOf: SizeOf<V>, reduce: Reducer<S, V>, w: Work<S, V>, event: Happening<V>)
    requires !Handle(policy, sizeOf, reduce, w, event).died
    ensures !w.died && (Handle(policy, sizeOf, reduce, w, event).acc.live <==> w.acc.live || CaughtUpIn([event]))
  {
    assert CaughtUpIn([event]) <==> [event][0].CaughtUp?;
  }

  lemma CaughtUpConcat<V>(a: seq<Happening<V>>, b: seq<Happening<V>>)
    ensures CaughtUpIn(a + b) <==> CaughtUpIn(a) || CaughtUpIn(b)
  {
    if CaughtUpIn(a) {
      var i :| 0 <= i < |a| && a[i].CaughtUp?;
      assert (a + b)[i].CaughtUp?;
    }
    if CaughtUpIn(b) {
      var i :| 0 <= i < |b| && b[i].CaughtUp?;
      assert (a + b)[|a| + i].CaughtUp?;
    }
  }

  /** The phase after some groups is live exactly when the stream has caught up. */
  lemma {:induction false} GroupsLive<S, V>(policy: Policy, sizeOf: SizeOf<V>, reduce: Reducer<S, V>, initial: S,
                                            groups: seq<seq<Happening<V>>>)
    requires !Groups(policy, sizeOf, reduce, initial, groups).died
    ensures Groups(policy, sizeOf, reduce, initial, groups).acc.live <==> CaughtUpIn(Flatten(groups))
    decreases |groups|
  {
    if groups != [] {
      var front, last := groups[..|groups| - 1], groups[|groups| - 1];
      GroupsLive(policy, sizeOf, reduce, initial, front);
      hide CaughtUpIn, HandleAll;
      CaughtUpConcat(Flatten(front), last);
      HandleAllLive(policy, sizeOf, reduce, Begin(Groups(policy, sizeOf, reduce, initial, front).acc), last);
    }
  }

  /** The last event of a group, and the end of the group, add at most one snapshot: that of the whole group. */
  lemma GroupEnds<S, V>(policy: Policy, sizeOf: SizeOf<V>, reduce: Reducer<S, V>, acc: Accumulated<S>,
                        events: seq<Happening<V>>)
    requires events != [] && !Group(policy, sizeOf, reduce, acc, events).died
    ensures
      var w := Group(policy, sizeOf, reduce, acc, events);
      var before := HandleAll(policy, sizeOf, reduce, Begin(acc), events[..|events| - 1]);
      var ends := events[|events| - 1].CaughtUp? || Fill(policy, sizeOf, events).items != 0;
      w.snapshots == before.snapshots + (if w.acc.live && ends then [w.acc] else [])
  {
    var before := HandleAll(policy, sizeOf, reduce, Begin(acc), events[..|events| - 1]);
    var handled := HandleAll(policy, sizeOf, reduce, Begin(acc), events);
    HandleAllFills(policy, sizeOf, reduce, acc, events);
    assert handled == Handle(policy, sizeOf, reduce, before, events[|events| - 1]);
    FillStarts(policy, sizeOf, events);
    hide HandleAll, Fill;
    LastSnapshot(policy, sizeOf, reduce, before, events[|events| - 1]);
  }

  lemma LastSnapshot<S, V>(policy: Policy, sizeOf: SizeOf<V>, reduce: Reducer<S, V>, before: Work<S, V>,
                           event: Happening<V>)
    requires !Handle(policy, sizeOf, reduce, before, event).died
    ensures
      var handled := Handle(policy, sizeOf, reduce, before, event);
      var w := Finish(reduce, handled);
      w.snapshots
      == before.snapshots
         + (if w.acc.live && (event.CaughtUp? || handled.pending != []) then [w.acc] else [])
  {
  }

  /**
   The state after a group is shown exactly if it is live and the group does not end by filling a batch. Whatever
   else the group shows, it shows before its last event.
   */
  lemma EndShownIff<S, V>(policy: Policy, sizeOf: SizeOf<V>, reduce: Reducer<S, V>, initial: S,
                          groups: seq<seq<Happening<V>>>, last: seq<Happening<V>>)
    requires last != [] && !Groups(policy, sizeOf, reduce, initial, groups + [last]).died
    ensures
      var before := Groups(policy, sizeOf, reduce, initial, groups);
      var after := Groups(policy, sizeOf, reduce, initial, groups + [last]);
      var inside := HandleAll(policy, sizeOf, reduce, Begin(before.acc), last[..|last| - 1]);
      var shown := CaughtUpIn(Flatten(groups + [last]))
                   && (last[|last| - 1].CaughtUp? || Fill(policy, sizeOf, last).items != 0);
      after.snapshots == before.snapshots + inside.snapshots + (if shown then [after.acc] else [])
  {
    hide *;
    GroupsLive(policy, sizeOf, reduce, initial, groups + [last]);
    GroupsSnoc(policy, sizeOf, reduce, initial, groups, last);
    var before := Groups(policy, sizeOf, reduce, initial, groups);
    GroupEnds(policy, sizeOf, reduce, before.acc, last);
  }

  lemma GroupsSnoc<S, V>(policy: Policy, sizeOf: SizeOf<V>, reduce: Reducer<S, V>, initial: S,
                         groups: seq<seq<Happening<V>>>, last: seq<Happening<V>>)
    requires !Groups(policy, sizeOf, reduce, initial, groups + [last]).died
    ensures
      var before := Groups(policy, sizeOf, reduce, initial, groups);
      var after := Groups(policy, sizeOf, reduce, initial, groups + [last]);
      var w := Group(policy, sizeOf, reduce, before.acc, last);
      !before.died && !w.died && after.acc == w.acc && after.snapshots == before.snapshots + w.snapshots
  {
    assert (groups + [last])[..|groups|] == groups;
    hide Group;
  }

  /** Deliveries alone, with a bound on their number only, leave what the number leaves over. */
  lemma {:induction false} FillCounts<V>(policy: Policy, sizeOf: SizeOf<V>, events: seq<Happening<V>>, limit: nat)
    requires 0 < limit && policy.maxItems == Some(limit) && policy.maxBytes.None?
    requires forall i :: 0 <= i < |events| ==> events[i].Delivered?
    ensures Fill(policy, sizeOf, events).items == |events| % limit
    decreases |events|
  {
    hide Fill;
    if events == [] {
      FillNone(policy, sizeOf, events);
    } else {
      FillCounts(policy, sizeOf, events[..|events| - 1], limit);
      FillNext(policy, sizeOf, events, limit);
      NextRemainder(|events| - 1, limit);
    }
  }

  lemma FillNone<V>(policy: Policy, sizeOf: SizeOf<V>, events: seq<Happening<V>>)
    requires events == []
    ensures Fill(policy, sizeOf, events) == Load(0, 0)
  {
  }

  lemma FillNext<V>(policy: Policy, sizeOf: SizeOf<V>, events: seq<Happening<V>>, limit: nat)
    requires policy.maxItems == Some(limit) && policy.maxBytes.None?
    requires events != [] && events[|events| - 1].Delivered?
    ensures
      var before := Fill(policy, sizeOf, events[..|events| - 1]).items;
      Fill(policy, sizeOf, events).items == if limit <= before + 1 then 0 else before + 1
  {
  }

  lemma NextRemainder(n: nat, limit: nat)
    requires 0 < limit
    ensures (n + 1) % limit == if n % limit + 1 == limit then 0 else n % limit + 1
  {
    var quotient := n / limit;
    if n % limit + 1 == limit {
      assert (quotient + 1) * limit == quotient * limit + limit;
      Remainder(n + 1, quotient + 1, 0, limit);
    } else {
      Remainder(n + 1, quotient, n % limit + 1, limit);
    }
  }

  lemma Remainder(n: nat, quotient: nat, rest: nat, limit: nat)
    requires rest < limit && n == quotient * limit + rest
    ensures n % limit == rest
  {
    var other := n / limit;
    assert n == other * limit + n % limit;
    if quotient < other {
      Multiples(quotient, other, limit);
    } else if other < quotient {
      Multiples(other, quotient, limit);
    }
  }

  lemma {:induction false} Multiples(low: nat, high: nat, limit: nat)
    requires low < high
    ensures low * limit + limit <= high * limit
    decreases high
  {
    if low + 1 < high {
      Multiples(low, high - 1, limit);
    }
  }

  /**
   With a bound on the number of deliveries, a live group of deliveries is shown exactly if it does not fill its
   batches: a group of exactly that number is reduced, and stays unseen until a later group.
   */
  lemma FullGroupUnshown<S, V>(policy: Policy, sizeOf: SizeOf<V>, reduce: Reducer<S, V>, initial: S,
                               groups: seq<seq<Happening<V>>>, last: seq<Happening<V>>, limit: nat)
    requires 0 < limit && policy.maxItems == Some(limit) && policy.maxBytes.None?
    requires last != [] && forall i :: 0 <= i < |last| ==> last[i].Delivered?
    requires CaughtUpIn(Flatten(groups))
    ensures
      var before := Groups(policy, sizeOf, reduce, initial, groups);
      var after := Groups(policy, sizeOf, reduce, initial, groups + [last]);
      !after.died && after.snapshots == before.snapshots + (if |last| % limit != 0 then [after.acc] else [])
  {
    hide *;
    GroupsDie(policy, sizeOf, reduce, initial, groups + [last]);
    Unmeasured(policy, sizeOf, Deliveries(Flatten(groups + [last])));
    EndShownIff(policy, sizeOf, reduce, initial, groups, last);
    FillCounts(policy, sizeOf, last, limit);
    FlattenSnoc(groups, last);
    CaughtUpConcat(Flatten(groups), last);
    DeliveriesSilent(policy, sizeOf, reduce, Groups(policy, sizeOf, reduce, initial, groups).acc,
                     last[..|last| - 1]);
  }

  lemma Unmeasured<V>(policy: Policy, sizeOf: SizeOf<V>, deliveries: seq<Delivery<V>>)
    requires policy.maxBytes.None?
    ensures ValidSizes(policy, sizeOf, deliveries)
  {
  }

  lemma {:induction false} DeliveriesSilent<S, V>(policy: Policy, sizeOf: SizeOf<V>, reduce: Reducer<S, V>,
                                                  acc: Accumulated<S>, events: seq<Happening<V>>)
    requires forall i :: 0 <= i < |events| ==> events[i].Delivered?
    ensures HandleAll(policy, sizeOf, reduce, Begin(acc), events).snapshots == []
    decreases |events|
  {
    if events != [] {
      DeliveriesSilent(policy, sizeOf, reduce, acc, events[..|events| - 1]);
    }
  }

  /** With batches of one delivery no live delivery is ever shown: the snapshots are those of the caught-up events. */
  lemma SinglesUnshown<S(!new), V(!new)>(policy: Policy, sizeOf: SizeOf<V>, reduce: Reducer<S, V>, fold: (S, V) -> S,
                                         initial: S, groups: seq<seq<Happening<V>>>)
    requires policy.Valid() && LeftFold(reduce, fold) && policy.maxItems == Some(1)
    ensures
      var r, events := Groups(policy, sizeOf, reduce, initial, groups), Flatten(groups);
      && (!r.died ==> AllShow(fold, initial, events, Marks(events, 0), r.snapshots))
      && (forall p :: p in Marks(events, 0) <==> 0 < p <= |events| && events[p - 1].CaughtUp?)
  {
    hide Groups, Positions, Flatten, Marks, AllShow, LeftFold, ValidSizes, Deliveries, Meaning, AllBounded;
    GroupingIndependent(policy, sizeOf, reduce, fold, initial, groups);
    SinglePositions(policy, sizeOf, groups);
    MarksExact(Flatten(groups), 0);
  }

  lemma {:induction false} SinglePositions<V>(policy: Policy, sizeOf: SizeOf<V>, groups: seq<seq<Happening<V>>>)
    requires policy.maxItems == Some(1)
    ensures Positions(policy, sizeOf, groups) == Marks(Flatten(groups), 0)
    decreases |groups|
  {
    hide Marks, EndMark;
    if groups == [] {
      assert Marks<V>([], 0) == [] by {
        NoMarks<V>();
      }
    } else {
      var front, last := groups[..|groups| - 1], groups[|groups| - 1];
      SinglePositions(policy, sizeOf, front);
      hide Positions, Flatten;
      PositionsNext(policy, sizeOf, groups);
      SinglesFull(policy, sizeOf, last);
      NoEndMark(policy, sizeOf, Flatten(front), last);
      MarksConcat(Flatten(front), last, 0);
    }
  }

  lemma NoMarks<V>()
    ensures Marks<V>([], 0) == []
  {
  }

  lemma NoEndMark<V>(policy: Policy, sizeOf: SizeOf<V>, earlier: seq<Happening<V>>, events: seq<Happening<V>>)
    requires Fill(policy, sizeOf, events).items == 0
    ensures EndMark(policy, sizeOf, earlier, events) == []
  {
    hide Fill;
  }

  lemma {:induction false} MarksConcat<V>(a: seq<Happening<V>>, b: seq<Happening<V>>, offset: nat)
    ensures Marks(a + b, offset) == Marks(a, offset) + Marks(b, offset + |a|)
    decreases |b|
  {
    if b == [] {
      assert a + b == a;
    } else {
      assert (a + b)[..|a + b| - 1] == a + b[..|b| - 1];
      MarksConcat(a, b[..|b| - 1], offset);
    }
  }

  lemma {:induction false} SinglesFull<V>(policy: Policy, sizeOf: SizeOf<V>, events: seq<Happening<V>>)
    requires policy.maxItems == Some(1)
    ensures Fill(policy, sizeOf, events).items == 0
    decreases |events|
  {
    if events != [] {
      SinglesFull(policy, sizeOf, events[..|events| - 1]);
    }
  }

  // ---------------------------------------------------------------------------------------------
  // The loop over one group
  // ---------------------------------------------------------------------------------------------

  class GroupReducer<S, V> {
    const policy: Policy
    const reduce: Reducer<S, V>
    var data: S
    var live: bool
    var cursor: Option<nat>
    var replayed: nat
    var pending: seq<Delivery<V>>
    var pendingBytes: nat
    var snapshots: seq<Accumulated<S>>
    var calls: seq<seq<Delivery<V>>>
    var died: bool

    constructor (policy: Policy, reduce: Reducer<S, V>, previous: Accumulated<S>)
      ensures View() == Begin(previous) && this.policy == policy && this.reduce == reduce
    {
      this.policy, this.reduce := policy, reduce;
      data, live, cursor, replayed := previous.data, previous.live, previous.cursor, previous.replayed;
      pending, pendingBytes, snapshots, calls, died := [], 0, [], [], false;
    }

    function View(): Work<S, V>
      reads this
    {
      Work(Accumulated(live, data, cursor, replayed), pending, pendingBytes, snapshots, calls, died)
    }

    method ReduceBatch()
      modifies this
      ensures View() == ReducePending(reduce, old(View()))
    {
      if pending == [] {
        return;
      }
      var deliveries := pending;
      pending, pendingBytes := [], 0;
      calls := calls + [deliveries];
      data := reduce(data, deliveries);
      cursor := Some(deliveries[|deliveries| - 1].cursor);
      if !live {
        replayed := replayed + |deliveries|;
      }
    }

    method Deliver(delivery: Delivery<V>, sizeOf: SizeOf<V>)
      requires !died
      modifies this
      ensures View() == Handle(policy, sizeOf, reduce, old(View()), Delivered(delivery))
    {
      if policy.maxBytes.Some? {
        var measure := sizeOf(delivery);
        if measure.Unmeasurable? || measure.bytes < 0 || policy.maxBytes.value < measure.bytes {
          died := true;
          return;
        }
        if 0 < |pending| && policy.maxBytes.value < pendingBytes + measure.bytes {
          ReduceBatch();
        }
        pendingBytes := pendingBytes + measure.bytes;
      }
      pending := pending + [delivery];
      if (policy.maxItems.Some? && policy.maxItems.value <= |pending|)
         || (policy.maxBytes.Some? && policy.maxBytes.value <= pendingBytes)
      {
        ReduceBatch();
      }
    }

    method CatchUp(delivered: nat, at: Option<nat>, ghost sizeOf: SizeOf<V>)
      requires !died
      modifies this
      ensures View() == Handle(policy, sizeOf, reduce, old(View()), CaughtUp(delivered, at))
    {
      ReduceBatch();
      live, replayed := true, delivered;
      cursor := if at.Some? then at else cursor;
      snapshots := snapshots + [Accumulated(true, data, cursor, replayed)];
    }

    method Process(events: seq<Happening<V>>, sizeOf: SizeOf<V>)
      requires !died
      modifies this
      ensures View() == Finish(reduce, HandleAll(policy, sizeOf, reduce, old(View()), events))
    {
      hide Handle;
      var i := 0;
      while i < |events| && !died
        invariant 0 <= i <= |events|
        invariant View() == HandleAll(policy, sizeOf, reduce, old(View()), events[..i])
      {
        assert events[..i + 1][..i] == events[..i];
        match events[i] {
          case Delivered(delivery) => Deliver(delivery, sizeOf);
          case CaughtUp(delivered, at) => CatchUp(delivered, at, sizeOf);
        }
        i := i + 1;
      }
      if died {
        StaysDead(policy, sizeOf, reduce, old(View()), events, i);
        return;
      }
      assert events[..i] == events;
      var rest := pending != [];
      ReduceBatch();
      if live && rest {
        snapshots := snapshots + [Accumulated(live, data, cursor, replayed)];
      }
    }
  }

  lemma {:induction false} StaysDead<S, V>(policy: Policy, sizeOf: SizeOf<V>, reduce: Reducer<S, V>, w: Work<S, V>,
                                           events: seq<Happening<V>>, i: nat)
    requires i <= |events| && HandleAll(policy, sizeOf, reduce, w, events[..i]).died
    ensures HandleAll(policy, sizeOf, reduce, w, events) == HandleAll(policy, sizeOf, reduce, w, events[..i])
    decreases |events|
  {
    if i == |events| {
      assert events[..i] == events;
    } else {
      assert events[..|events| - 1][..i] == events[..i];
      StaysDead(policy, sizeOf, reduce, w, events[..|events| - 1], i);
    }
  }
}
