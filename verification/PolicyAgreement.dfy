/** The third form of the batch policy, the materializer's, cuts what the core coordinator cuts. */
module PolicyAgreement {
  import opened Batching
  import opened PolicyBuffer
  import opened Materializer

  function AsHappenings<V>(deliveries: seq<Delivery<V>>): (r: seq<Happening<V>>)
    ensures |r| == |deliveries|
  {
    seq(|deliveries|, i requires 0 <= i < |deliveries| => Delivered(deliveries[i]))
  }

  function AsAdds<V>(sizeOf: SizeOf<V>, deliveries: seq<Delivery<V>>): (r: seq<Event<Delivery<V>>>)
    ensures |r| == |deliveries|
  {
    seq(|deliveries|, i requires 0 <= i < |deliveries| => Event.Adding(deliveries[i], sizeOf(deliveries[i])))
  }

  /** The group in hand and the coordinator hold the same deliveries and have cut the same batches. */
  ghost predicate Matches<S, V>(w: Work<S, V>, s: State<Delivery<V>>) {
    && !w.died && !s.cancelled && !s.completed
    && w.pending == Values(s.pending) && w.pendingBytes == s.pendingBytes
    && w.calls == AllValues(s.drained)
  }

  lemma DrainMatches<S, V>(reduce: Reducer<S, V>, w: Work<S, V>, s: State<Delivery<V>>, reason: Reason)
    requires Matches(w, s)
    ensures Matches(ReducePending(reduce, w), Drain(s, reason))
  {
    if s.pending != [] {
      AllValuesSnoc(s.drained, s.pending);
    }
  }

  lemma StoreMatches<S, V>(w: Work<S, V>, s: State<Delivery<V>>, delivery: Delivery<V>, size: nat)
    requires Matches(w, s)
    ensures Matches(w.(pending := w.pending + [delivery], pendingBytes := w.pendingBytes + size),
                    Store(s, delivery, size))
  {
    ValuesSnoc(s.pending, Entry(s.tickets, delivery, size));
    hide Values, AllValues;
  }

  lemma PushMatches<S, V>(policy: Policy, reduce: Reducer<S, V>, w: Work<S, V>, s: State<Delivery<V>>,
                          delivery: Delivery<V>, size: nat)
    requires Matches(w, s) && s.policy == policy
    ensures Matches(Push(policy, reduce, w, delivery, size), CutOrArm(Store(s, delivery, size)))
  {
    StoreMatches(w, s, delivery, size);
    var grown := w.(pending := w.pending + [delivery], pendingBytes := w.pendingBytes + size);
    var next := Store(s, delivery, size);
    assert |grown.pending| == |next.pending| && next.policy == policy;
    hide Values, AllValues, Store, ReducePending, Drain;
    if policy.Full(|next.pending|, next.pendingBytes) {
      DrainMatches(reduce, grown, next, if policy.CountReached(|next.pending|) then ByCount else ByBytes);
    }
  }

  lemma HandleMatches<S, V>(policy: Policy, sizeOf: SizeOf<V>, reduce: Reducer<S, V>, w: Work<S, V>,
                            s: State<Delivery<V>>, delivery: Delivery<V>)
    requires Matches(w, s) && s.policy == policy && Admit(policy, sizeOf(delivery)).Admitted?
    ensures Matches(Handle(policy, sizeOf, reduce, w, Delivered(delivery)), Add(s, delivery, sizeOf(delivery)))
  {
    var size := Admit(policy, sizeOf(delivery)).size;
    assert |w.pending| == |s.pending|;
    DrainMatches(reduce, w, s, ByBytes);
    DrainPolicy(s, ByBytes);
    hide Values, AllValues, Store, CutOrArm, Push, ReducePending, Drain;
    if policy.Overflows(|w.pending|, w.pendingBytes, size) {
      PushMatches(policy, reduce, ReducePending(reduce, w), Drain(s, ByBytes), delivery, size);
    } else {
      PushMatches(policy, reduce, w, s, delivery, size);
    }
  }

  lemma DrainPolicy<T>(s: State<T>, reason: Reason)
    ensures Drain(s, reason).policy == s.policy
  {
  }

  lemma AddPolicy<T>(s: State<T>, value: T, measure: Measure)
    ensures Add(s, value, measure).policy == s.policy
  {
  }

  /**
   Within a group of valid-size deliveries the reducer is called with exactly the batches that the coordinator cuts
   by count and by bytes, and is left with the same partial batch.
   */
  lemma {:induction false} SameCalls<S, V>(policy: Policy, sizeOf: SizeOf<V>, reduce: Reducer<S, V>,
                                           acc: Accumulated<S>, deliveries: seq<Delivery<V>>)
    requires forall i :: 0 <= i < |deliveries| ==> Admit(policy, sizeOf(deliveries[i])).Admitted?
    ensures
      var w := HandleAll(policy, sizeOf, reduce, Begin(acc), AsHappenings(deliveries));
      var s := Batching.Run(Initial(policy), AsAdds(sizeOf, deliveries));
      && w.calls == AllValues(s.drained) && w.pending == Values(s.pending) && s.policy == policy
      && Matches(w, s)
    decreases |deliveries|
  {
    if deliveries == [] {
      assert AllValues<Delivery<V>>([]) == [] && Values<Delivery<V>>([]) == [];
    } else {
      var front, last := deliveries[..|deliveries| - 1], deliveries[|deliveries| - 1];
      SameCalls(policy, sizeOf, reduce, acc, front);
      assert AsHappenings(deliveries)[..|front|] == AsHappenings(front);
      assert AsAdds(sizeOf, deliveries)[..|front|] == AsAdds(sizeOf, front);
      var s := Batching.Run(Initial(policy), AsAdds(sizeOf, front));
      hide Handle, Add, Values, AllValues;
      var w := HandleAll(policy, sizeOf, reduce, Begin(acc), AsHappenings(front));
      HandleMatches(policy, sizeOf, reduce, w, s, last);
      AddPolicy(s, last, sizeOf(last));
    }
  }
}
