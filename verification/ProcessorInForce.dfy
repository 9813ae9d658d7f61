/** What it means that a consumer has no drift: each value that the caller asked for is in force at the server. */
module ProcessorInForce {
  import opened Prelude
  import opened ProcessorConfig
  import opened ProcessorReconcile

  const NanosPerMs: nat := 1_000_000

  predicate StartInForce(config: Config, start: Start) {
    match start
    case FromAll => config.deliver == DeliverAll && config.startSequence.None?
    case FromNew => config.deliver == DeliverNew && config.startSequence.None?
    case After(sequence) => config.deliver == DeliverStartSequence && config.startSequence == Some(sequence + 1)
  }

  /** The longest wait for an acknowledgement: as asked for, or else the first delay of the backoff. */
  predicate WaitInForce(options: Options, config: Config) {
    && (options.ackWait.Some? ==> config.ackWait == Some(options.ackWait.value * NanosPerMs))
    && (options.ackWait.None? && options.backoff.Some? && options.backoff.value != [] ==>
          config.ackWait == Some(options.backoff.value[0] * NanosPerMs))
  }

  predicate BackoffInForce(options: Options, config: Config) {
    options.backoff.Some? ==>
      && config.backoff.Some? && |config.backoff.value| == |options.backoff.value|
      && forall i :: 0 <= i < |options.backoff.value| ==>
           config.backoff.value[i] == options.backoff.value[i] * NanosPerMs
  }

  predicate BelongsToServer(key: string) {
    5 <= |key| && key[..5] == "_nats"
  }

  /** The name under which the server keeps the consumer, where it reports one; a pull consumer has no subject. */
  predicate NameInForce(options: Options, info: Info) {
    && options.name == (match (info.config.durable, info.config.name)
                        case (Some(durable), _) => durable
                        case (None, Some(name)) => name
                        case (None, None) => info.name)
    && (info.config.deliverSubject.None? || info.config.deliverSubject.value == "")
  }

  /** The caller's metadata, the owner's mark on an owned consumer, and nothing else but the server's own keys. */
  predicate MetadataInForce(options: Options, config: Config) {
    var wanted := if options.metadata.Some? then options.metadata.value else map[];
    options.metadata.Some? || options.mode == Owned ==>
      && config.metadata.Some?
      && (forall key :: key in wanted ==> key in config.metadata.value && config.metadata.value[key] == wanted[key])
      && (forall key :: key in config.metadata.value && !BelongsToServer(key) ==>
            key in wanted || (options.mode == Owned && key == OwnerKey))
      && (options.mode == Owned ==>
            OwnerKey in config.metadata.value && config.metadata.value[OwnerKey] == OwnerValue)
  }

  predicate LimitsInForce(options: Options, config: Config) {
    && (options.maxDeliver.Some? ==> config.maxDeliver == options.maxDeliver)
    && (options.maxAckPending.Some? ==> config.maxAckPending == options.maxAckPending)
    && (options.replicas.Some? ==> config.replicas == options.replicas)
    && (options.sample.Some? ==>
          config.sampleFreq.Some? && Parse(WithoutPercent(config.sampleFreq.value)) == options.sample)
    && (options.replay.Some? ==> config.replay == options.replay.value)
    && (options.memory.Some? ==> config.memory == options.memory)
  }

  /** Everything asked for, at the server, in the server's own terms. */
  predicate InForce(options: Options, info: Info, start: Start) {
    && NameInForce(options, info) && info.config.ack == Explicit
    && StartInForce(info.config, start)
    && multiset(Subjects(info.config)) == multiset(options.filters)
    && WaitInForce(options, info.config) && BackoffInForce(options, info.config)
    && LimitsInForce(options, info.config) && MetadataInForce(options, info.config)
  }

  lemma MsIs(nanos: nat, ms: nat)
    ensures ToMs(nanos) == ms as real <==> nanos == ms * NanosPerMs
  {
  }

  lemma WaitIff(options: Options, info: Info, start: Start)
    requires options.Valid()
    ensures EditableDiffers(options, Desired(options, start), Active(info), AckWait)
       <==> !WaitInForce(options, info.config)
  {
    if EffectiveWait(options).Some? && info.config.ackWait.Some? {
      MsIs(info.config.ackWait.value, EffectiveWait(options).value);
    }
    hide Sort, Public, Parse, WithoutPercent, MapSeq, Subjects, ToMs;
  }

  lemma BackoffIff(options: Options, info: Info, start: Start)
    ensures EditableDiffers(options, Desired(options, start), Active(info), Backoff)
       <==> !BackoffInForce(options, info.config)
  {
    if options.backoff.Some? && info.config.backoff.Some? {
      DelaysIff(info.config.backoff.value, options.backoff.value);
    }
    hide Sort, Public, Parse, WithoutPercent, MapSeq, Subjects, ToMs;
  }

  lemma DelaysIff(nanos: seq<nat>, delays: seq<nat>)
    ensures MapSeq(ToMs, nanos) == MapSeq((ms: nat) => ms as real, delays)
       <==> |nanos| == |delays| && forall i :: 0 <= i < |delays| ==> nanos[i] == delays[i] * NanosPerMs
  {
    var a, b := MapSeq(ToMs, nanos), MapSeq((ms: nat) => ms as real, delays);
    if |nanos| == |delays| {
      forall i | 0 <= i < |delays|
        ensures a[i] == b[i] <==> nanos[i] == delays[i] * NanosPerMs
      {
        MsIs(nanos[i], delays[i]);
      }
    }
  }

  lemma FiltersIff(options: Options, info: Info, start: Start)
    ensures EditableDiffers(options, Desired(options, start), Active(info), Filters)
       <==> multiset(Subjects(info.config)) != multiset(options.filters)
  {
    SortCanonical(Subjects(info.config), options.filters);
    hide Sort, Public, Parse, WithoutPercent, MapSeq, Subjects;
  }

  lemma MetadataIff(options: Options, info: Info, start: Start)
    requires options.Valid()
    ensures EditableDiffers(options, Desired(options, start), Active(info), MetadataField)
       <==> !MetadataInForce(options, info.config)
  {
    if options.metadata.Some? || options.mode == Owned {
      var wanted := if options.metadata.Some? then options.metadata.value else map[];
      assert !ServerKey(OwnerKey) by {
        assert OwnerKey[0] == 'n';
      }
      var sent := DesiredMetadata(options).value;
      assert forall key :: key in sent <==> key in wanted || (options.mode == Owned && key == OwnerKey);
      ServerKeys();
      hide ServerKey, BelongsToServer;
      if info.config.metadata.Some? {
        SameMetadata(sent, info.config.metadata.value);
      }
    }
    hide Sort, Parse, WithoutPercent, MapSeq, Subjects, Public;
  }

  lemma ServerKeys()
    ensures forall key :: BelongsToServer(key) <==> ServerKey(key)
  {
    forall key
      ensures BelongsToServer(key) <==> ServerKey(key)
    {
      if BelongsToServer(key) {
        assert key == key[..5] + key[5..];
      }
    }
  }

  lemma SameMetadata(sent: Metadata, reported: Metadata)
    ensures Public(reported) == sent
       <==> (&& (forall key :: key in sent ==> key in reported && !ServerKey(key) && reported[key] == sent[key])
             && (forall key :: key in reported && !ServerKey(key) ==> key in sent))
  {
    hide ServerKey;
    assert forall key :: key in Public(reported) <==> key in reported && !ServerKey(key);
  }

  lemma LimitsIff(options: Options, info: Info, start: Start)
    ensures LimitsInForce(options, info.config)
       <==> (&& !EditableDiffers(options, Desired(options, start), Active(info), MaxDeliver)
             && !EditableDiffers(options, Desired(options, start), Active(info), MaxAckPending)
             && !EditableDiffers(options, Desired(options, start), Active(info), Replicas)
             && !EditableDiffers(options, Desired(options, start), Active(info), Sample)
             && !ImmutableDiffers(options, Desired(options, start), Active(info), ReplayField)
             && !ImmutableDiffers(options, Desired(options, start), Active(info), Memory))
  {
    hide Sort, Public, Parse, WithoutPercent, MapSeq, Subjects;
  }

  lemma StartIff(options: Options, info: Info, start: Start)
    ensures NameInForce(options, info) && info.config.ack == Explicit && StartInForce(info.config, start)
       <==> (&& !ImmutableDiffers(options, Desired(options, start), Active(info), DurableName)
             && !ImmutableDiffers(options, Desired(options, start), Active(info), DeliveryKind)
             && !ImmutableDiffers(options, Desired(options, start), Active(info), AckField)
             && !ImmutableDiffers(options, Desired(options, start), Active(info), DeliverField)
             && !ImmutableDiffers(options, Desired(options, start), Active(info), StartField))
  {
    hide Sort, Public, Parse, WithoutPercent, MapSeq, Subjects;
  }

  lemma EveryField(options: Options, info: Info, start: Start)
    ensures Settled(options, info, start)
       <==> (&& !EditableDiffers(options, Desired(options, start), Active(info), Filters)
             && !EditableDiffers(options, Desired(options, start), Active(info), AckWait)
             && !EditableDiffers(options, Desired(options, start), Active(info), Backoff)
             && !EditableDiffers(options, Desired(options, start), Active(info), MaxDeliver)
             && !EditableDiffers(options, Desired(options, start), Active(info), MaxAckPending)
             && !EditableDiffers(options, Desired(options, start), Active(info), MetadataField)
             && !EditableDiffers(options, Desired(options, start), Active(info), Sample)
             && !EditableDiffers(options, Desired(options, start), Active(info), Replicas)
             && !ImmutableDiffers(options, Desired(options, start), Active(info), DurableName)
             && !ImmutableDiffers(options, Desired(options, start), Active(info), DeliveryKind)
             && !ImmutableDiffers(options, Desired(options, start), Active(info), AckField)
             && !ImmutableDiffers(options, Desired(options, start), Active(info), DeliverField)
             && !ImmutableDiffers(options, Desired(options, start), Active(info), StartField)
             && !ImmutableDiffers(options, Desired(options, start), Active(info), ReplayField)
             && !ImmutableDiffers(options, Desired(options, start), Active(info), Memory))
  {
    hide EditableDiffers, ImmutableDiffers, Desired, Active;
    var desired, active := Desired(options, start), Active(info);
    forall field | EditableDiffers(options, desired, active, field)
      ensures field == Filters || field == AckWait || field == Backoff || field == MaxDeliver
              || field == MaxAckPending || field == MetadataField || field == Sample || field == Replicas
    {
    }
    forall field | ImmutableDiffers(options, desired, active, field)
      ensures field == DurableName || field == DeliveryKind || field == AckField || field == DeliverField
              || field == StartField || field == ReplayField || field == Memory
    {
    }
  }

  /** A consumer has no drift exactly when everything that the caller asked for is in force. */
  lemma SettledIffInForce(options: Options, info: Info, start: Start)
    requires options.Valid()
    ensures Settled(options, info, start) <==> InForce(options, info, start)
  {
    hide *;
    EveryField(options, info, start);
    FiltersIff(options, info, start);
    WaitIff(options, info, start);
    BackoffIff(options, info, start);
    LimitsIff(options, info, start);
    MetadataIff(options, info, start);
    StartIff(options, info, start);
    InForceParts(options, info, start);
  }

  lemma InForceParts(options: Options, info: Info, start: Start)
    ensures InForce(options, info, start)
       <==> ((NameInForce(options, info) && info.config.ack == Explicit && StartInForce(info.config, start))
             && multiset(Subjects(info.config)) == multiset(options.filters)
             && WaitInForce(options, info.config) && BackoffInForce(options, info.config)
             && LimitsInForce(options, info.config) && MetadataInForce(options, info.config))
  {
    hide NameInForce, StartInForce, Subjects, WaitInForce, BackoffInForce, LimitsInForce, MetadataInForce;
  }

  /**
   A call that ends in `unchanged`, `updated` or `recreated` leaves a consumer with everything asked for in force, at
   the start that the controller then remembers, or else the one asked for.
   */
  lemma ReconciledInForce(options: Options, resumeAfter: Option<nat>, effectiveStart: Option<Start>,
                          consumer: Option<Info>, server: Server, fault: Fault)
    requires options.Valid() && server.Faithful()
    requires
      var r := Reconcile(options, resumeAfter, effectiveStart, consumer, server, fault);
      r.status == Unchanged || r.status == Updated || r.status.Recreated?
    ensures
      var r := Reconcile(options, resumeAfter, effectiveStart, consumer, server, fault);
      r.consumer.Some? && InForce(options, r.consumer.value, Or(r.effectiveStart, options.start))
  {
    hide *;
    LeftSettled(options, resumeAfter, effectiveStart, consumer, server, fault);
    var r := Reconcile(options, resumeAfter, effectiveStart, consumer, server, fault);
    SettledIffInForce(options, r.consumer.value, Or(r.effectiveStart, options.start));
  }

  /** A created consumer starts behind the position to resume after, if there is one, or where the caller asked. */
  lemma CreatedInForce(options: Options, resumeAfter: Option<nat>, effectiveStart: Option<Start>, server: Server,
                       fault: Fault)
    requires options.Valid() && server.Faithful()
    requires Reconcile(options, resumeAfter, effectiveStart, None, server, fault).status.Created?
    ensures
      var r := Reconcile(options, resumeAfter, effectiveStart, None, server, fault);
      var start := if options.mode == Owned && resumeAfter.Some? then After(resumeAfter.value) else options.start;
      && r.consumer.Some? && InForce(options, r.consumer.value, start)
      && (start.After? && options.mode == Owned && resumeAfter.Some? ==>
            r.status.first == Some(resumeAfter.value + 1) && r.effectiveStart == Some(start))
  {
    var start := if options.mode == Owned && resumeAfter.Some? then After(resumeAfter.value) else options.start;
    var r := Reconcile(options, resumeAfter, effectiveStart, None, server, fault);
    assert r.consumer == Some(server.create(FullConfig(options, start)));
    assert Stored(FullConfig(options, start), server.create(FullConfig(options, start)).config);
    hide Reconcile, FullConfig, Stored, InForce, Settled;
    CreatedIsSettled(options, start, r.consumer.value);
    SettledIffInForce(options, r.consumer.value, start);
  }

  /**
   Without a policy of the caller's, drift is reported and left alone in a bound consumer, repaired in place where that
   is possible in an ensured one, and repaired by recreation where it has to be in an owned one.
   */
  lemma DefaultPolicies(options: Options, effectiveStart: Option<Start>, info: Info, server: Server)
    requires options.policy.None? && (options.mode == Owned ==> IsOwned(info))
    requires
      var start := Or(Adopted(options, effectiveStart, Active(info)), options.start);
      EditableDrift(options, Active(info), start) != [] || ImmutableDrift(options, Active(info), start) != []
    ensures
      var start := Or(Adopted(options, effectiveStart, Active(info)), options.start);
      var immutable := ImmutableDrift(options, Active(info), start);
      var r := Reconcile(options, None, effectiveStart, Some(info), server, Works);
      match options.mode
      case Bind => r.status == Rejected(Drifted) && r.calls == []
      case Ensure =>
        if immutable != [] then r.status == Rejected(Drifted) && r.calls == []
        else |r.calls| == 1 && r.calls[0].Update?
      case Owned =>
        if immutable == [] then |r.calls| == 1 && r.calls[0].Update?
        else if RecreationBoundary(info).None? || MaxSafe <= RecreationBoundary(info).value then r.calls == []
        else |r.calls| == 2 && r.calls[0] == Delete && r.calls[1].Add?
  {
    hide EditableDrift, ImmutableDrift, Active, Adopted, IsOwned, UpdatePatch, FullConfig, Merge, Or;
    hide RecreationBoundary;
  }

  /** A policy of the caller's own decides instead, as far as its mode allows; a bound consumer is never changed. */
  lemma ChosenPolicies(options: Options, effectiveStart: Option<Start>, info: Info, server: Server)
    requires options.policy.Some? && (options.mode == Owned ==> IsOwned(info))
    requires
      var start := Or(Adopted(options, effectiveStart, Active(info)), options.start);
      EditableDrift(options, Active(info), start) != [] || ImmutableDrift(options, Active(info), start) != []
    ensures
      var start := Or(Adopted(options, effectiveStart, Active(info)), options.start);
      var immutable := ImmutableDrift(options, Active(info), start);
      var r := Reconcile(options, None, effectiveStart, Some(info), server, Works);
      if options.mode == Bind || options.policy == Some(RejectDrift) then r.status == Rejected(Drifted) && r.calls == []
      else if immutable == [] then |r.calls| == 1 && r.calls[0].Update?
      else if options.mode == Ensure || options.policy == Some(UpdateEditable) then
        r.status == Rejected(Drifted) && r.calls == []
      else if RecreationBoundary(info).None? || MaxSafe <= RecreationBoundary(info).value then r.calls == []
      else |r.calls| == 2 && r.calls[0] == Delete && r.calls[1].Add?
  {
    hide EditableDrift, ImmutableDrift, Active, Adopted, IsOwned, UpdatePatch, FullConfig, Merge, Or;
    hide RecreationBoundary;
  }

  /** A partial update names a field only where what was asked for is not in force. */
  predicate TouchesOnlyDrift(options: Options, info: Info, patch: Patch) {
    && (patch.filterSubject.Some? || patch.filterSubjects.Some? ==>
          multiset(Subjects(info.config)) != multiset(options.filters))
    && (patch.ackWait.Some? ==> !WaitInForce(options, info.config))
    && (patch.backoff.Some? ==> !BackoffInForce(options, info.config))
    && (patch.maxDeliver.Some? ==> info.config.maxDeliver != options.maxDeliver)
    && (patch.maxAckPending.Some? ==> info.config.maxAckPending != options.maxAckPending)
    && (patch.metadata.Some? ==> !MetadataInForce(options, info.config))
    && (patch.sampleFreq.Some? ==>
          info.config.sampleFreq.None? || Parse(WithoutPercent(info.config.sampleFreq.value)) != options.sample)
    && (patch.replicas.Some? ==> info.config.replicas != options.replicas)
  }

  lemma PatchNamesDrift(options: Options, drift: seq<Editable>)
    ensures
      var patch := UpdatePatch(options, drift);
      && (patch.filterSubject.Some? || patch.filterSubjects.Some? ==> Filters in drift)
      && (patch.ackWait.Some? ==> AckWait in drift) && (patch.backoff.Some? ==> Backoff in drift)
      && (patch.maxDeliver.Some? ==> MaxDeliver in drift) && (patch.maxAckPending.Some? ==> MaxAckPending in drift)
      && (patch.metadata.Some? ==> MetadataField in drift) && (patch.sampleFreq.Some? ==> Sample in drift)
      && (patch.replicas.Some? ==> Replicas in drift)
  {
    hide Sort, MapSeq, DesiredMetadata, EffectiveWait, Percent;
  }

  lemma LimitFields(options: Options, info: Info, start: Start)
    ensures EditableDiffers(options, Desired(options, start), Active(info), MaxDeliver) ==>
      info.config.maxDeliver != options.maxDeliver
    ensures EditableDiffers(options, Desired(options, start), Active(info), MaxAckPending) ==>
      info.config.maxAckPending != options.maxAckPending
    ensures EditableDiffers(options, Desired(options, start), Active(info), Replicas) ==>
      info.config.replicas != options.replicas
    ensures EditableDiffers(options, Desired(options, start), Active(info), Sample) ==>
      info.config.sampleFreq.None? || Parse(WithoutPercent(info.config.sampleFreq.value)) != options.sample
  {
    hide Sort, Public, Parse, WithoutPercent, MapSeq, Subjects;
  }

  lemma PatchTouches(options: Options, info: Info, start: Start)
    requires options.Valid()
    ensures TouchesOnlyDrift(options, info, UpdatePatch(options, EditableDrift(options, Active(info), start)))
  {
    hide *;
    PatchNamesDrift(options, EditableDrift(options, Active(info), start));
    FiltersIff(options, info, start);
    WaitIff(options, info, start);
    BackoffIff(options, info, start);
    MetadataIff(options, info, start);
    LimitFields(options, info, start);
    assert TouchesOnlyDrift(options, info, UpdatePatch(options, EditableDrift(options, Active(info), start))) by {
      TouchesFrom(options, info, UpdatePatch(options, EditableDrift(options, Active(info), start)));
    }
  }

  lemma TouchesFrom(options: Options, info: Info, patch: Patch)
    requires patch.filterSubject.Some? || patch.filterSubjects.Some? ==>
      multiset(Subjects(info.config)) != multiset(options.filters)
    requires patch.ackWait.Some? ==> !WaitInForce(options, info.config)
    requires patch.backoff.Some? ==> !BackoffInForce(options, info.config)
    requires patch.maxDeliver.Some? ==> info.config.maxDeliver != options.maxDeliver
    requires patch.maxAckPending.Some? ==> info.config.maxAckPending != options.maxAckPending
    requires patch.metadata.Some? ==> !MetadataInForce(options, info.config)
    requires patch.sampleFreq.Some? ==>
      info.config.sampleFreq.None? || Parse(WithoutPercent(info.config.sampleFreq.value)) != options.sample
    requires patch.replicas.Some? ==> info.config.replicas != options.replicas
    ensures TouchesOnlyDrift(options, info, patch)
  {
    hide Subjects, WaitInForce, BackoffInForce, MetadataInForce, Parse, WithoutPercent;
  }

  /** An update that a call makes touches nothing that is as it was asked for. */
  lemma UpdateTouchesOnlyDrift(options: Options, resumeAfter: Option<nat>, effectiveStart: Option<Start>, info: Info,
                               server: Server, fault: Fault, patch: Patch)
    requires options.Valid()
    requires Update(patch) in Reconcile(options, resumeAfter, effectiveStart, Some(info), server, fault).calls
    ensures TouchesOnlyDrift(options, info, patch)
  {
    hide *;
    UpdatedWith(options, resumeAfter, effectiveStart, info, server, fault, patch);
    PatchTouches(options, info, Or(Adopted(options, effectiveStart, Active(info)), options.start));
  }

  lemma UpdatedWith(options: Options, resumeAfter: Option<nat>, effectiveStart: Option<Start>, info: Info,
                    server: Server, fault: Fault, patch: Patch)
    requires Update(patch) in Reconcile(options, resumeAfter, effectiveStart, Some(info), server, fault).calls
    ensures
      var start := Or(Adopted(options, effectiveStart, Active(info)), options.start);
      patch == UpdatePatch(options, EditableDrift(options, Active(info), start))
  {
    hide EditableDrift, ImmutableDrift, Active, Adopted, IsOwned, UpdatePatch, FullConfig, Merge, Or;
    hide RecreationBoundary, RollbackConfig;
  }

  // ---------------------------------------------------------------------------------------------
  // What a call that fails leaves behind
  // ---------------------------------------------------------------------------------------------

  predicate CannotAdd(fault: Fault) {
    fault == AddFails || fault == AddAndRollbackFail
  }

  /**
   A missing consumer is reported to a caller that only binds, and is otherwise created; where that fails, nothing is
   there and the controller remembers what it remembered.
   */
  lemma MissingConsumer(options: Options, resumeAfter: Option<nat>, effectiveStart: Option<Start>, server: Server,
                        fault: Fault)
    ensures
      var r := Reconcile(options, resumeAfter, effectiveStart, None, server, fault);
      if options.mode == Bind then
        r == Outcome(Rejected(Missing), [], [DurableName], None, effectiveStart, [])
      else if options.mode == Owned && resumeAfter.Some? && MaxSafe <= resumeAfter.value then
        r == Outcome(Failed, [], [], None, effectiveStart, [])
      else
        && |r.calls| == 1 && r.calls[0].Add?
        && if CannotAdd(fault) then r.status == Failed && r.consumer.None? && r.effectiveStart == effectiveStart
           else r.status.Created? && r.consumer == Some(server.create(r.calls[0].config))
  {
    hide FullConfig;
  }

  /** A call that fails on a consumer that is there, by what it had asked of the server. */
  lemma FailedChange(options: Options, resumeAfter: Option<nat>, effectiveStart: Option<Start>, info: Info,
                     server: Server, fault: Fault)
    requires Reconcile(options, resumeAfter, effectiveStart, Some(info), server, fault).status == Failed
    ensures
      var r := Reconcile(options, resumeAfter, effectiveStart, Some(info), server, fault);
      var adopted := Adopted(options, effectiveStart, Active(info));
      && |r.calls| != 2
      && (r.calls == [] ==> r.consumer == Some(info) && r.effectiveStart == adopted)
      && (|r.calls| == 1 ==>
            && r.effectiveStart == adopted
            && (r.calls[0] == Delete ==> fault == DeleteFails && r.consumer == Some(info))
            && (r.calls[0].Update? ==>
                  r.consumer == Some(if fault == UpdateFails then info
                                     else server.update(info, Merge(info.config, r.calls[0].patch)))))
      && (2 < |r.calls| ==>
            && |r.calls| == 3 && CannotAdd(fault) && RecreationBoundary(info).Some?
            && if fault == AddFails then
                 r.consumer.Some? && r.effectiveStart == Some(After(RecreationBoundary(info).value))
               else r.consumer.None? && r.effectiveStart == adopted)
  {
    hide EditableDrift, ImmutableDrift, Active, Adopted, IsOwned, UpdatePatch, FullConfig, Merge, Or;
    hide RecreationBoundary, RollbackConfig;
  }

  /** A fault that the call meets makes it fail; one that it does not meet makes no difference. */
  lemma FaultsAreFelt(options: Options, resumeAfter: Option<nat>, effectiveStart: Option<Start>, info: Info,
                      server: Server, fault: Fault)
    ensures
      var r := Reconcile(options, resumeAfter, effectiveStart, Some(info), server, fault);
      var well := Reconcile(options, resumeAfter, effectiveStart, Some(info), server, Works);
      var met := (fault == DeleteFails && Delete in well.calls)
                 || (CannotAdd(fault) && Delete in well.calls)
                 || (fault == UpdateFails && well.calls != [] && well.calls[0].Update?);
      if met then r.status == Failed && well.calls != [] && r.calls != [] && r.calls[0] == well.calls[0] else r == well
  {
    hide EditableDrift, ImmutableDrift, Active, Adopted, IsOwned, UpdatePatch, FullConfig, Merge, Or;
    hide RecreationBoundary, RollbackConfig;
  }
}
