/** Reconciling a managed consumer: what one call does to the server, and what a second call then finds. */
module ProcessorReconcile {
  import opened Prelude
  import opened ProcessorConfig

  datatype Reason = Missing | Drifted | NotOwned

  datatype Status =
    | Unchanged
    | Created(first: Option<nat>)
    | Updated
    | Recreated(deliveryBoundary: nat)
    | Rejected(reason: Reason)
    | Failed

  datatype Call = Add(config: Config) | Delete | Update(patch: Patch)

  /** What goes wrong at the server during the call, if anything; a declined deletion answers that it did nothing. */
  datatype Fault = Works | DeleteFails | DeleteDeclined | AddFails | AddAndRollbackFail | UpdateFails

  /** How the server reports a consumer it creates, and one it updates. */
  datatype Server = Server(create: Config -> Info, update: (Info, Config) -> Info)
  {
    ghost predicate Faithful() {
      && (forall config :: Stored(config, create(config).config))
      && (forall info, config :: Stored(config, update(info, config).config) && update(info, config).name == info.name)
    }
  }

  datatype Outcome = Outcome(
    status: Status, editable: seq<Editable>, immutable: seq<Immutable>,
    consumer: Option<Info>, effectiveStart: Option<Start>, calls: seq<Call>)

  function DeliverAfter(boundary: nat): Option<nat> {
    if boundary < MaxSafe then Some(boundary + 1) else None
  }

  predicate IsOwned(info: Info) {
    && info.config.metadata.Some?
    && OwnerKey in info.config.metadata.value && info.config.metadata.value[OwnerKey] == OwnerValue
  }

  /** The last sequence that a recreated consumer may skip, or nothing when there is no safe one. */
  function RecreationBoundary(info: Info): Option<nat> {
    if 0 < info.ackFloor then Some(info.ackFloor)
    else if info.config.deliver == DeliverStartSequence && info.config.startSequence.Some?
            && 0 < info.config.startSequence.value then Some(info.config.startSequence.value - 1)
    else if info.config.deliver == DeliverNew then
      if info.deliveredConsumer == 0 && info.ackPending == 0 then Some(info.deliveredStream) else None
    else Some(info.ackFloor)
  }

  /** The previous configuration, restarted at the boundary. */
  function RollbackConfig(config: Config, boundary: nat): Config {
    config.(deliver := DeliverStartSequence, startSequence := Some(boundary + 1), startTime := None)
  }

  /** An owned consumer that was to deliver only new messages keeps the explicit start it was recreated with. */
  function Adopted(options: Options, effectiveStart: Option<Start>, before: Normal): Option<Start> {
    if effectiveStart.None? && options.mode == Owned && options.start == FromNew
       && before.deliver == DeliverStartSequence && before.startSequence.Some? && 0 < before.startSequence.value
    then Some(After(before.startSequence.value - 1))
    else effectiveStart
  }

  function Or(effectiveStart: Option<Start>, start: Start): Start {
    if effectiveStart.Some? then effectiveStart.value else start
  }

  function Create(options: Options, resumeAfter: Option<nat>, effectiveStart: Option<Start>, server: Server,
                  fault: Fault): Outcome
  {
    var none := Outcome(Failed, [], [], None, effectiveStart, []);
    var boundary := if options.mode == Owned then resumeAfter else None;
    if options.mode == Bind then none.(status := Rejected(Missing), immutable := [DurableName])
    else if boundary.Some? && DeliverAfter(boundary.value).None? then none
    else
      var start := if boundary.Some? then After(boundary.value) else options.start;
      var config := FullConfig(options, start);
      var first := if boundary.Some? then DeliverAfter(boundary.value) else None;
      if fault == AddFails || fault == AddAndRollbackFail then none.(calls := [Add(config)])
      else Outcome(Created(first), [], [], Some(server.create(config)),
                   if boundary.Some? then Some(start) else effectiveStart, [Add(config)])
  }

  function Recreate(options: Options, effectiveStart: Option<Start>, info: Info, server: Server, fault: Fault,
                    editable: seq<Editable>, immutable: seq<Immutable>): Outcome
  {
    var boundary := RecreationBoundary(info);
    if boundary.None? || DeliverAfter(boundary.value).None? then
      Outcome(Failed, editable, immutable, Some(info), effectiveStart, [])
    else
      var start := After(boundary.value);
      var config, rollback := FullConfig(options, start), RollbackConfig(info.config, boundary.value);
      match fault
      case DeleteFails => Outcome(Failed, editable, immutable, Some(info), effectiveStart, [Delete])
      case AddFails =>
        Outcome(Failed, editable, immutable, Some(server.create(rollback)), Some(start),
                [Delete, Add(config), Add(rollback)])
      case AddAndRollbackFail =>
        Outcome(Failed, editable, immutable, None, effectiveStart, [Delete, Add(config), Add(rollback)])
      case _ =>
        Outcome(Recreated(boundary.value + 1), editable, immutable, Some(server.create(config)), Some(start),
                [Delete, Add(config)])
  }

  function UpdateInPlace(options: Options, effectiveStart: Option<Start>, info: Info, server: Server, fault: Fault,
                         editable: seq<Editable>): Outcome
  {
    var patch := UpdatePatch(options, editable);
    var after := server.update(info, Merge(info.config, patch));
    var start := Or(effectiveStart, options.start);
    if fault == UpdateFails then Outcome(Failed, editable, [], Some(info), effectiveStart, [Update(patch)])
    else if EditableDrift(options, Active(after), start) != []
            || ImmutableDrift(options, Active(after), start) != [] then
      Outcome(Failed, editable, [], Some(after), effectiveStart, [Update(patch)])
    else Outcome(Updated, editable, [], Some(after), effectiveStart, [Update(patch)])
  }

  function Reconcile(options: Options, resumeAfter: Option<nat>, effectiveStart: Option<Start>,
                     consumer: Option<Info>, server: Server, fault: Fault): Outcome
  {
    if consumer.None? then Create(options, resumeAfter, effectiveStart, server, fault)
    else
      var info := consumer.value;
      var before := Active(info);
      if options.mode == Owned && !IsOwned(info) then
        Outcome(Rejected(NotOwned), [], [], consumer, effectiveStart, [])
      else
        var adopted := Adopted(options, effectiveStart, before);
        var start := Or(adopted, options.start);
        var editable, immutable := EditableDrift(options, before, start), ImmutableDrift(options, before, start);
        if editable == [] && immutable == [] then Outcome(Unchanged, [], [], consumer, adopted, [])
        else if options.mode == Bind || options.Policy() == RejectDrift
                || (immutable != [] && (options.mode != Owned || options.Policy() != RecreateOwned)) then
          Outcome(Rejected(Drifted), editable, immutable, consumer, adopted, [])
        else if immutable != [] then Recreate(options, adopted, info, server, fault, editable, immutable)
        else UpdateInPlace(options, adopted, info, server, fault, editable)
  }

  // ---------------------------------------------------------------------------------------------
  // A faithful server leaves no drift
  // ---------------------------------------------------------------------------------------------

  ghost predicate Settled(options: Options, info: Info, start: Start) {
    && (forall field :: !EditableDiffers(options, Desired(options, start), Active(info), field))
    && (forall field :: !ImmutableDiffers(options, Desired(options, start), Active(info), field))
  }

  lemma SettledIff(options: Options, info: Info, start: Start)
    ensures Settled(options, info, start)
        <==> (EditableDrift(options, Active(info), start) == [] && ImmutableDrift(options, Active(info), start) == [])
  {
    hide EditableDiffers, ImmutableDiffers, Desired, Active, EditableDrift, ImmutableDrift;
    EditableNone(options, Active(info), start);
    ImmutableNone(options, Active(info), start);
  }

  lemma EditableNone(options: Options, active: Normal, start: Start)
    ensures EditableDrift(options, active, start) == []
        <==> forall field :: !EditableDiffers(options, Desired(options, start), active, field)
  {
    var drift := EditableDrift(options, active, start);
    hide EditableDiffers, Desired, EditableDrift;
    forall field: Editable
      ensures field in drift <==> EditableDiffers(options, Desired(options, start), active, field)
    {
      EveryEditable(field);
    }
    assert drift != [] ==> drift[0] in drift;
  }

  lemma ImmutableNone(options: Options, active: Normal, start: Start)
    ensures ImmutableDrift(options, active, start) == []
        <==> forall field :: !ImmutableDiffers(options, Desired(options, start), active, field)
  {
    var drift := ImmutableDrift(options, active, start);
    hide ImmutableDiffers, Desired, ImmutableDrift;
    forall field: Immutable
      ensures field in drift <==> ImmutableDiffers(options, Desired(options, start), active, field)
    {
      EveryImmutable(field);
    }
    assert drift != [] ==> drift[0] in drift;
  }

  lemma EveryEditable(field: Editable)
    ensures field in EditableOrder
  {
    match field
    case Filters => assert EditableOrder[0] == field;
    case AckWait => assert EditableOrder[1] == field;
    case Backoff => assert EditableOrder[2] == field;
    case MaxDeliver => assert EditableOrder[3] == field;
    case MaxAckPending => assert EditableOrder[4] == field;
    case MetadataField => assert EditableOrder[5] == field;
    case Sample => assert EditableOrder[6] == field;
    case Replicas => assert EditableOrder[7] == field;
  }

  lemma EveryImmutable(field: Immutable)
    ensures field in ImmutableOrder
  {
    match field
    case DurableName => assert ImmutableOrder[0] == field;
    case DeliveryKind => assert ImmutableOrder[1] == field;
    case AckField => assert ImmutableOrder[2] == field;
    case DeliverField => assert ImmutableOrder[3] == field;
    case StartField => assert ImmutableOrder[4] == field;
    case ReplayField => assert ImmutableOrder[5] == field;
    case Memory => assert ImmutableOrder[6] == field;
  }

  /** The subjects that reach the server are the sorted ones, whichever of its two fields carries them. */
  lemma SubjectsSurvive(options: Options, config: Config)
    requires options.Valid()
    requires var filters := Sort(options.filters);
      if |filters| == 1 then
        config.filterSubject == Some(filters[0]) && (config.filterSubjects.None? || config.filterSubjects == Some([]))
      else
        (config.filterSubject.None? || config.filterSubject == Some("")) && config.filterSubjects == Some(filters)
    ensures Sort(Subjects(config)) == Sort(options.filters)
  {
    var filters := Sort(options.filters);
    SortAgain(options.filters);
    if |filters| == 1 {
      SortSorts(options.filters);
      assert filters[0] in multiset(filters);
      assert filters[0] in multiset(options.filters);
      assert Subjects(config) == filters;
    } else {
      assert Subjects(config) == filters;
    }
  }

  lemma MetadataSurvives(options: Options, sent: Metadata, reported: Metadata)
    requires DesiredMetadata(options) == Some(sent) && Public(reported) == Public(sent)
    ensures Some(Public(reported)) == DesiredMetadata(options)
  {
    if options.mode == Owned {
      PublicAgain((if options.metadata.Some? then options.metadata.value else map[])[OwnerKey := OwnerValue]);
    } else {
      PublicAgain(options.metadata.value);
    }
  }

  /** A value that was sent is reported in the form in which it was desired. */
  lemma ScalarsSurvive(options: Options, config: Config)
    ensures EffectiveWait(options).Some? && config.ackWait == MapOption(ToNanos, EffectiveWait(options)) ==>
      MapOption(ToMs, config.ackWait) == MapOption((ms: nat) => ms as real, EffectiveWait(options))
    ensures config.backoff == MapOption((delays: seq<nat>) => MapSeq(ToNanos, delays), options.backoff) ==>
      MapOption((delays: seq<nat>) => MapSeq(ToMs, delays), config.backoff)
      == MapOption((delays: seq<nat>) => MapSeq((ms: nat) => ms as real, delays), options.backoff)
    ensures options.sample.Some? && config.sampleFreq == MapOption(Percent, options.sample) ==>
      SampleOf(config) == options.sample
  {
    if EffectiveWait(options).Some? {
      DurationRoundTrip(EffectiveWait(options).value);
    }
    if options.backoff.Some? {
      DelaysRoundTrip(options.backoff.value);
    }
    if options.sample.Some? {
      SampleRoundTrip(options.sample.value);
    }
  }

  /** A consumer created from the options, as a faithful server reports it, has no drift from them. */
  lemma CreatedIsSettled(options: Options, start: Start, info: Info)
    requires options.Valid() && Stored(FullConfig(options, start), info.config)
    ensures Settled(options, info, start)
  {
    hide EditableDiffers, ImmutableDiffers, Desired, Active, Stored, FullConfig, Options.Valid;
    forall field
      ensures !EditableDiffers(options, Desired(options, start), Active(info), field)
    {
      CreatedEditable(options, start, info, field);
    }
    forall field
      ensures !ImmutableDiffers(options, Desired(options, start), Active(info), field)
    {
      CreatedImmutable(options, start, info, field);
    }
  }

  lemma CreatedEditable(options: Options, start: Start, info: Info, field: Editable)
    requires options.Valid() && Stored(FullConfig(options, start), info.config)
    ensures !EditableDiffers(options, Desired(options, start), Active(info), field)
  {
    match field {
      case Filters =>
        SubjectsSurvive(options, FullConfig(options, start));
        StoredSubjects(FullConfig(options, start), info.config);
      case MetadataField =>
        if options.metadata.Some? || options.mode == Owned {
          MetadataSurvives(options, DesiredMetadata(options).value, info.config.metadata.value);
        }
      case _ => ScalarsSurvive(options, info.config);
    }
    hide Sort, Public, Parse, WithoutPercent, Percent, MapSeq, Subjects;
  }

  lemma CreatedImmutable(options: Options, start: Start, info: Info, field: Immutable)
    requires options.Valid() && Stored(FullConfig(options, start), info.config)
    ensures !ImmutableDiffers(options, Desired(options, start), Active(info), field)
  {
    hide Sort, Public, Parse, WithoutPercent, Percent, MapSeq, Subjects;
  }

  /** Applying the partial update to a consumer with only editable drift leaves no drift at all. */
  lemma UpdatedIsSettled(options: Options, start: Start, before: Info, after: Info)
    requires options.Valid() && ImmutableDrift(options, Active(before), start) == []
    requires after.name == before.name
    requires
      var drift := EditableDrift(options, Active(before), start);
      Stored(Merge(before.config, UpdatePatch(options, drift)), after.config)
    ensures Settled(options, after, start)
  {
    var drift := EditableDrift(options, Active(before), start);
    forall field: Editable
      ensures field in drift <==> EditableDiffers(options, Desired(options, start), Active(before), field)
    {
      EveryEditable(field);
    }
    forall field
      ensures !EditableDiffers(options, Desired(options, start), Active(after), field)
    {
      FieldSettles(options, start, before, after, drift, field);
    }
    forall field
      ensures !ImmutableDiffers(options, Desired(options, start), Active(after), field)
    {
      assert field !in ImmutableDrift(options, Active(before), start);
      EveryImmutable(field);
      assert !ImmutableDiffers(options, Desired(options, start), Active(before), field);
      FieldStays(options, start, before, after, drift, field);
    }
  }

  lemma FieldStays(options: Options, start: Start, before: Info, after: Info, drift: seq<Editable>, field: Immutable)
    requires after.name == before.name && Stored(Merge(before.config, UpdatePatch(options, drift)), after.config)
    requires !ImmutableDiffers(options, Desired(options, start), Active(before), field)
    ensures !ImmutableDiffers(options, Desired(options, start), Active(after), field)
  {
    hide Sort, Public, Parse, WithoutPercent, Percent, MapSeq, Subjects, UpdatePatch, Decimal;
  }

  lemma FieldSettles(options: Options, start: Start, before: Info, after: Info, drift: seq<Editable>, field: Editable)
    requires options.Valid() && Stored(Merge(before.config, UpdatePatch(options, drift)), after.config)
    requires field in drift <==> EditableDiffers(options, Desired(options, start), Active(before), field)
    ensures !EditableDiffers(options, Desired(options, start), Active(after), field)
  {
    match field {
      case Filters => FiltersSettle(options, start, before, after, drift);
      case MetadataField => MetadataSettles(options, start, before, after, drift);
      case _ =>
        ScalarsSurvive(options, after.config);
        hide Sort, Public, Parse, WithoutPercent, Percent, MapSeq, Subjects, Decimal;
    }
  }

  lemma FiltersSettle(options: Options, start: Start, before: Info, after: Info, drift: seq<Editable>)
    requires options.Valid() && Stored(Merge(before.config, UpdatePatch(options, drift)), after.config)
    requires Filters in drift <==> EditableDiffers(options, Desired(options, start), Active(before), Filters)
    ensures !EditableDiffers(options, Desired(options, start), Active(after), Filters)
  {
    var merged := Merge(before.config, UpdatePatch(options, drift));
    StoredSubjects(merged, after.config);
    if Filters in drift {
      SubjectsSurvive(options, merged);
    } else {
      assert Subjects(merged) == Subjects(before.config);
    }
    hide Sort, Public, Parse, WithoutPercent, Percent, MapSeq, Decimal;
  }

  lemma MetadataSettles(options: Options, start: Start, before: Info, after: Info, drift: seq<Editable>)
    requires options.Valid() && Stored(Merge(before.config, UpdatePatch(options, drift)), after.config)
    requires
      var differs := EditableDiffers(options, Desired(options, start), Active(before), MetadataField);
      MetadataField in drift <==> differs
    ensures !EditableDiffers(options, Desired(options, start), Active(after), MetadataField)
  {
    if (options.metadata.Some? || options.mode == Owned) && MetadataField in drift {
      MetadataSurvives(options, DesiredMetadata(options).value, after.config.metadata.value);
    }
    hide Sort, Public, Parse, WithoutPercent, Percent, MapSeq, Subjects, Decimal;
  }

  // ---------------------------------------------------------------------------------------------
  // A second call
  // ---------------------------------------------------------------------------------------------

  lemma SettledIsUnchanged(options: Options, resumeAfter: Option<nat>, effectiveStart: Option<Start>,
                           info: Info, server: Server, fault: Fault)
    requires options.mode == Owned ==> IsOwned(info)
    ensures
      var start := Or(Adopted(options, effectiveStart, Active(info)), options.start);
      (Reconcile(options, resumeAfter, effectiveStart, Some(info), server, fault).status == Unchanged)
      == Settled(options, info, start)
  {
    var start := Or(Adopted(options, effectiveStart, Active(info)), options.start);
    SettledIff(options, info, start);
    hide Settled, EditableDrift, ImmutableDrift, Active, Adopted, Or, IsOwned, UpdatePatch, FullConfig;
  }

  lemma SettledOnConfig(options: Options, start: Start, info: Info, other: Info)
    requires Settled(options, info, start) && other.config == info.config && other.name == info.name
    ensures Settled(options, other, start) && Active(other) == Active(info)
  {
    assert Active(other) == Active(info);
    hide Desired, EditableDiffers, ImmutableDiffers, Active;
  }

  lemma ActiveStart(options: Options, start: Start, info: Info)
    requires Settled(options, info, start)
    ensures Active(info).deliver == Policy(start) && Active(info).startSequence == FirstSequence(start)
  {
    assert !ImmutableDiffers(options, Desired(options, start), Active(info), DeliverField);
    assert !ImmutableDiffers(options, Desired(options, start), Active(info), StartField);
    hide Active;
  }

  /** Two starts ask the server for the same thing only when they are the same. */
  lemma StartsDiffer(options: Options, one: Start, other: Start, info: Info)
    requires Settled(options, info, one)
    ensures Settled(options, info, other) <==> one == other
  {
    ActiveStart(options, one, info);
    if Settled(options, info, other) {
      ActiveStart(options, other, info);
    }
  }

  /**
   After `unchanged`, `updated` or `recreated`, an immediate second call finds nothing to do, whatever deliveries
   and acknowledgements happened in between.
   */
  lemma Converges(options: Options, resumeAfter: Option<nat>, effectiveStart: Option<Start>, consumer: Option<Info>,
                  server: Server, fault: Fault, later: Info, again: Fault)
    requires options.Valid() && server.Faithful()
    requires
      var first := Reconcile(options, resumeAfter, effectiveStart, consumer, server, fault);
      && (first.status == Unchanged || first.status == Updated || first.status.Recreated?)
      && first.consumer.Some?
      && later.config == first.consumer.value.config && later.name == first.consumer.value.name
    ensures
      var first := Reconcile(options, resumeAfter, effectiveStart, consumer, server, fault);
      Reconcile(options, resumeAfter, first.effectiveStart, Some(later), server, again)
      == Outcome(Unchanged, [], [], Some(later), first.effectiveStart, [])
  {
    var first := Reconcile(options, resumeAfter, effectiveStart, consumer, server, fault);
    var left := first.consumer.value;
    LeftSettled(options, resumeAfter, effectiveStart, consumer, server, fault);
    hide Reconcile, Settled, Active, IsOwned, Adopted;
    SettledOnConfig(options, Or(first.effectiveStart, options.start), left, later);
    OwnedOnConfig(left, later);
    SettledIsUnchanged(options, resumeAfter, first.effectiveStart, later, server, again);
    UnchangedOutcome(options, resumeAfter, first.effectiveStart, later, server, again);
  }

  lemma OwnedOnConfig(info: Info, other: Info)
    requires other.config == info.config
    ensures IsOwned(other) == IsOwned(info)
  {
  }

  lemma UnchangedOutcome(options: Options, resumeAfter: Option<nat>, effectiveStart: Option<Start>,
                         info: Info, server: Server, fault: Fault)
    requires Reconcile(options, resumeAfter, effectiveStart, Some(info), server, fault).status == Unchanged
    ensures Reconcile(options, resumeAfter, effectiveStart, Some(info), server, fault)
         == Outcome(Unchanged, [], [], Some(info), Adopted(options, effectiveStart, Active(info)), [])
  {
    hide EditableDrift, ImmutableDrift, Active, Adopted, IsOwned, UpdatePatch, FullConfig;
  }

  /** What the three settled outcomes leave behind. */
  lemma LeftSettled(options: Options, resumeAfter: Option<nat>, effectiveStart: Option<Start>, consumer: Option<Info>,
                    server: Server, fault: Fault)
    requires options.Valid() && server.Faithful()
    requires
      var first := Reconcile(options, resumeAfter, effectiveStart, consumer, server, fault);
      first.status == Unchanged || first.status == Updated || first.status.Recreated?
    ensures
      var first := Reconcile(options, resumeAfter, effectiveStart, consumer, server, fault);
      && first.consumer.Some?
      && Settled(options, first.consumer.value, Or(first.effectiveStart, options.start))
      && (options.mode == Owned ==> IsOwned(first.consumer.value))
      && Adopted(options, first.effectiveStart, Active(first.consumer.value)) == first.effectiveStart
  {
    var first := Reconcile(options, resumeAfter, effectiveStart, consumer, server, fault);
    var info := consumer.value;
    var adopted := Adopted(options, effectiveStart, Active(info));
    AdoptedAgain(options, effectiveStart, Active(info));
    Paths(options, resumeAfter, effectiveStart, info, server, fault);
    hide *;
    match first.status {
      case Unchanged =>
        SettledIff(options, info, Or(adopted, options.start));
        OwnedWhenSettled(options, info, Or(adopted, options.start));
      case Updated =>
        UpdatedPath(options, adopted, info, server, fault, first.editable);
      case Recreated(next) =>
        RecreatedPath(options, adopted, info, server, fault, first.editable, first.immutable);
    }
  }

  lemma AdoptedAgain(options: Options, effectiveStart: Option<Start>, active: Normal)
    ensures Adopted(options, Adopted(options, effectiveStart, active), active)
         == Adopted(options, effectiveStart, active)
  {
  }

  /** Which of the three paths a call that ends well took. */
  lemma Paths(options: Options, resumeAfter: Option<nat>, effectiveStart: Option<Start>, info: Info,
              server: Server, fault: Fault)
    ensures
      var first := Reconcile(options, resumeAfter, effectiveStart, Some(info), server, fault);
      var adopted := Adopted(options, effectiveStart, Active(info));
      var start := Or(adopted, options.start);
      match first.status
      case Unchanged =>
        && EditableDrift(options, Active(info), start) == [] && ImmutableDrift(options, Active(info), start) == []
        && first.consumer == Some(info) && first.effectiveStart == adopted
      case Updated => first == UpdateInPlace(options, adopted, info, server, fault, first.editable)
      case Recreated(_) =>
        first == Recreate(options, adopted, info, server, fault, first.editable, first.immutable)
      case _ => true
  {
    hide EditableDrift, ImmutableDrift, Active, Adopted, IsOwned, UpdatePatch, FullConfig, Or, Merge;
    hide RecreationBoundary;
  }

  lemma UpdatedPath(options: Options, effectiveStart: Option<Start>, info: Info, server: Server, fault: Fault,
                    editable: seq<Editable>)
    requires UpdateInPlace(options, effectiveStart, info, server, fault, editable).status == Updated
    ensures
      var r := UpdateInPlace(options, effectiveStart, info, server, fault, editable);
      && r.consumer.Some? && r.effectiveStart == effectiveStart
      && Settled(options, r.consumer.value, Or(effectiveStart, options.start))
      && (options.mode == Owned ==> IsOwned(r.consumer.value))
      && Adopted(options, effectiveStart, Active(r.consumer.value)) == effectiveStart
  {
    hide EditableDrift, ImmutableDrift, Active, IsOwned, UpdatePatch, Settled, Merge;
    var left := UpdateInPlace(options, effectiveStart, info, server, fault, editable).consumer.value;
    SettledIff(options, left, Or(effectiveStart, options.start));
    OwnedWhenSettled(options, left, Or(effectiveStart, options.start));
    ActiveStart(options, Or(effectiveStart, options.start), left);
  }

  lemma RecreatedPath(options: Options, effectiveStart: Option<Start>, info: Info, server: Server, fault: Fault,
                      editable: seq<Editable>, immutable: seq<Immutable>)
    requires options.Valid() && server.Faithful()
    requires Recreate(options, effectiveStart, info, server, fault, editable, immutable).status.Recreated?
    ensures
      var r := Recreate(options, effectiveStart, info, server, fault, editable, immutable);
      && r.consumer.Some?
      && Settled(options, r.consumer.value, Or(r.effectiveStart, options.start))
      && (options.mode == Owned ==> IsOwned(r.consumer.value))
      && Adopted(options, r.effectiveStart, Active(r.consumer.value)) == r.effectiveStart
  {
    var r := Recreate(options, effectiveStart, info, server, fault, editable, immutable);
    var start := After(RecreationBoundary(info).value);
    assert r.consumer == Some(server.create(FullConfig(options, start))) && r.effectiveStart == Some(start);
    assert Stored(FullConfig(options, start), server.create(FullConfig(options, start)).config);
    hide Active, IsOwned, FullConfig, Settled, Recreate, RecreationBoundary;
    CreatedIsSettled(options, start, r.consumer.value);
    OwnedWhenSettled(options, r.consumer.value, start);
  }

  /** A settled owned consumer carries the marker, for the marker is part of the metadata that is compared. */
  lemma OwnedWhenSettled(options: Options, info: Info, start: Start)
    requires Settled(options, info, start)
    ensures options.mode == Owned ==> IsOwned(info)
  {
    if options.mode == Owned {
      assert !EditableDiffers(options, Desired(options, start), Active(info), MetadataField);
      assert !ServerKey(OwnerKey) by {
        assert OwnerKey[0] == 'n';
      }
      var sent := DesiredMetadata(options).value;
      assert OwnerKey in sent && sent[OwnerKey] == OwnerValue;
      assert MapOption(Public, info.config.metadata) == Some(sent);
      assert Public(info.config.metadata.value)[OwnerKey] == OwnerValue;
    }
  }

  // ---------------------------------------------------------------------------------------------
  // After creation
  // ---------------------------------------------------------------------------------------------

  /**
   After `created` a second call finds nothing to do exactly when the start that the consumer was created with is
   the one in force: it fails when the controller still remembers the start of an earlier recreation.
   */
  lemma CreatedConverges(options: Options, resumeAfter: Option<nat>, effectiveStart: Option<Start>,
                         server: Server, fault: Fault, again: Fault)
    requires options.Valid() && server.Faithful()
    requires Reconcile(options, resumeAfter, effectiveStart, None, server, fault).status.Created?
    ensures
      var first := Reconcile(options, resumeAfter, effectiveStart, None, server, fault);
      && first.consumer.Some?
      && (Reconcile(options, resumeAfter, first.effectiveStart, first.consumer, server, again).status == Unchanged
          <==> ((options.mode == Owned && resumeAfter.Some?) || effectiveStart.None?
                || effectiveStart == Some(options.start)))
  {
    var resumed := options.mode == Owned && resumeAfter.Some?;
    var start := if resumed then After(resumeAfter.value) else options.start;
    var first := Create(options, resumeAfter, effectiveStart, server, fault);
    assert first.consumer == Some(server.create(FullConfig(options, start)));
    assert first.effectiveStart == if resumed then Some(start) else effectiveStart;
    var info := first.consumer.value;
    assert Stored(FullConfig(options, start), info.config);
    assert Reconcile(options, resumeAfter, effectiveStart, None, server, fault) == first;
    hide Settled, Reconcile, Create, FullConfig, Active, Stored, IsOwned;
    CreatedIsSettled(options, start, info);
    ActiveStart(options, start, info);
    OwnedWhenSettled(options, info, start);
    SettledIsUnchanged(options, resumeAfter, first.effectiveStart, info, server, again);
    StartsDiffer(options, start, Or(Adopted(options, first.effectiveStart, Active(info)), options.start), info);
  }

  /** A controller that recreated a consumer, whose consumer is then deleted, creates it anew and recreates it again. */
  lemma StaleStartExample(options: Options, server: Server)
    requires options.Valid() && server.Faithful() && options.mode == Owned && options.start == FromAll
    ensures
      var first := Reconcile(options, None, Some(After(7)), None, server, Works);
      && first.status == Created(None)
      && Reconcile(options, None, first.effectiveStart, first.consumer, server, Works).status != Unchanged
  {
    CreatedConverges(options, None, Some(After(7)), server, Works, Works);
    hide FullConfig;
  }

  /**
   A new controller agrees with a recreated consumer exactly when it asks for new messages, or for the very boundary
   that the consumer as found implied.
   */
  lemma NewControllerConverges(options: Options, resumeAfter: Option<nat>, effectiveStart: Option<Start>, info: Info,
                               server: Server, fault: Fault, again: Fault)
    requires options.Valid() && server.Faithful()
    requires Reconcile(options, resumeAfter, effectiveStart, Some(info), server, fault).status.Recreated?
    ensures
      var first := Reconcile(options, resumeAfter, effectiveStart, Some(info), server, fault);
      && first.consumer.Some?
      && (Reconcile(options, resumeAfter, None, first.consumer, server, again).status == Unchanged
          <==> (options.start == FromNew
                || (options.start.After? && RecreationBoundary(info) == Some(options.start.sequence))))
  {
    hide *;
    var first := Reconcile(options, resumeAfter, effectiveStart, Some(info), server, fault);
    LeftSettled(options, resumeAfter, effectiveStart, Some(info), server, fault);
    RecreatedStart(options, resumeAfter, effectiveStart, info, server, fault);
    var left, start := first.consumer.value, first.effectiveStart.value;
    LeftAt(options, left, first.effectiveStart);
    ActiveStart(options, start, left);
    SettledIsUnchanged(options, resumeAfter, None, left, server, again);
    NewStart(options, start, left);
    StartsDiffer(options, start, Or(Adopted(options, None, Active(left)), options.start), left);
  }

  lemma LeftAt(options: Options, left: Info, effectiveStart: Option<Start>)
    requires effectiveStart.Some? && Settled(options, left, Or(effectiveStart, options.start))
    ensures Settled(options, left, effectiveStart.value)
  {
    hide Settled;
  }

  /** The start that a new controller compares with: an explicit one is adopted only in place of new messages. */
  lemma NewStart(options: Options, start: Start, left: Info)
    requires options.mode == Owned && start.After?
    requires Active(left).deliver == Policy(start) && Active(left).startSequence == FirstSequence(start)
    ensures start == Or(Adopted(options, None, Active(left)), options.start)
         <==> (options.start == FromNew || options.start == start)
  {
    hide Active;
  }

  /** A recreated consumer of a caller that wants every message is recreated again for each new controller. */
  lemma NewControllerExample(options: Options, info: Info, server: Server)
    requires options.Valid() && server.Faithful()
    requires options.mode == Owned && options.Policy() == RecreateOwned && options.start == FromAll
    requires IsOwned(info) && info.ackFloor == 7 && info.config.deliver == DeliverNew
    ensures
      var first := Reconcile(options, None, None, Some(info), server, Works);
      && first.status == Recreated(8) && first.consumer.Some?
      && Reconcile(options, None, None, first.consumer, server, Works).status != Unchanged
  {
    hide *;
    ExampleRecreates(options, info, server);
    NewControllerConverges(options, None, None, info, server, Works, Works);
  }

  lemma ExampleRecreates(options: Options, info: Info, server: Server)
    requires options.mode == Owned && options.Policy() == RecreateOwned && options.start == FromAll
    requires IsOwned(info) && info.ackFloor == 7 && info.config.deliver == DeliverNew
    ensures Reconcile(options, None, None, Some(info), server, Works).status == Recreated(8)
  {
    hide *;
    DeliverDrifts(options, info);
    OwnedRecreates(options, info, server);
    FloorFirst(info);
    RecreatesBehind(options, info, server, EditableDrift(options, Active(info), FromAll),
                    ImmutableDrift(options, Active(info), FromAll));
  }

  lemma FloorFirst(info: Info)
    requires 0 < info.ackFloor
    ensures RecreationBoundary(info) == Some(info.ackFloor)
  {
  }

  lemma DeliverDrifts(options: Options, info: Info)
    requires options.start == FromAll && info.config.deliver == DeliverNew
    ensures ImmutableDrift(options, Active(info), FromAll) != []
  {
    EveryImmutable(DeliverField);
    DeliverDiffers(options, info);
    hide ImmutableDiffers, Active, ImmutableDrift, Desired;
    assert DeliverField in ImmutableDrift(options, Active(info), FromAll);
  }

  lemma DeliverDiffers(options: Options, info: Info)
    requires options.start == FromAll && info.config.deliver == DeliverNew
    ensures ImmutableDiffers(options, Desired(options, FromAll), Active(info), DeliverField)
  {
    hide Sort, Public, Parse, WithoutPercent, MapSeq, Subjects, DesiredMetadata;
  }

  lemma OwnedRecreates(options: Options, info: Info, server: Server)
    requires options.mode == Owned && options.Policy() == RecreateOwned && options.start == FromAll && IsOwned(info)
    requires ImmutableDrift(options, Active(info), FromAll) != []
    ensures Reconcile(options, None, None, Some(info), server, Works)
         == Recreate(options, None, info, server, Works, EditableDrift(options, Active(info), FromAll),
                     ImmutableDrift(options, Active(info), FromAll))
  {
    hide EditableDrift, ImmutableDrift, Active, IsOwned, Recreate, UpdateInPlace, Options.Policy;
  }

  lemma RecreatesBehind(options: Options, info: Info, server: Server, editable: seq<Editable>,
                        immutable: seq<Immutable>)
    requires RecreationBoundary(info) == Some(7)
    ensures Recreate(options, None, info, server, Works, editable, immutable).status == Recreated(8)
  {
    hide FullConfig, RollbackConfig, RecreationBoundary;
  }

  lemma RecreatedStart(options: Options, resumeAfter: Option<nat>, effectiveStart: Option<Start>, info: Info,
                       server: Server, fault: Fault)
    requires Reconcile(options, resumeAfter, effectiveStart, Some(info), server, fault).status.Recreated?
    ensures
      var first := Reconcile(options, resumeAfter, effectiveStart, Some(info), server, fault);
      && options.mode == Owned && RecreationBoundary(info).Some?
      && first.effectiveStart == Some(After(RecreationBoundary(info).value))
  {
    hide EditableDrift, ImmutableDrift, Active, Adopted, IsOwned, UpdatePatch, FullConfig, Merge, RecreationBoundary;
  }

  // ---------------------------------------------------------------------------------------------
  // What a call may do to the server
  // ---------------------------------------------------------------------------------------------

  /** A faithful server makes every permitted in-place update succeed. */
  lemma FaithfulUpdateSucceeds(options: Options, resumeAfter: Option<nat>, effectiveStart: Option<Start>, info: Info,
                               server: Server)
    requires options.Valid() && server.Faithful() && (options.mode == Owned ==> IsOwned(info))
    requires options.mode != Bind && options.Policy() != RejectDrift
    requires
      var start := Or(Adopted(options, effectiveStart, Active(info)), options.start);
      EditableDrift(options, Active(info), start) != [] && ImmutableDrift(options, Active(info), start) == []
    ensures Reconcile(options, resumeAfter, effectiveStart, Some(info), server, Works).status == Updated
  {
    hide *;
    var adopted := Adopted(options, effectiveStart, Active(info));
    var start := Or(adopted, options.start);
    var drift := EditableDrift(options, Active(info), start);
    var patched := Merge(info.config, UpdatePatch(options, drift));
    FaithfulUpdate(server, info, patched);
    UpdatedIsSettled(options, start, info, server.update(info, patched));
    SettledIff(options, server.update(info, patched), start);
    InPlacePath(options, resumeAfter, effectiveStart, info, server);
    InPlaceUpdates(options, adopted, info, server, drift);
  }

  lemma FaithfulUpdate(server: Server, info: Info, config: Config)
    requires server.Faithful()
    ensures Stored(config, server.update(info, config).config) && server.update(info, config).name == info.name
  {
    hide Stored;
  }

  lemma InPlacePath(options: Options, resumeAfter: Option<nat>, effectiveStart: Option<Start>, info: Info,
                    server: Server)
    requires options.mode == Owned ==> IsOwned(info)
    requires options.mode != Bind && options.Policy() != RejectDrift
    requires
      var start := Or(Adopted(options, effectiveStart, Active(info)), options.start);
      EditableDrift(options, Active(info), start) != [] && ImmutableDrift(options, Active(info), start) == []
    ensures
      var adopted := Adopted(options, effectiveStart, Active(info));
      Reconcile(options, resumeAfter, effectiveStart, Some(info), server, Works)
      == UpdateInPlace(options, adopted, info, server, Works,
                       EditableDrift(options, Active(info), Or(adopted, options.start)))
  {
    hide EditableDrift, ImmutableDrift, Active, Adopted, IsOwned, UpdateInPlace, Recreate, Or;
  }

  lemma InPlaceUpdates(options: Options, effectiveStart: Option<Start>, info: Info, server: Server,
                       drift: seq<Editable>)
    requires
      var after := server.update(info, Merge(info.config, UpdatePatch(options, drift)));
      && EditableDrift(options, Active(after), Or(effectiveStart, options.start)) == []
      && ImmutableDrift(options, Active(after), Or(effectiveStart, options.start)) == []
    ensures UpdateInPlace(options, effectiveStart, info, server, Works, drift).status == Updated
  {
    hide EditableDrift, ImmutableDrift, Active, Or, Merge, UpdatePatch;
  }

  /** The server reports the owner's mark among the consumer's metadata. */
  predicate Marked(info: Info) {
    && info.config.metadata.Some?
    && "natsail.io/processor-owner" in info.config.metadata.value
    && info.config.metadata.value["natsail.io/processor-owner"] == "natsail"
  }

  lemma OwnedIffMarked(info: Info)
    ensures IsOwned(info) <==> Marked(info)
  {
  }

  /** An owner that finds a consumer without the mark reports it and touches nothing, whatever differs. */
  lemma UnmarkedRejected(options: Options, resumeAfter: Option<nat>, effectiveStart: Option<Start>, info: Info,
                         server: Server, fault: Fault)
    requires options.mode == Owned && !Marked(info)
    ensures Reconcile(options, resumeAfter, effectiveStart, Some(info), server, fault)
         == Outcome(Rejected(NotOwned), [], [], Some(info), effectiveStart, [])
  {
    OwnedIffMarked(info);
    hide EditableDrift, ImmutableDrift, Active, Adopted, IsOwned, UpdatePatch, FullConfig, Merge, Or;
  }

  /** A consumer is deleted only when it is marked as owned and the caller asked for recreation. */
  lemma OnlyOwnedDeleted(options: Options, resumeAfter: Option<nat>, effectiveStart: Option<Start>,
                         consumer: Option<Info>, server: Server, fault: Fault)
    ensures
      var r := Reconcile(options, resumeAfter, effectiveStart, consumer, server, fault);
      && (Delete in r.calls ==>
            && consumer.Some? && Marked(consumer.value)
            && options.mode == Owned && options.Policy() == RecreateOwned && r.immutable != []
            && RecreationBoundary(consumer.value).Some?)
      && (options.mode == Bind || options.Policy() == RejectDrift ==>
            r.calls == [] || (consumer.None? && options.mode != Bind))
      && (r.calls == [] ==> r.consumer == consumer)
  {
    hide *;
    OwnedDeleted(options, resumeAfter, effectiveStart, consumer, server, fault);
    if consumer.Some? {
      OwnedIffMarked(consumer.value);
    }
  }

  lemma OwnedDeleted(options: Options, resumeAfter: Option<nat>, effectiveStart: Option<Start>,
                     consumer: Option<Info>, server: Server, fault: Fault)
    ensures
      var r := Reconcile(options, resumeAfter, effectiveStart, consumer, server, fault);
      && (Delete in r.calls ==>
            && consumer.Some? && IsOwned(consumer.value)
            && options.mode == Owned && options.Policy() == RecreateOwned && r.immutable != []
            && RecreationBoundary(consumer.value).Some?)
      && (options.mode == Bind || options.Policy() == RejectDrift ==>
            r.calls == [] || (consumer.None? && options.mode != Bind))
      && (r.calls == [] ==> r.consumer == consumer)
  {
    hide EditableDrift, ImmutableDrift, Active, Adopted, IsOwned, UpdatePatch, FullConfig, Or, Merge;
    hide RecreationBoundary;
  }

  /** When recreation fails, the rollback restores all of the previous configuration but its start, at the boundary. */
  lemma RollbackKeepsBoundary(options: Options, resumeAfter: Option<nat>, effectiveStart: Option<Start>, info: Info,
                              server: Server)
    ensures
      var failed := Reconcile(options, resumeAfter, effectiveStart, Some(info), server, AddFails);
      var recreated := Reconcile(options, resumeAfter, effectiveStart, Some(info), server, Works);
      recreated.status.Recreated? ==>
        && failed.status == Failed && |failed.calls| == 3
        && failed.calls[..2] == recreated.calls && failed.calls[2].Add?
        && failed.calls[2].config.deliver == DeliverStartSequence
        && failed.calls[2].config.startSequence == Some(recreated.status.deliveryBoundary)
        && failed.calls[2].config
           == info.config.(deliver := DeliverStartSequence,
                           startSequence := Some(recreated.status.deliveryBoundary), startTime := None)
        && failed.effectiveStart == recreated.effectiveStart
        && failed.consumer == Some(server.create(failed.calls[2].config))
        && recreated.calls[1].Add? && recreated.calls[1].config.startSequence == failed.calls[2].config.startSequence
  {
    hide EditableDrift, ImmutableDrift, Active, Adopted, IsOwned, UpdatePatch, Merge, RecreationBoundary, Or;
    hide Sort, MapSeq, Public, DesiredMetadata, EffectiveWait, Percent;
  }
}
