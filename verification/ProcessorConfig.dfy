/**
 The configuration of a managed JetStream consumer: what a caller asks for, what a server reports, how both are
 brought to one form, and where that form differs.
 */
module ProcessorConfig {
  import opened Prelude

  const MaxSafe: nat := 9007199254740991
  const OwnerKey := "natsail.io/processor-owner"
  const OwnerValue := "natsail"

  datatype Mode = Bind | Ensure | Owned
  datatype DriftPolicy = RejectDrift | UpdateEditable | RecreateOwned
  datatype Start = FromAll | FromNew | After(sequence: nat)
  datatype AckPolicy = Explicit | AckAll | NoAck
  datatype DeliverPolicy = DeliverAll | DeliverNew | DeliverStartSequence | DeliverStartTime | DeliverLast
  datatype ReplayPolicy = Instant | Original

  type Metadata = map<string, string>

  datatype Options = Options(
    name: string, mode: Mode, filters: seq<string>, start: Start,
    ackWait: Option<nat>, backoff: Option<seq<nat>>, maxDeliver: Option<int>, maxAckPending: Option<nat>,
    metadata: Option<Metadata>, sample: Option<nat>, replicas: Option<nat>, memory: Option<bool>,
    replay: Option<ReplayPolicy>, policy: Option<DriftPolicy>)
  {
    function Policy(): DriftPolicy {
      if policy.Some? then policy.value
      else
        match mode
        case Bind => RejectDrift
        case Ensure => UpdateEditable
        case Owned => RecreateOwned
    }

    /** What the option validator guarantees and the functions below rely on. */
    ghost predicate Valid() {
      && filters != [] && (forall i :: 0 <= i < |filters| ==> filters[i] != "")
      && (start.After? ==> start.sequence < MaxSafe)
      && (backoff.Some? ==> backoff.value != [] && (ackWait.Some? ==> ackWait.value == backoff.value[0]))
      && (metadata.Some? ==> forall key :: key in metadata.value ==> !ServerKey(key) && key != OwnerKey)
      && (mode == Bind ==> Policy() == RejectDrift)
      && (mode == Ensure ==> Policy() != RecreateOwned)
    }
  }

  /** A consumer configuration in the server's own terms: durations in nanoseconds, a sampling rate as text. */
  datatype Config = Config(
    durable: Option<string>, name: Option<string>, deliverSubject: Option<string>,
    ack: AckPolicy, deliver: DeliverPolicy, startSequence: Option<nat>, startTime: Option<string>,
    replay: ReplayPolicy, filterSubject: Option<string>, filterSubjects: Option<seq<string>>,
    ackWait: Option<nat>, backoff: Option<seq<nat>>, maxDeliver: Option<int>, maxAckPending: Option<nat>,
    metadata: Option<Metadata>, sampleFreq: Option<string>, replicas: Option<nat>, memory: Option<bool>)

  /** What a server reports about a consumer. */
  datatype Info = Info(
    name: string, config: Config, ackFloor: nat, deliveredConsumer: nat, deliveredStream: nat, ackPending: nat)

  /** The common form in which desired and active configurations are compared. */
  datatype Normal = Normal(
    durable: string, push: bool, ack: AckPolicy, deliver: DeliverPolicy, startSequence: Option<nat>,
    replay: ReplayPolicy, filters: seq<string>, ackWait: Option<real>, backoff: Option<seq<real>>,
    maxDeliver: Option<int>, maxAckPending: Option<nat>, metadata: Option<Metadata>, sample: Option<nat>,
    replicas: Option<nat>, memory: Option<bool>)

  datatype Editable = Filters | AckWait | Backoff | MaxDeliver | MaxAckPending | MetadataField | Sample | Replicas
  datatype Immutable = DurableName | DeliveryKind | AckField | DeliverField | StartField | ReplayField | Memory

  const EditableOrder := [Filters, AckWait, Backoff, MaxDeliver, MaxAckPending, MetadataField, Sample, Replicas]
  const ImmutableOrder := [DurableName, DeliveryKind, AckField, DeliverField, StartField, ReplayField, Memory]

  // ---------------------------------------------------------------------------------------------
  // Subjects, durations, metadata and percentages
  // ---------------------------------------------------------------------------------------------

  predicate Precedes(a: string, b: string) {
    a == "" || (b != "" && (a[0] < b[0] || (a[0] == b[0] && Precedes(a[1..], b[1..]))))
  }

  function Insert(subject: string, sorted: seq<string>): seq<string> {
    if sorted == [] || Precedes(subject, sorted[0]) then [subject] + sorted
    else [sorted[0]] + Insert(subject, sorted[1..])
  }

  function Sort(subjects: seq<string>): seq<string> {
    if subjects == [] then [] else Insert(subjects[0], Sort(subjects[1..]))
  }

  function ToNanos(ms: nat): nat {
    ms * 1_000_000
  }

  function ToMs(nanos: nat): real {
    nanos as real / 1_000_000.0
  }

  /** Keys that begin with `_nats` belong to the server. */
  predicate ServerKey(key: string) {
    "_nats" <= key
  }

  function Public(metadata: Metadata): Metadata {
    map key | key in metadata && !ServerKey(key) :: metadata[key]
  }

  function Digit(n: nat): char
    requires n < 10
  {
    '0' + n as char
  }

  function Decimal(n: nat): string {
    if n < 10 then [Digit(n)] else Decimal(n / 10) + [Digit(n % 10)]
  }

  predicate IsDigit(c: char) {
    '0' <= c <= '9'
  }

  function Parse(text: string): Option<nat> {
    if text == "" then Some(0)
    else
      var last, front := text[|text| - 1], Parse(text[..|text| - 1]);
      if !IsDigit(last) || front.None? then None else Some(10 * front.value + (last - '0') as nat)
  }

  /** The text without its first percent sign. */
  function WithoutPercent(text: string): string {
    if text == "" then "" else if text[0] == '%' then text[1..] else [text[0]] + WithoutPercent(text[1..])
  }

  // ---------------------------------------------------------------------------------------------
  // One form for what is desired and what is active
  // ---------------------------------------------------------------------------------------------

  function MapSeq<S, T>(f: S -> T, xs: seq<S>): (r: seq<T>)
    ensures |r| == |xs| && forall i :: 0 <= i < |xs| ==> r[i] == f(xs[i])
  {
    seq(|xs|, i requires 0 <= i < |xs| => f(xs[i]))
  }

  function MapOption<S, T>(f: S -> T, x: Option<S>): Option<T> {
    if x.Some? then Some(f(x.value)) else None
  }

  function DesiredMetadata(options: Options): Option<Metadata> {
    if options.mode == Owned then
      Some(Public((if options.metadata.Some? then options.metadata.value else map[])[OwnerKey := OwnerValue]))
    else MapOption(Public, options.metadata)
  }

  /** The wait in force: the one asked for, or else the first backoff delay. */
  function EffectiveWait(options: Options): Option<nat> {
    if options.ackWait.Some? then options.ackWait
    else if options.backoff.Some? && options.backoff.value != [] then Some(options.backoff.value[0])
    else None
  }

  function Policy(start: Start): DeliverPolicy {
    match start
    case FromAll => DeliverAll
    case FromNew => DeliverNew
    case After(_) => DeliverStartSequence
  }

  function FirstSequence(start: Start): Option<nat> {
    if start.After? then Some(start.sequence + 1) else None
  }

  function Desired(options: Options, start: Start): Normal {
    Normal(options.name, false, Explicit, Policy(start), FirstSequence(start),
           if options.replay.Some? then options.replay.value else Instant,
           Sort(options.filters),
           MapOption((ms: nat) => ms as real, EffectiveWait(options)),
           MapOption((delays: seq<nat>) => MapSeq((ms: nat) => ms as real, delays), options.backoff),
           options.maxDeliver, options.maxAckPending, DesiredMetadata(options), options.sample, options.replicas,
           options.memory)
  }

  function Subjects(config: Config): seq<string> {
    (if config.filterSubject.Some? && config.filterSubject.value != "" then [config.filterSubject.value] else [])
    + (if config.filterSubjects.Some? then config.filterSubjects.value else [])
  }

  function SampleOf(config: Config): Option<nat> {
    if config.sampleFreq.None? then None else Parse(WithoutPercent(config.sampleFreq.value))
  }

  function DurableOf(info: Info): string {
    if info.config.durable.Some? then info.config.durable.value
    else if info.config.name.Some? then info.config.name.value
    else info.name
  }

  predicate IsPush(config: Config) {
    config.deliverSubject.Some? && config.deliverSubject.value != ""
  }

  function Active(info: Info): Normal {
    var config := info.config;
    Normal(DurableOf(info), IsPush(config), config.ack, config.deliver,
           config.startSequence, config.replay, Sort(Subjects(config)),
           MapOption(ToMs, config.ackWait),
           MapOption((delays: seq<nat>) => MapSeq(ToMs, delays), config.backoff),
           config.maxDeliver, config.maxAckPending, MapOption(Public, config.metadata), SampleOf(config),
           config.replicas, config.memory)
  }

  // ---------------------------------------------------------------------------------------------
  // Drift
  // ---------------------------------------------------------------------------------------------

  predicate EditableDiffers(options: Options, desired: Normal, active: Normal, field: Editable) {
    match field
    case Filters => desired.filters != active.filters
    case AckWait => (options.ackWait.Some? || options.backoff.Some?) && desired.ackWait != active.ackWait
    case Backoff => options.backoff.Some? && desired.backoff != active.backoff
    case MaxDeliver => options.maxDeliver.Some? && desired.maxDeliver != active.maxDeliver
    case MaxAckPending => options.maxAckPending.Some? && desired.maxAckPending != active.maxAckPending
    case MetadataField => (options.metadata.Some? || options.mode == Owned) && desired.metadata != active.metadata
    case Sample => options.sample.Some? && desired.sample != active.sample
    case Replicas => options.replicas.Some? && desired.replicas != active.replicas
  }

  predicate ImmutableDiffers(options: Options, desired: Normal, active: Normal, field: Immutable) {
    match field
    case DurableName => desired.durable != active.durable
    case DeliveryKind => desired.push != active.push
    case AckField => desired.ack != active.ack
    case DeliverField => desired.deliver != active.deliver
    case StartField => desired.startSequence != active.startSequence
    case ReplayField => options.replay.Some? && desired.replay != active.replay
    case Memory => options.memory.Some? && desired.memory != active.memory
  }

  function Selected<T(!new)>(order: seq<T>, chosen: T -> bool): (r: seq<T>)
    ensures forall field :: field in r <==> field in order && chosen(field)
  {
    if order == [] then []
    else (if chosen(order[0]) then [order[0]] else []) + Selected(order[1..], chosen)
  }

  function EditableDrift(options: Options, active: Normal, start: Start): (r: seq<Editable>)
    ensures forall field :: field in r <==>
      field in EditableOrder && EditableDiffers(options, Desired(options, start), active, field)
  {
    Selected(EditableOrder, field => EditableDiffers(options, Desired(options, start), active, field))
  }

  function ImmutableDrift(options: Options, active: Normal, start: Start): (r: seq<Immutable>)
    ensures forall field :: field in r <==>
      field in ImmutableOrder && ImmutableDiffers(options, Desired(options, start), active, field)
  {
    Selected(ImmutableOrder, field => ImmutableDiffers(options, Desired(options, start), active, field))
  }

  // ---------------------------------------------------------------------------------------------
  // Configurations sent to the server
  // ---------------------------------------------------------------------------------------------

  function Percent(n: nat): string {
    Decimal(n) + "%"
  }

  function FullConfig(options: Options, start: Start): Config {
    var filters := Sort(options.filters);
    Config(Some(options.name), None, None, Explicit, Policy(start), FirstSequence(start), None,
           if options.replay.Some? then options.replay.value else Instant,
           if |filters| == 1 then Some(filters[0]) else None,
           if |filters| == 1 then None else Some(filters),
           MapOption(ToNanos, EffectiveWait(options)),
           MapOption((delays: seq<nat>) => MapSeq(ToNanos, delays), options.backoff),
           options.maxDeliver, options.maxAckPending, DesiredMetadata(options), MapOption(Percent, options.sample),
           options.replicas, options.memory)
  }

  /** A partial update: only the fields that are present change. */
  datatype Patch = Patch(
    filterSubject: Option<string>, filterSubjects: Option<seq<string>>, ackWait: Option<nat>,
    backoff: Option<seq<nat>>, maxDeliver: Option<int>, maxAckPending: Option<nat>, metadata: Option<Metadata>,
    sampleFreq: Option<string>, replicas: Option<nat>)

  function UpdatePatch(options: Options, drift: seq<Editable>): Patch {
    var filters := Sort(options.filters);
    Patch(
      if Filters !in drift then None else if |filters| == 1 then Some(filters[0]) else Some(""),
      if Filters !in drift then None else if |filters| == 1 then Some([]) else Some(filters),
      if AckWait in drift then MapOption(ToNanos, EffectiveWait(options)) else None,
      if Backoff in drift then MapOption((delays: seq<nat>) => MapSeq(ToNanos, delays), options.backoff) else None,
      if MaxDeliver in drift then options.maxDeliver else None,
      if MaxAckPending in drift then options.maxAckPending else None,
      if MetadataField in drift then DesiredMetadata(options) else None,
      if Sample in drift then MapOption(Percent, options.sample) else None,
      if Replicas in drift then options.replicas else None)
  }

  function Either<T>(first: Option<T>, second: Option<T>): Option<T> {
    if first.Some? then first else second
  }

  /** A partial update applied to a full configuration. */
  function Merge(config: Config, patch: Patch): Config {
    config.(filterSubject := Either(patch.filterSubject, config.filterSubject),
            filterSubjects := Either(patch.filterSubjects, config.filterSubjects),
            ackWait := Either(patch.ackWait, config.ackWait),
            backoff := Either(patch.backoff, config.backoff),
            maxDeliver := Either(patch.maxDeliver, config.maxDeliver),
            maxAckPending := Either(patch.maxAckPending, config.maxAckPending),
            metadata := Either(patch.metadata, config.metadata),
            sampleFreq := Either(patch.sampleFreq, config.sampleFreq),
            replicas := Either(patch.replicas, config.replicas))
  }

  predicate Kept<T(==)>(sent: Option<T>, reported: Option<T>) {
    sent.Some? ==> reported == sent
  }

  /**
   What a faithful server reports for a configuration it accepted: every value that was sent, defaults of its own
   for optional ones that were not, a name of its own beside a durable one, the filters in either field and any
   order, and metadata keys of its own besides the caller's.
   */
  predicate Stored(sent: Config, reported: Config) {
    && reported.durable == sent.durable && (sent.durable.None? ==> reported.name == sent.name)
    && IsPush(reported) == IsPush(sent)
    && reported.ack == sent.ack && reported.deliver == sent.deliver && reported.startSequence == sent.startSequence
    && Kept(sent.startTime, reported.startTime) && reported.replay == sent.replay
    && multiset(Subjects(reported)) == multiset(Subjects(sent))
    && Kept(sent.ackWait, reported.ackWait) && Kept(sent.backoff, reported.backoff)
    && Kept(sent.maxDeliver, reported.maxDeliver) && Kept(sent.maxAckPending, reported.maxAckPending)
    && Kept(sent.sampleFreq, reported.sampleFreq) && Kept(sent.replicas, reported.replicas)
    && Kept(sent.memory, reported.memory)
    && (sent.metadata.Some? ==>
          reported.metadata.Some? && Public(reported.metadata.value) == Public(sent.metadata.value))
  }

  // ---------------------------------------------------------------------------------------------
  // Round trips
  // ---------------------------------------------------------------------------------------------

  predicate Sorted(subjects: seq<string>) {
    forall i :: 0 <= i < |subjects| - 1 ==> Precedes(subjects[i], subjects[i + 1])
  }

  lemma {:induction false} PrecedesTotal(a: string, b: string)
    ensures Precedes(a, b) || Precedes(b, a)
    decreases |a|
  {
    if a != "" && b != "" && a[0] == b[0] {
      PrecedesTotal(a[1..], b[1..]);
    }
  }

  lemma {:induction false} PrecedesBoth(a: string, b: string)
    requires Precedes(a, b) && Precedes(b, a)
    ensures a == b
    decreases |a|
  {
    if a != "" && b != "" {
      PrecedesBoth(a[1..], b[1..]);
      assert a == [a[0]] + a[1..] && b == [b[0]] + b[1..];
    }
  }

  lemma {:induction false} InsertSorted(subject: string, sorted: seq<string>)
    requires Sorted(sorted)
    ensures Sorted(Insert(subject, sorted))
    ensures Insert(subject, sorted)[0] == subject || (sorted != [] && Insert(subject, sorted)[0] == sorted[0])
    ensures multiset(Insert(subject, sorted)) == multiset(sorted) + multiset{subject}
    decreases |sorted|
  {
    if sorted != [] {
      assert sorted == [sorted[0]] + sorted[1..];
      if !Precedes(subject, sorted[0]) {
        PrecedesTotal(subject, sorted[0]);
        assert Sorted(sorted[1..]);
        InsertSorted(subject, sorted[1..]);
      }
    }
  }

  lemma {:induction false} SortSorts(subjects: seq<string>)
    ensures Sorted(Sort(subjects)) && multiset(Sort(subjects)) == multiset(subjects)
    decreases |subjects|
  {
    if subjects != [] {
      SortSorts(subjects[1..]);
      InsertSorted(subjects[0], Sort(subjects[1..]));
      WithoutFirst(subjects);
      hide Sorted, Insert;
    }
  }

  lemma {:induction false} SortOfSorted(subjects: seq<string>)
    requires Sorted(subjects)
    ensures Sort(subjects) == subjects
    decreases |subjects|
  {
    if subjects != [] {
      assert subjects == [subjects[0]] + subjects[1..];
      SortOfSorted(subjects[1..]);
    }
  }

  lemma {:induction false} PrecedesTransitive(a: string, b: string, c: string)
    requires Precedes(a, b) && Precedes(b, c)
    ensures Precedes(a, c)
    decreases |a|
  {
    if a != "" && a[0] == b[0] && b[0] == c[0] {
      PrecedesTransitive(a[1..], b[1..], c[1..]);
    }
  }

  lemma {:induction false} FirstIsLeast(sorted: seq<string>, i: nat)
    requires Sorted(sorted) && i < |sorted|
    ensures Precedes(sorted[0], sorted[i])
    decreases i
  {
    if i == 0 {
      PrecedesTotal(sorted[0], sorted[0]);
    } else {
      FirstIsLeast(sorted, i - 1);
      PrecedesTransitive(sorted[0], sorted[i - 1], sorted[i]);
    }
  }

  lemma WithoutFirst(a: seq<string>)
    requires a != []
    ensures multiset(a) == multiset(a[1..]) + multiset{a[0]} && a == [a[0]] + a[1..]
  {
    assert a == [a[0]] + a[1..];
  }

  lemma SameRest(x: multiset<string>, y: multiset<string>, subject: string)
    requires x + multiset{subject} == y + multiset{subject}
    ensures x == y
  {
    assert x == (x + multiset{subject}) - multiset{subject};
    assert y == (y + multiset{subject}) - multiset{subject};
  }

  lemma SameFirst(a: seq<string>, b: seq<string>)
    requires Sorted(a) && Sorted(b) && a != [] && b != [] && a[0] in b && b[0] in a
    ensures a[0] == b[0]
  {
    var i, j :| 0 <= i < |b| && b[i] == a[0] && 0 <= j < |a| && a[j] == b[0];
    FirstIsLeast(b, i);
    FirstIsLeast(a, j);
    PrecedesBoth(a[0], b[0]);
  }

  lemma {:induction false} SortedUnique(a: seq<string>, b: seq<string>)
    requires Sorted(a) && Sorted(b) && multiset(a) == multiset(b)
    ensures a == b
    decreases |a|
  {
    assert |a| == |multiset(a)| == |multiset(b)| == |b|;
    if a != [] {
      SortedRest(a);
      SortedRest(b);
      assert a[0] in multiset(b) && b[0] in multiset(a);
      SameFirst(a, b);
      WithoutFirst(a);
      WithoutFirst(b);
      SameRest(multiset(a[1..]), multiset(b[1..]), a[0]);
      SortedUnique(a[1..], b[1..]);
    }
  }

  lemma SortedRest(a: seq<string>)
    requires Sorted(a) && a != []
    ensures Sorted(a[1..])
  {
    forall i | 0 <= i < |a[1..]| - 1
      ensures Precedes(a[1..][i], a[1..][i + 1])
    {
      assert Precedes(a[i + 1], a[i + 1 + 1]);
    }
  }

  /** Filters are compared as collections: the order in which a caller or a server lists them is immaterial. */
  lemma SortCanonical(a: seq<string>, b: seq<string>)
    ensures Sort(a) == Sort(b) <==> multiset(a) == multiset(b)
  {
    SortSorts(a);
    SortSorts(b);
    if multiset(a) == multiset(b) {
      SortedUnique(Sort(a), Sort(b));
    }
  }

  lemma StoredSubjects(sent: Config, reported: Config)
    requires Stored(sent, reported)
    ensures Sort(Subjects(reported)) == Sort(Subjects(sent))
  {
    hide Sort, Subjects;
    SortCanonical(Subjects(reported), Subjects(sent));
  }

  /** Sorting what was sorted changes nothing. */
  lemma SortAgain(subjects: seq<string>)
    ensures Sort(Sort(subjects)) == Sort(subjects)
  {
    SortSorts(subjects);
    SortOfSorted(Sort(subjects));
  }

  lemma {:induction false} ParseDecimal(n: nat)
    ensures Parse(Decimal(n)) == Some(n)
    ensures forall i :: 0 <= i < |Decimal(n)| ==> Decimal(n)[i] != '%'
    decreases n
  {
    if n < 10 {
      assert Decimal(n)[..0] == "";
    } else {
      ParseDecimal(n / 10);
      var text := Decimal(n);
      assert text[..|text| - 1] == Decimal(n / 10) && text[|text| - 1] == Digit(n % 10);
    }
  }

  lemma {:induction false} StripPercent(text: string)
    requires forall i :: 0 <= i < |text| ==> text[i] != '%'
    ensures WithoutPercent(text + "%") == text
    decreases |text|
  {
    if text != "" {
      assert (text + "%")[1..] == text[1..] + "%";
      StripPercent(text[1..]);
    }
  }

  /** A percentage survives its trip through the server's text form. */
  lemma SampleRoundTrip(n: nat)
    ensures Parse(WithoutPercent(Percent(n))) == Some(n)
  {
    ParseDecimal(n);
    StripPercent(Decimal(n));
  }

  /** A duration survives its trip through nanoseconds. */
  lemma DurationRoundTrip(ms: nat)
    ensures ToMs(ToNanos(ms)) == ms as real
  {
  }

  lemma DelaysRoundTrip(delays: seq<nat>)
    ensures MapSeq(ToMs, MapSeq(ToNanos, delays)) == MapSeq((ms: nat) => ms as real, delays)
  {
    forall i | 0 <= i < |delays|
      ensures ToMs(ToNanos(delays[i])) == delays[i] as real
    {
      DurationRoundTrip(delays[i]);
    }
  }

  lemma PublicAgain(metadata: Metadata)
    ensures Public(Public(metadata)) == Public(metadata)
  {
  }
}
