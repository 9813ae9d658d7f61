/**
 A consumer as the server keeps it, and why recreating it at the boundary loses nothing: a message that was due
 and not acknowledged is still due afterwards, over any number of updates, recreations and rollbacks.
 */
module ProcessorRecreation {
  import opened Prelude
  import opened ProcessorConfig
  import opened ProcessorReconcile

  /** Whether a set of filters selects a subject; the server's wildcard rules are not modelled. */
  type Matching = (seq<string>, string) -> bool

  /**
   The stream's subjects (the first message has sequence 1) and one consumer on it. Sequences up to `scanned` were
   delivered or passed over; `reported` is the delivered stream sequence that the server shows; `floor` is its
   acknowledgement floor.
   */
  datatype State = State(
    stream: seq<string>,
    deliver: DeliverPolicy,
    first: nat,
    filters: seq<string>,
    scanned: nat,
    reported: nat,
    deliveries: nat,
    delivered: set<nat>,
    acked: set<nat>,
    floor: nat)

  datatype Event =
    | Publishes(subject: string)
    | Delivers
      /** The server passes over a message that does not match, and may or may not show that it did. */
    | Skips(shown: bool)
    | Redelivers(sequence: nat)
    | Acknowledges(sequence: nat)
    | RaisesFloor(to: nat)
    | Refilters(filters: seq<string>)
      /** Deletion and creation at the boundary, with new filters or, after a failure, with the previous ones. */
    | Recreates(filters: seq<string>)

  function Subject(state: State, sequence: nat): string
    requires 0 < sequence <= |state.stream|
  {
    state.stream[sequence - 1]
  }

  function Unacked(state: State): set<nat> {
    state.delivered - state.acked
  }

  /** What the server reports about the consumer. */
  function Report(state: State, config: Config): Info {
    Info("", config.(deliver := state.deliver,
                     startSequence := if state.deliver == DeliverStartSequence then Some(state.first) else None),
         state.floor, state.deliveries, state.reported, |Unacked(state)|)
  }

  /** A consumer as created: its floor is shown either as zero or as the sequence before its first. */
  function Create(stream: seq<string>, deliver: DeliverPolicy, first: nat, filters: seq<string>, shown: bool): State
    requires 0 < first
  {
    State(stream, deliver, first, filters, first - 1, first - 1, 0, {}, {}, if shown then first - 1 else 0)
  }

  /** The first sequence of a consumer with the given policy. */
  predicate ValidFirst(stream: seq<string>, deliver: DeliverPolicy, first: nat) {
    match deliver
    case DeliverAll => first == 1
    case DeliverNew => first == |stream| + 1
    case _ => 0 < first
  }

  predicate AllAcked(state: State, to: nat) {
    forall s :: s in state.delivered && s <= to ==> s in state.acked
  }

  function Step(matches: Matching, config: Config, state: State, event: Event): State {
    var next := state.scanned + 1;
    match event
    case Publishes(subject) => state.(stream := state.stream + [subject])
    case Delivers =>
      if next <= |state.stream| && matches(state.filters, Subject(state, next)) then
        state.(scanned := next, reported := next, deliveries := state.deliveries + 1,
               delivered := state.delivered + {next})
      else state
    case Skips(shown) =>
      if next <= |state.stream| && !matches(state.filters, Subject(state, next)) then
        state.(scanned := next, reported := if shown then next else state.reported)
      else state
    case Redelivers(s) => if s in Unacked(state) then state.(deliveries := state.deliveries + 1) else state
    case Acknowledges(s) => if s in state.delivered then state.(acked := state.acked + {s}) else state
    case RaisesFloor(to) =>
      if state.floor <= to <= state.scanned && state.first <= to + 1 && AllAcked(state, to) then state.(floor := to)
      else state
    case Refilters(filters) => state.(filters := filters)
    case Recreates(filters) =>
      var boundary := RecreationBoundary(Report(state, config));
      if boundary.None? || DeliverAfter(boundary.value).None? then state
      else Create(state.stream, DeliverStartSequence, boundary.value + 1, filters, false)
  }

  function Run(matches: Matching, config: Config, state: State, events: seq<Event>): State {
    if events == [] then state
    else Step(matches, config, Run(matches, config, state, events[..|events| - 1]), events[|events| - 1])
  }

  /** A message that the consumer has yet to see acknowledged: delivered without an answer, or still ahead of it. */
  predicate Due(matches: Matching, state: State, s: nat) {
    || s in Unacked(state)
    || (state.scanned < s <= |state.stream| && matches(state.filters, Subject(state, s)))
  }

  predicate Inv(state: State) {
    && 0 < state.first <= state.scanned + 1
    && state.floor <= state.scanned && (state.floor == 0 || state.first <= state.floor + 1)
    && state.first <= state.reported + 1 && state.reported <= state.scanned
    && (state.deliver == DeliverAll ==> state.first == 1)
    && (forall s :: s in state.delivered ==> state.first <= s <= state.scanned && s <= |state.stream|)
    && state.acked <= state.delivered
    && AllAcked(state, state.floor)
    && (state.deliveries == 0 ==> state.delivered == {})
  }

  lemma StepInv(matches: Matching, config: Config, state: State, event: Event)
    requires Inv(state)
    ensures Inv(Step(matches, config, state, event))
  {
    hide RecreationBoundary;
  }

  /** Whatever the server reports, a boundary that is found lies below everything that is due. */
  lemma BoundaryIsSafe(matches: Matching, config: Config, state: State, s: nat)
    requires Inv(state) && Due(matches, state, s)
    requires RecreationBoundary(Report(state, config)).Some?
    ensures RecreationBoundary(Report(state, config)).value < s
  {
    if state.floor == 0 && state.deliver == DeliverNew {
      NothingDelivered(state);
    }
  }

  /** With nothing pending and no delivery ever made, nothing was delivered. */
  lemma NothingDelivered(state: State)
    requires Inv(state) && state.deliveries == 0
    ensures Unacked(state) == {}
  {
  }

  /** A boundary is refused exactly for a `new` consumer without a floor that has made a delivery. */
  lemma RefusedIff(config: Config, state: State)
    requires Inv(state)
    ensures RecreationBoundary(Report(state, config)).None?
        <==> (state.deliver == DeliverNew && state.floor == 0 && state.deliveries != 0)
  {
    if state.deliveries == 0 {
      NothingDelivered(state);
    }
  }

  /** No step forgets a message that is due, unless it acknowledges it or the new filters leave it out. */
  lemma StepKeepsDue(matches: Matching, config: Config, state: State, event: Event, s: nat)
    requires Inv(state) && Due(matches, state, s) && 0 < s <= |state.stream|
    requires event != Acknowledges(s)
    requires matches(Step(matches, config, state, event).filters, Subject(state, s))
    ensures Due(matches, Step(matches, config, state, event), s)
    ensures s <= |Step(matches, config, state, event).stream|
    ensures Subject(Step(matches, config, state, event), s) == Subject(state, s)
  {
    if event.Recreates? && RecreationBoundary(Report(state, config)).Some? {
      BoundaryIsSafe(matches, config, state, s);
    }
    hide RecreationBoundary;
  }

  /** The filters in use after each of the events select the message, and none of them acknowledges it. */
  predicate StaysWanted(matches: Matching, config: Config, state: State, events: seq<Event>, s: nat, subject: string)
  {
    events == [] ||
    (&& StaysWanted(matches, config, state, events[..|events| - 1], s, subject)
     && events[|events| - 1] != Acknowledges(s)
     && matches(Run(matches, config, state, events).filters, subject))
  }

  lemma {:induction false} RunInv(matches: Matching, config: Config, state: State, events: seq<Event>)
    requires Inv(state)
    ensures Inv(Run(matches, config, state, events))
    decreases |events|
  {
    if events != [] {
      RunInv(matches, config, state, events[..|events| - 1]);
      StepInv(matches, config, Run(matches, config, state, events[..|events| - 1]), events[|events| - 1]);
    }
  }

  /**
   Over any run with any number of filter updates, recreations and rollbacks: a message that was due, and that the
   filters kept selecting, is due at the end unless it was acknowledged.
   */
  lemma {:induction false} NothingIsLost(
    matches: Matching, config: Config, state: State, events: seq<Event>, s: nat)
    requires Inv(state) && Due(matches, state, s) && 0 < s <= |state.stream|
    requires StaysWanted(matches, config, state, events, s, Subject(state, s))
    ensures
      var end := Run(matches, config, state, events);
      s <= |end.stream| && Subject(end, s) == Subject(state, s) && Due(matches, end, s)
    decreases |events|
  {
    hide Step, Due, Inv;
    if events != [] {
      var front := events[..|events| - 1];
      NothingIsLost(matches, config, state, front, s);
      RunInv(matches, config, state, front);
      StepKeepsDue(matches, config, Run(matches, config, state, front), events[|events| - 1], s);
    }
  }

  /** A consumer starts out with everything due that its policy promises. */
  lemma CreatedDue(matches: Matching, stream: seq<string>, deliver: DeliverPolicy, first: nat, filters: seq<string>,
                   shown: bool, s: nat)
    requires 0 < first && ValidFirst(stream, deliver, first)
    ensures Inv(Create(stream, deliver, first, filters, shown))
    ensures Due(matches, Create(stream, deliver, first, filters, shown), s)
        <==> first <= s <= |stream| && matches(filters, stream[s - 1])
  {
  }

  // ---------------------------------------------------------------------------------------------
  // Nor does a recreation bring anything back
  // ---------------------------------------------------------------------------------------------

  /** The policies whose report lets a start be read off: everything, what is new, or an explicit sequence. */
  predicate NamesStart(deliver: DeliverPolicy) {
    deliver == DeliverAll || deliver == DeliverNew || deliver == DeliverStartSequence
  }

  predicate Recreatable(state: State, config: Config) {
    var boundary := RecreationBoundary(Report(state, config));
    boundary.Some? && DeliverAfter(boundary.value).Some?
  }

  /**
   What is due after a recreation lies above the floor, at or behind the first sequence of the consumer it replaces,
   and, for one that waits for new messages and has no floor, above all it was reported to have passed.
   */
  lemma NothingBroughtBack(matches: Matching, config: Config, state: State, filters: seq<string>, s: nat)
    requires Inv(state) && Recreatable(state, config)
    requires Due(matches, Step(matches, config, state, Recreates(filters)), s)
    ensures state.floor < s
    ensures NamesStart(state.deliver) || state.floor != 0 ==> state.first <= s
    ensures state.deliver == DeliverNew && state.floor == 0 ==> state.reported < s
  {
  }

  /** A message that the consumer was created to skip is due after a recreation, whatever the filters were. */
  predicate BringsBack(matches: Matching, config: Config, state: State, filters: seq<string>, s: nat) {
    s < state.first && Due(matches, Step(matches, config, state, Recreates(filters)), s)
  }

  /**
   A recreation makes a message due that the consumer was created to skip exactly when no floor is reported and the
   consumer was created for the last message, or from a time, behind the first message of the stream.
   */
  lemma BroughtBackIff(config: Config, state: State)
    requires Inv(state) && Recreatable(state, config) && state.stream != []
    ensures
      (exists matches, filters, s :: BringsBack(matches, config, state, filters, s))
      <==> state.floor == 0 && !NamesStart(state.deliver) && 1 < state.first
  {
    if state.floor == 0 && !NamesStart(state.deliver) && 1 < state.first {
      assert BringsBack((filters, subject) => true, config, state, [], 1);
    } else {
      forall matches, filters, s | BringsBack(matches, config, state, filters, s)
        ensures false
      {
        NothingBroughtBack(matches, config, state, filters, s);
      }
    }
  }

  lemma StepNamesStart(matches: Matching, config: Config, state: State, event: Event)
    requires Inv(state) && NamesStart(state.deliver)
    ensures
      var next := Step(matches, config, state, event);
      NamesStart(next.deliver) && state.first <= next.first
  {
  }

  lemma {:induction false} FirstNeverFalls(matches: Matching, config: Config, state: State, events: seq<Event>)
    requires Inv(state) && NamesStart(state.deliver)
    ensures
      var end := Run(matches, config, state, events);
      NamesStart(end.deliver) && state.first <= end.first
    decreases |events|
  {
    hide Step, Inv, NamesStart;
    if events != [] {
      FirstNeverFalls(matches, config, state, events[..|events| - 1]);
      RunInv(matches, config, state, events[..|events| - 1]);
      StepNamesStart(matches, config, Run(matches, config, state, events[..|events| - 1]), events[|events| - 1]);
    }
  }

  /**
   Over any run, with any number of recreations: a consumer for everything, for new messages, or from an explicit
   sequence never owes a message before the first one it was created for.
   */
  lemma NothingEarlierEver(matches: Matching, config: Config, state: State, events: seq<Event>, s: nat)
    requires Inv(state) && NamesStart(state.deliver) && Due(matches, Run(matches, config, state, events), s)
    ensures state.first <= s
  {
    FirstNeverFalls(matches, config, state, events);
    RunInv(matches, config, state, events);
    hide Run;
  }

  // ---------------------------------------------------------------------------------------------
  // What is due can be delivered, and what is acknowledged is settled
  // ---------------------------------------------------------------------------------------------

  /**
   The consumer can go on to any message of the stream, and on the way every message that its filters select is
   delivered, and no other is.
   */
  lemma {:induction false} Advances(matches: Matching, config: Config, state: State, n: nat)
    returns (events: seq<Event>)
    requires state.scanned <= n <= |state.stream|
    ensures
      var end := Run(matches, config, state, events);
      && end.scanned == n && end.stream == state.stream && end.filters == state.filters && end.acked == state.acked
      && (forall s :: s in end.delivered
                 <==> s in state.delivered
                      || (state.scanned < s <= n && matches(state.filters, Subject(state, s))))
    decreases n
  {
    if n == state.scanned {
      events := [];
    } else {
      var front := Advances(matches, config, state, n - 1);
      var last := if matches(state.filters, Subject(state, n)) then Delivers else Skips(true);
      events := front + [last];
      assert events[..|front|] == front;
    }
  }

  /** Exactly an acknowledgement settles a delivered message; one that was not delivered cannot be acknowledged. */
  lemma AcknowledgedIsSettled(matches: Matching, config: Config, state: State, s: nat)
    requires Inv(state)
    ensures
      var next := Step(matches, config, state, Acknowledges(s));
      if s in state.delivered then !Due(matches, next, s) else next == state
    ensures forall other :: other != s ==>
      (Due(matches, Step(matches, config, state, Acknowledges(s)), other) <==> Due(matches, state, other))
  {
  }
}
