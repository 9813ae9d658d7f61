/**
 Saving progress of an ordered subscription that handles one delivery at a time: the store that refuses to go
 backwards, the writer that coalesces saves, and the intake loop that records what was handled.
 */
module Checkpointing {
  import opened Prelude

  const MaxSafe: nat := 9007199254740991

  // ---------------------------------------------------------------------------------------------
  // The store
  // ---------------------------------------------------------------------------------------------

  datatype Checkpoint = Checkpoint(stream: string, epoch: string, sequence: int, scope: Option<string>)

  datatype SaveError = InvalidStream | InvalidEpoch | InvalidSequence | InvalidScope | ScopeConflict | Regression

  function Validate(c: Checkpoint): Option<SaveError> {
    if c.stream == "" then Some(InvalidStream)
    else if c.epoch == "" then Some(InvalidEpoch)
    else if !(0 <= c.sequence <= MaxSafe) then Some(InvalidSequence)
    else if c.scope == Some("") then Some(InvalidScope)
    else None
  }

  function Conflict(stored: Option<Checkpoint>, incoming: Checkpoint): Option<SaveError> {
    if stored.None? then None
    else if stored.value.scope.Some? && stored.value.scope != incoming.scope then Some(ScopeConflict)
    else if stored.value.stream == incoming.stream && stored.value.epoch == incoming.epoch
            && incoming.sequence < stored.value.sequence then Some(Regression)
    else None
  }

  function Refusal(stored: Option<Checkpoint>, incoming: Checkpoint): Option<SaveError> {
    if Validate(incoming).Some? then Validate(incoming) else Conflict(stored, incoming)
  }

  class MemoryStore {
    var checkpoints: map<string, Checkpoint>

    constructor ()
      ensures checkpoints == map[]
    {
      checkpoints := map[];
    }

    function Stored(key: string): (r: Option<Checkpoint>)
      reads this
      ensures r.Some? <==> key in checkpoints
      ensures r.Some? ==> r.value == checkpoints[key]
    {
      if key in checkpoints then Some(checkpoints[key]) else None
    }

    method Load(key: string) returns (r: Option<Checkpoint>)
      ensures r == Stored(key)
    {
      r := Stored(key);
    }

    /** A refused checkpoint leaves the store as it was; an accepted one replaces only its own key. */
    method Save(key: string, checkpoint: Checkpoint) returns (error: Option<SaveError>)
      modifies this
      ensures error == Refusal(old(Stored(key)), checkpoint)
      ensures checkpoints == if error.None? then old(checkpoints)[key := checkpoint] else old(checkpoints)
    {
      error := Validate(checkpoint);
      if error.Some? {
        return error;
      }
      error := Conflict(Stored(key), checkpoint);
      if error.None? {
        checkpoints := checkpoints[key := checkpoint];
      }
    }

    method Clear(key: string)
      modifies this
      ensures checkpoints == old(checkpoints) - {key}
    {
      checkpoints := checkpoints - {key};
    }
  }

  // ---------------------------------------------------------------------------------------------
  // The writer
  // ---------------------------------------------------------------------------------------------

  /** When saves are coalesced: after so many records, or after a delay, or both; or not at all. */
  datatype Coalescing = EachRecord | Bounds(maxItems: Option<nat>, timed: bool)
  {
    predicate Reached(unsaved: nat) {
      EachRecord? || (maxItems.Some? && maxItems.value <= unsaved)
    }
  }

  /** What every checkpoint of one subscription shares. */
  datatype Identity = Identity(stream: string, epoch: string, scope: Option<string>)
  {
    predicate Valid() {
      stream != "" && epoch != "" && scope != Some("")
    }

    function At(sequence: nat): Checkpoint {
      Checkpoint(stream, epoch, sequence, scope)
    }
  }

  /** `saving` queues the saves under way; `attempts` lists those that reached the store, `saved` those it took. */
  datatype Writer = Writer(
    identity: Identity, coalesce: Coalescing,
    pending: Option<nat>, unsaved: nat, timer: bool, saving: seq<nat>, failure: bool,
    stored: Option<Checkpoint>, attempts: seq<nat>, saved: seq<nat>)

  function Flush(w: Writer): Writer {
    w.(timer := false, pending := None, unsaved := 0,
       saving := if w.pending.Some? then w.saving + [w.pending.value] else w.saving)
  }

  /** Records a handled delivery, once no save has failed. */
  function Record(w: Writer, sequence: nat): Writer {
    var recorded := w.(pending := Some(sequence), unsaved := w.unsaved + 1);
    if w.coalesce.Reached(recorded.unsaved) then Flush(recorded)
    else recorded.(timer := w.timer || w.coalesce.timed)
  }

  function Elapse(w: Writer): Writer {
    if w.timer then Flush(w) else w
  }

  /** The save at the head of the queue; `ok` says whether the store could be reached. */
  function SaveNext(w: Writer, ok: bool): Writer {
    if w.saving == [] then w
    else
      var next, rest := w.saving[0], w.(saving := w.saving[1..]);
      if w.failure then rest
      else if ok && Refusal(w.stored, w.identity.At(next)).None? then
        rest.(attempts := w.attempts + [next], saved := w.saved + [next], stored := Some(w.identity.At(next)))
      else rest.(attempts := w.attempts + [next], failure := true)
  }

  // ---------------------------------------------------------------------------------------------
  // The intake loop
  // ---------------------------------------------------------------------------------------------

  datatype Duplicates = Drop | Deliver | Error

  datatype Phase =
    | Reading
    | Handling(sequence: nat, duplicate: bool)
      /** Waiting for the saves that a record, or the end of the replay, has asked for. */
    | Recording(sequence: nat)
    | CatchingUp(sequence: nat, duplicate: bool)
    | Closing
    | Failing
    | Closed
    | Errored

  /** `delivered` lists the sequences that arrived as new, `handled` those whose handler succeeded. */
  datatype State = State(
    writer: Writer, duplicates: Duplicates, phase: Phase, committed: Option<nat>, remaining: nat, caughtUp: bool,
    start: Option<nat>, delivered: seq<nat>, handled: seq<nat>)

  /** A delivery is handled once it has been decoded; `Throws` is the iterator of messages giving up. */
  datatype Event =
    | Arrives(sequence: nat)
    | Handles(ok: bool)
    | Saves(ok: bool)
    | Elapses
    | Continues
    | Ends
    | Throws

  function Flushing(s: State, phase: Phase): State {
    s.(writer := Flush(s.writer), phase := phase)
  }

  function Advance(s: State): State {
    if s.remaining == 0 then s
    else s.(remaining := s.remaining - 1, caughtUp := s.caughtUp || s.remaining == 1)
  }

  function Commit(s: State, sequence: nat, duplicate: bool): State {
    var advanced := Advance(s).(phase := Reading);
    if duplicate then advanced else advanced.(committed := Some(sequence))
  }

  function AfterRecord(s: State, sequence: nat, duplicate: bool): State {
    if s.remaining == 1 then Flushing(s, CatchingUp(sequence, duplicate)) else Commit(s, sequence, duplicate)
  }

  function RecordHandled(s: State, sequence: nat): State {
    var handled := s.(handled := s.handled + [sequence]);
    if s.writer.failure then Flushing(handled, Failing)
    else
      var recorded := handled.(writer := Record(s.writer, sequence));
      if s.writer.coalesce.Reached(s.writer.unsaved + 1) then recorded.(phase := Recording(sequence))
      else AfterRecord(recorded, sequence, false)
  }

  predicate IsDuplicate(s: State, sequence: nat) {
    s.committed.Some? && sequence <= s.committed.value
  }

  function Arrive(s: State, sequence: nat): State {
    if !IsDuplicate(s, sequence) then s.(phase := Handling(sequence, false), delivered := s.delivered + [sequence])
    else
      match s.duplicates
      case Drop => Advance(s)
      case Error => Flushing(s, Failing)
      case Deliver => s.(phase := Handling(sequence, true))
  }

  function Continue(s: State): State {
    if s.writer.saving != [] then s
    else
      match s.phase
      case Recording(n) => if s.writer.failure then Flushing(s, Failing) else AfterRecord(s, n, false)
      case CatchingUp(n, duplicate) => if s.writer.failure then Flushing(s, Failing) else Commit(s, n, duplicate)
      case Closing => if s.writer.failure then Flushing(s, Failing) else s.(phase := Closed)
      case Failing => s.(phase := Errored)
      case _ => s
  }

  /** The loop waits for the iterator: for its next message, or for its end after the last saves. */
  predicate AtIterator(s: State) {
    s.phase.Reading? || (s.phase.Closing? && s.writer.saving == [] && !s.writer.failure)
  }

  function Step(s: State, event: Event): State {
    match event
    case Arrives(sequence) => if s.phase.Reading? then Arrive(s, sequence) else s
    case Handles(ok) =>
      if !s.phase.Handling? then s
      else if !ok then Flushing(s, Failing)
      else if s.phase.duplicate then AfterRecord(s, s.phase.sequence, true)
      else RecordHandled(s, s.phase.sequence)
    case Saves(ok) => s.(writer := SaveNext(s.writer, ok))
    case Elapses => s.(writer := Elapse(s.writer))
    case Continues => Continue(s)
    case Ends => if s.phase.Reading? then Flushing(s, Closing) else s
    case Throws => if AtIterator(s) then Flushing(s, Failing) else s
  }

  /** A subscription opened after a stored checkpoint, or without one at a start of the caller's. */
  function Open(identity: Identity, coalesce: Coalescing, duplicates: Duplicates, checkpoint: Option<nat>,
                after: Option<nat>, backlog: nat): State
  {
    var writer := Writer(identity, coalesce, None, 0, false, [], false,
                         if checkpoint.Some? then Some(identity.At(checkpoint.value)) else None, [], []);
    var start := if checkpoint.Some? then checkpoint else after;
    State(writer, duplicates, Reading, start, backlog, backlog == 0, start, [], [])
  }

  function Run(s: State, events: seq<Event>): State {
    if events == [] then s else Step(Run(s, events[..|events| - 1]), events[|events| - 1])
  }

  // ---------------------------------------------------------------------------------------------
  // Invariants
  // ---------------------------------------------------------------------------------------------

  ghost predicate Ascending(xs: seq<nat>) {
    forall i, j :: 0 <= i < j < |xs| ==> xs[i] < xs[j]
  }

  ghost predicate Over(xs: seq<nat>, bound: Option<nat>) {
    bound.Some? ==> forall i :: 0 <= i < |xs| ==> bound.value < xs[i]
  }

  function StoredSequence(w: Writer): Option<nat> {
    if w.stored.None? || w.stored.value.sequence < 0 then None else Some(w.stored.value.sequence)
  }

  /** The saves that are still to come, in order. */
  function Queue(w: Writer): seq<nat> {
    w.saving + (if w.pending.Some? then [w.pending.value] else [])
  }

  /** The store holds a checkpoint of this subscription, and what is queued for it goes strictly forward. */
  ghost predicate Forward(w: Writer) {
    && w.identity.Valid()
    && (w.stored.Some? ==> 0 <= w.stored.value.sequence && w.stored.value == w.identity.At(w.stored.value.sequence))
    && Ascending(Queue(w)) && Over(Queue(w), StoredSequence(w))
    && (forall i :: 0 <= i < |Queue(w)| ==> Queue(w)[i] <= MaxSafe)
    && (w.pending.None? <==> w.unsaved == 0)
    && (w.timer ==> w.coalesce.Bounds? && w.coalesce.timed)
  }

  function Last(xs: seq<nat>): Option<nat> {
    if xs == [] then None else Some(xs[|xs| - 1])
  }

  /** The newest checkpoint recorded: the last one queued, or else the one stored. */
  function Newest(w: Writer): Option<nat> {
    if Queue(w) != [] then Last(Queue(w)) else StoredSequence(w)
  }

  predicate AtMost(a: Option<nat>, b: Option<nat>) {
    a.Some? ==> b.Some? && a.value <= b.value
  }

  /** The position that the handled deliveries have reached. */
  function Reached(s: State): Option<nat> {
    if s.handled == [] then s.start else Last(s.handled)
  }

  /** The delivery that arrived as new and has not been handled, if there is one. */
  ghost predicate InHand(s: State) {
    match s.phase
    case Handling(n, false) => s.delivered == s.handled + [n]
    case Failing => s.delivered == s.handled || (|s.delivered| == |s.handled| + 1 && s.handled <= s.delivered)
    case Errored => s.delivered == s.handled || (|s.delivered| == |s.handled| + 1 && s.handled <= s.delivered)
    case _ => s.delivered == s.handled
  }

  ghost predicate Positions(s: State) {
    && Ascending(s.delivered) && Over(s.delivered, s.start) && InHand(s)
    && (forall i :: 0 <= i < |s.delivered| ==> s.delivered[i] <= MaxSafe)
    && (s.phase.Reading? || s.phase.Handling? || s.phase.Closing? ==> s.committed == Reached(s))
    && (s.phase.CatchingUp? && s.phase.duplicate ==> s.committed == Reached(s))
    && (s.phase.Recording? ==> Last(s.handled) == Some(s.phase.sequence))
    && (s.phase.CatchingUp? && !s.phase.duplicate ==> Last(s.handled) == Some(s.phase.sequence))
  }

  /** Until a save fails the newest checkpoint is the last delivery handled; the store is never ahead of that. */
  ghost predicate Recorded(s: State) {
    && (!s.writer.failure && s.handled != [] ==> Newest(s.writer) == Last(s.handled))
    && (s.handled == [] ==> Queue(s.writer) == [])
    && AtMost(Newest(s.writer), Reached(s))
    && AtMost(StoredSequence(s.writer), Newest(s.writer))
  }

  /** One attempt fails at most, and it is the last. */
  ghost predicate Attempted(w: Writer) {
    && Ascending(w.saved)
    && (w.saved != [] ==> StoredSequence(w) == Last(w.saved))
    && if w.failure then |w.attempts| == |w.saved| + 1 && w.saved <= w.attempts else w.attempts == w.saved
  }

  ghost predicate Inv(s: State) {
    Forward(s.writer) && Positions(s) && Recorded(s) && Attempted(s.writer)
  }

  // ---------------------------------------------------------------------------------------------
  // The store is never asked to go back
  // ---------------------------------------------------------------------------------------------

  /** The next save is never refused: it belongs to the same stream and goes forward. */
  lemma NeverRefused(w: Writer)
    requires Forward(w) && w.saving != []
    ensures Refusal(w.stored, w.identity.At(w.saving[0])) == None
  {
    assert Queue(w)[0] == w.saving[0];
  }

  lemma FlushQueue(w: Writer)
    ensures Queue(Flush(w)) == Queue(w) && Flush(w).pending == None
    ensures StoredSequence(Flush(w)) == StoredSequence(w)
  {
  }

  lemma FlushForward(w: Writer)
    requires Forward(w)
    ensures Forward(Flush(w)) && Newest(Flush(w)) == Newest(w) && Flush(w).failure == w.failure
    ensures Attempted(w) ==> Attempted(Flush(w))
  {
    FlushQueue(w);
    hide Queue, Ascending;
  }

  /** A save moves the store forward, or stops all saving. */
  lemma SaveForward(w: Writer, ok: bool)
    requires Forward(w) && Attempted(w)
    ensures Forward(SaveNext(w, ok)) && Attempted(SaveNext(w, ok))
    ensures !SaveNext(w, ok).failure ==> !w.failure && Newest(SaveNext(w, ok)) == Newest(w)
    ensures AtMost(Newest(SaveNext(w, ok)), Newest(w))
    ensures AtMost(StoredSequence(SaveNext(w, ok)), Newest(SaveNext(w, ok)))
    ensures AtMost(StoredSequence(w), StoredSequence(SaveNext(w, ok)))
    ensures Queue(w) == [] ==> SaveNext(w, ok) == w
  {
    StoredBelow(w);
    if w.saving != [] {
      if w.failure || !ok {
        SaveStops(w, ok);
      } else {
        SaveTaken(w);
      }
    }
  }

  /** The first of an ascending queue, and what follows it. */
  lemma QueueTail(queue: seq<nat>, next: nat, rest: seq<nat>, bound: Option<nat>)
    requires queue == [next] + rest && Ascending(queue) && Over(queue, bound)
    ensures Ascending(rest) && Over(rest, bound) && Over(rest, Some(next)) && (bound.Some? ==> bound.value < next)
    ensures rest != [] ==> Last(rest) == Last(queue) && next <= Last(queue).value
    ensures rest == [] ==> Last(queue) == Some(next)
    ensures (forall i :: 0 <= i < |queue| ==> queue[i] <= MaxSafe) ==>
      next <= MaxSafe && forall i :: 0 <= i < |rest| ==> rest[i] <= MaxSafe
  {
    hide *;
    QueueRest(queue, next, rest, bound);
    QueueLast(queue, next, rest);
  }

  lemma QueueLast(queue: seq<nat>, next: nat, rest: seq<nat>)
    requires queue == [next] + rest && Ascending(queue)
    ensures rest != [] ==> Last(rest) == Last(queue) && next <= Last(queue).value
    ensures rest == [] ==> Last(queue) == Some(next)
  {
    assert queue[0] == next;
    assert rest != [] ==> queue[|queue| - 1] == rest[|rest| - 1];
  }

  lemma QueueRest(queue: seq<nat>, next: nat, rest: seq<nat>, bound: Option<nat>)
    requires queue == [next] + rest && Ascending(queue) && Over(queue, bound)
    ensures Ascending(rest) && Over(rest, bound) && Over(rest, Some(next)) && (bound.Some? ==> bound.value < next)
    ensures (forall i :: 0 <= i < |queue| ==> queue[i] <= MaxSafe) ==>
      next <= MaxSafe && forall i :: 0 <= i < |rest| ==> rest[i] <= MaxSafe
  {
    assert queue[0] == next;
    assert forall i :: 0 <= i < |rest| ==> rest[i] == queue[i + 1];
  }

  lemma RestQueue(w: Writer, rest: Writer)
    requires w.saving != [] && rest.saving == w.saving[1..] && rest.pending == w.pending
    ensures Queue(w) == [w.saving[0]] + Queue(rest)
  {
  }

  lemma SaveStops(w: Writer, ok: bool)
    requires Forward(w) && Attempted(w) && w.saving != [] && (w.failure || !ok)
    ensures var r := SaveNext(w, ok);
      && Forward(r) && Attempted(r) && r.failure && StoredSequence(r) == StoredSequence(w)
      && AtMost(Newest(r), Newest(w)) && AtMost(StoredSequence(r), Newest(r))
  {
    StopsAttempted(w, ok);
    var r := SaveNext(w, ok);
    assert r.saving == w.saving[1..] && r.pending == w.pending && r.unsaved == w.unsaved && r.timer == w.timer;
    assert r.stored == w.stored && r.identity == w.identity && r.coalesce == w.coalesce && r.failure;
    hide Attempted, SaveNext, Queue, Ascending;
    RestQueue(w, r);
    QueueTail(Queue(w), w.saving[0], Queue(r), StoredSequence(w));
    StoredBelow(w);
    StoredBelow(r);
  }

  lemma StopsAttempted(w: Writer, ok: bool)
    requires Attempted(w) && w.saving != [] && (w.failure || !ok)
    ensures Attempted(SaveNext(w, ok))
  {
    hide Ascending, Conflict, Validate;
  }

  lemma SaveTaken(w: Writer)
    requires Forward(w) && Attempted(w) && w.saving != [] && !w.failure
    ensures var r := SaveNext(w, true);
      && Forward(r) && Attempted(r) && !r.failure && Newest(r) == Newest(w)
      && AtMost(StoredSequence(w), StoredSequence(r)) && AtMost(StoredSequence(r), Newest(r))
  {
    var r, next := SaveNext(w, true), w.saving[0];
    NeverRefused(w);
    TakenAttempted(w);
    assert r.saving == w.saving[1..] && r.pending == w.pending && r.unsaved == w.unsaved && r.timer == w.timer;
    assert r.identity == w.identity && r.coalesce == w.coalesce && !r.failure && StoredSequence(r) == Some(next);
    assert r.stored == Some(w.identity.At(next));
    hide Attempted, SaveNext, Queue, Ascending, Conflict, Validate, Refusal;
    RestQueue(w, r);
    QueueTail(Queue(w), next, Queue(r), StoredSequence(w));
    StoredBelow(r);
  }

  lemma TakenAttempted(w: Writer)
    requires Forward(w) && Attempted(w) && w.saving != [] && !w.failure
    ensures Attempted(SaveNext(w, true))
  {
    NeverRefused(w);
    assert Queue(w)[0] == w.saving[0];
    assert w.saved != [] ==> w.saved[|w.saved| - 1] < w.saving[0];
    SavedMore(w.saved, w.saving[0]);
    hide Queue, Ascending, Conflict, Validate, Refusal;
  }

  lemma SavedMore(saved: seq<nat>, next: nat)
    requires Ascending(saved) && (saved != [] ==> saved[|saved| - 1] < next)
    ensures Ascending(saved + [next])
  {
    assert forall i :: 0 <= i < |saved| ==> saved[i] <= saved[|saved| - 1];
  }

  lemma StoredBelow(w: Writer)
    requires Ascending(Queue(w)) && Over(Queue(w), StoredSequence(w))
    ensures AtMost(StoredSequence(w), Newest(w))
  {
  }

  /** Recording replaces the pending checkpoint by a newer one. */
  lemma RecordForward(w: Writer, sequence: nat)
    requires Forward(w) && sequence <= MaxSafe
    requires Newest(w).Some? ==> Newest(w).value < sequence
    requires Queue(w) != [] ==> Last(Queue(w)).value < sequence
    requires AtMost(StoredSequence(w), Newest(w))
    ensures Forward(Record(w, sequence)) && Newest(Record(w, sequence)) == Some(sequence)
    ensures Attempted(w) ==> Attempted(Record(w, sequence))
    ensures Record(w, sequence).failure == w.failure && StoredSequence(Record(w, sequence)) == StoredSequence(w)
  {
    var recorded := w.(pending := Some(sequence), unsaved := w.unsaved + 1);
    QueueReplaced(w, sequence, StoredSequence(w));
    assert Queue(recorded) == w.saving + [sequence] && StoredSequence(recorded) == StoredSequence(w);
    hide Queue, Ascending, Attempted, Record;
    RecordCases(w, sequence, recorded);
    assert Forward(recorded.(timer := false)) && Newest(recorded.(timer := false)) == Some(sequence);
    FlushForward(recorded.(timer := false));
    RecordAttempted(w, sequence);
  }

  lemma QueueReplaced(w: Writer, sequence: nat, bound: Option<nat>)
    requires Ascending(Queue(w)) && Over(Queue(w), bound) && sequence <= MaxSafe
    requires Queue(w) != [] ==> Last(Queue(w)).value < sequence
    requires bound.Some? ==> bound.value < sequence
    requires forall i :: 0 <= i < |Queue(w)| ==> Queue(w)[i] <= MaxSafe
    ensures var queue := w.saving + [sequence];
      Ascending(queue) && Over(queue, bound) && forall i :: 0 <= i < |queue| ==> queue[i] <= MaxSafe
  {
    assert forall i :: 0 <= i < |w.saving| ==> w.saving[i] == Queue(w)[i];
    assert Queue(w) != [] ==> forall i :: 0 <= i < |Queue(w)| ==> Queue(w)[i] <= Last(Queue(w)).value;
  }

  lemma RecordAttempted(w: Writer, sequence: nat)
    ensures var r := Record(w, sequence);
      && r.saved == w.saved && r.attempts == w.attempts && r.failure == w.failure && r.stored == w.stored
      && r.identity == w.identity && r.coalesce == w.coalesce
    ensures Attempted(w) ==> Attempted(Record(w, sequence))
  {
    hide Ascending;
  }

  lemma RecordCases(w: Writer, sequence: nat, recorded: Writer)
    requires recorded == w.(pending := Some(sequence), unsaved := w.unsaved + 1)
    ensures w.coalesce.Reached(recorded.unsaved) ==> Record(w, sequence) == Flush(recorded.(timer := false))
    ensures !w.coalesce.Reached(recorded.unsaved) ==>
      Record(w, sequence) == recorded.(timer := w.timer || w.coalesce.timed)
    ensures Queue(recorded.(timer := false)) == Queue(recorded)
    ensures Queue(recorded.(timer := w.timer || (w.coalesce.Bounds? && w.coalesce.timed))) == Queue(recorded)
  {
  }
}
