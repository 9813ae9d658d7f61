/** What holds of a checkpointed subscription in every reachable state, however its handler and its store fail. */
module CheckpointSafety {
  import opened Prelude
  import opened Checkpointing

  // ---------------------------------------------------------------------------------------------
  // Every step
  // ---------------------------------------------------------------------------------------------

  lemma SavesInv(s: State, ok: bool)
    requires Inv(s)
    ensures Inv(s.(writer := SaveNext(s.writer, ok)))
  {
    hide Forward, Attempted, SaveNext, Ascending, Queue, StoredSequence, Newest;
    SaveForward(s.writer, ok);
    AtMostTransitive(Newest(SaveNext(s.writer, ok)), Newest(s.writer), Reached(s));
  }

  lemma AtMostTransitive(a: Option<nat>, b: Option<nat>, c: Option<nat>)
    requires AtMost(a, b) && AtMost(b, c)
    ensures AtMost(a, c)
  {
  }

  lemma FlushInv(s: State, phase: Phase)
    requires Forward(s.writer) && Recorded(s) && Attempted(s.writer) && Positions(s.(phase := phase))
    ensures Inv(Flushing(s, phase))
  {
    hide Forward, Attempted, Flush, Ascending, Queue, StoredSequence, Newest;
    FlushForward(s.writer);
    FlushQueue(s.writer);
  }

  lemma ElapsesInv(s: State)
    requires Inv(s)
    ensures Inv(s.(writer := Elapse(s.writer)))
  {
    hide Positions, Forward, Recorded, Attempted;
    if s.writer.timer {
      var r := s.(writer := Flush(s.writer));
      assert Positions(s.(phase := s.phase));
      FlushInv(s, s.phase);
    }
  }

  lemma CommitInv(s: State, sequence: nat, duplicate: bool)
    requires Forward(s.writer) && Recorded(s) && Attempted(s.writer)
    requires Positions(s.(phase := CatchingUp(sequence, duplicate)))
    ensures Inv(Commit(s, sequence, duplicate))
  {
    hide Forward, Attempted, Ascending, Queue, StoredSequence, Newest;
  }

  lemma AfterRecordInv(s: State, sequence: nat, duplicate: bool)
    requires Forward(s.writer) && Recorded(s) && Attempted(s.writer)
    requires Positions(s.(phase := CatchingUp(sequence, duplicate)))
    ensures Inv(AfterRecord(s, sequence, duplicate))
  {
    hide Forward, Recorded, Attempted, Positions;
    if s.remaining == 1 {
      FlushInv(s, CatchingUp(sequence, duplicate));
    } else {
      CommitInv(s, sequence, duplicate);
    }
  }

  lemma HandledPositions(s: State, n: nat, phase: Phase)
    requires Positions(s) && s.phase == Handling(n, false)
    requires phase == Recording(n) || phase == CatchingUp(n, false) || phase == Failing
    ensures Positions(s.(handled := s.handled + [n], phase := phase))
  {
    hide Ascending;
  }

  /** What has just been handled lies past everything recorded. */
  lemma HandledIsNew(s: State, n: nat)
    requires Inv(s) && s.phase == Handling(n, false)
    ensures n <= MaxSafe && (Reached(s).Some? ==> Reached(s).value < n)
    ensures Newest(s.writer).Some? ==> Newest(s.writer).value < n
    ensures Queue(s.writer) != [] ==> Last(Queue(s.writer)).value < n
  {
    assert s.delivered[|s.handled|] == n;
    if s.handled != [] {
      assert s.delivered[|s.handled| - 1] == s.handled[|s.handled| - 1];
    }
    hide Forward, Attempted, Queue, StoredSequence;
  }

  lemma RecordedAfter(s: State, n: nat)
    requires Inv(s) && s.phase == Handling(n, false) && !s.writer.failure
    ensures
      var r := s.(handled := s.handled + [n], writer := Record(s.writer, n));
      Forward(r.writer) && Recorded(r) && Attempted(r.writer)
  {
    hide *;
    InvParts(s);
    HandledIsNew(s, n);
    RecordForward(s.writer, n);
    ForwardBelow(Record(s.writer, n));
    RecordedNew(s.(handled := s.handled + [n], writer := Record(s.writer, n)), n);
  }

  lemma InvParts(s: State)
    requires Inv(s)
    ensures Forward(s.writer) && Attempted(s.writer) && AtMost(StoredSequence(s.writer), Newest(s.writer))
    ensures AtMost(Newest(s.writer), Reached(s))
  {
    hide Forward, Attempted, Positions, Newest, StoredSequence, Queue;
  }

  lemma ForwardBelow(w: Writer)
    requires Forward(w)
    ensures AtMost(StoredSequence(w), Newest(w))
  {
    StoredBelow(w);
    hide Queue, Ascending, StoredSequence, Newest;
  }

  lemma RecordedNew(s: State, n: nat)
    requires s.handled != [] && s.handled[|s.handled| - 1] == n && Newest(s.writer) == Some(n)
    requires AtMost(StoredSequence(s.writer), Newest(s.writer))
    ensures Recorded(s)
  {
    hide Queue, StoredSequence, Newest;
  }

  lemma FailedAfter(s: State, n: nat)
    requires Inv(s) && s.phase == Handling(n, false) && s.writer.failure
    ensures Recorded(s.(handled := s.handled + [n]))
  {
    HandledIsNew(s, n);
    hide Forward, Attempted, Record, Queue, Ascending, StoredSequence, Positions, Newest;
  }

  lemma RecordHandledInv(s: State, n: nat)
    requires Inv(s) && s.phase == Handling(n, false)
    ensures Inv(RecordHandled(s, n))
  {
    var handled := s.(handled := s.handled + [n]);
    if s.writer.failure {
      FailedAfter(s, n);
      HandledPositions(s, n, Failing);
      hide Forward, Recorded, Attempted, Positions;
      FlushInv(handled, Failing);
    } else {
      var recorded := handled.(writer := Record(s.writer, n));
      RecordedAfter(s, n);
      HandledPositions(s, n, Recording(n));
      HandledPositions(s, n, CatchingUp(n, false));
      hide Forward, Recorded, Attempted, Inv;
      WriterOnly(handled.(phase := Recording(n)), recorded.(phase := Recording(n)));
      WriterOnly(handled.(phase := CatchingUp(n, false)), recorded.(phase := CatchingUp(n, false)));
      hide Positions;
      if s.writer.coalesce.Reached(s.writer.unsaved + 1) {
        InvFrom(recorded.(phase := Recording(n)));
      } else {
        AfterRecordInv(recorded, n, false);
      }
    }
  }

  lemma WriterOnly(a: State, b: State)
    requires Positions(a) && b == a.(writer := b.writer)
    ensures Positions(b)
  {
    hide Ascending;
  }

  lemma InvFrom(s: State)
    requires Forward(s.writer) && Recorded(s) && Attempted(s.writer) && Positions(s)
    ensures Inv(s)
  {
    hide Forward, Recorded, Attempted, Positions;
  }

  lemma AscendingSnoc(xs: seq<nat>, n: nat)
    requires Ascending(xs) && (xs != [] ==> xs[|xs| - 1] < n)
    ensures Ascending(xs + [n])
  {
    assert forall i :: 0 <= i < |xs| ==> xs[i] <= xs[|xs| - 1];
  }

  lemma ArriveInv(s: State, sequence: nat)
    requires Inv(s) && s.phase.Reading? && sequence <= MaxSafe
    ensures Inv(Arrive(s, sequence))
  {
    hide Forward, Attempted, Recorded, Ascending;
    if !IsDuplicate(s, sequence) {
      var r := Arrive(s, sequence);
      if s.handled != [] {
        assert s.committed == Last(s.handled);
      }
      assert s.delivered != [] ==> s.delivered[|s.delivered| - 1] < sequence;
      AscendingSnoc(s.delivered, sequence);
      RecordedOnly(s, r);
      assert Positions(r);
    } else {
      match s.duplicates {
        case Drop => RecordedOnly(s, Arrive(s, sequence));
        case Error => FlushInv(s, Failing);
        case Deliver => RecordedOnly(s, Arrive(s, sequence));
      }
    }
  }

  lemma RecordedOnly(a: State, b: State)
    requires Recorded(a) && b.writer == a.writer && b.handled == a.handled && b.start == a.start
    ensures Recorded(b)
  {
    hide Queue, Newest, StoredSequence;
  }

  lemma ContinueInv(s: State)
    requires Inv(s)
    ensures Inv(Continue(s))
  {
    hide Forward, Attempted, Recorded, Ascending;
    if s.writer.saving == [] {
      match s.phase {
        case Recording(n) =>
          if s.writer.failure {
            FlushInv(s, Failing);
          } else {
            AfterRecordInv(s, n, false);
          }
        case CatchingUp(n, duplicate) =>
          if s.writer.failure {
            FlushInv(s, Failing);
          } else {
            CommitInv(s, n, duplicate);
          }
        case Closing =>
          if s.writer.failure {
            FlushInv(s, Failing);
          } else {
            RecordedOnly(s, Continue(s));
          }
        case Failing => RecordedOnly(s, Continue(s));
        case _ =>
      }
    }
  }

  lemma StepInv(s: State, event: Event)
    requires Inv(s) && (event.Arrives? ==> event.sequence <= MaxSafe)
    ensures Inv(Step(s, event))
  {
    hide Forward, Attempted, Recorded, Ascending;
    match event {
      case Arrives(sequence) =>
        if s.phase.Reading? {
          ArriveInv(s, sequence);
        }
      case Handles(ok) =>
        if s.phase.Handling? {
          if !ok {
            FlushInv(s, Failing);
          } else if s.phase.duplicate {
            AfterRecordInv(s, s.phase.sequence, true);
          } else {
            RecordHandledInv(s, s.phase.sequence);
          }
        }
      case Saves(ok) => SavesInv(s, ok);
      case Elapses => ElapsesInv(s);
      case Continues => ContinueInv(s);
      case Ends =>
        if s.phase.Reading? {
          FlushInv(s, Closing);
        }
      case Throws =>
        if AtIterator(s) {
          FlushInv(s, Failing);
        }
    }
  }

  predicate Representable(events: seq<Event>) {
    forall i :: 0 <= i < |events| && events[i].Arrives? ==> events[i].sequence <= MaxSafe
  }

  lemma OpenInv(identity: Identity, coalesce: Coalescing, duplicates: Duplicates, checkpoint: Option<nat>,
                after: Option<nat>, backlog: nat)
    requires identity.Valid()
    ensures Inv(Open(identity, coalesce, duplicates, checkpoint, after, backlog))
  {
    var s := Open(identity, coalesce, duplicates, checkpoint, after, backlog);
    assert Queue(s.writer) == [];
    hide Queue, Ascending;
    assert Ascending([]) by {
      NoneAscending();
    }
  }

  lemma NoneAscending()
    ensures Ascending([])
  {
  }

  lemma {:induction false} RunInv(identity: Identity, coalesce: Coalescing, duplicates: Duplicates,
                                  checkpoint: Option<nat>, after: Option<nat>, backlog: nat, events: seq<Event>)
    requires identity.Valid() && Representable(events)
    ensures Inv(Run(Open(identity, coalesce, duplicates, checkpoint, after, backlog), events))
    decreases |events|
  {
    hide Inv, Step;
    if events == [] {
      OpenInv(identity, coalesce, duplicates, checkpoint, after, backlog);
    } else {
      RunInv(identity, coalesce, duplicates, checkpoint, after, backlog, events[..|events| - 1]);
      StepInv(Run(Open(identity, coalesce, duplicates, checkpoint, after, backlog), events[..|events| - 1]),
              events[|events| - 1]);
    }
  }

  // ---------------------------------------------------------------------------------------------
  // What a checkpoint promises
  // ---------------------------------------------------------------------------------------------

  /**
   In every reachable state: whatever arrived as new, up to the saved checkpoint, has been handled; saves go strictly
   forward and none was ever refused as a regression; and after one failed save no other was attempted.
   */
  lemma CheckpointSafe(identity: Identity, coalesce: Coalescing, duplicates: Duplicates, checkpoint: Option<nat>,
                       after: Option<nat>, backlog: nat, events: seq<Event>)
    requires identity.Valid() && Representable(events)
    ensures
      var s := Run(Open(identity, coalesce, duplicates, checkpoint, after, backlog), events);
      && (forall i :: 0 <= i < |s.delivered| && AtMost(Some(s.delivered[i]), StoredSequence(s.writer)) ==>
            s.delivered[i] in s.handled)
      && Ascending(s.writer.saved)
      && (s.writer.saving != [] ==> Refusal(s.writer.stored, s.writer.identity.At(s.writer.saving[0])) == None)
      && (if s.writer.failure then |s.writer.attempts| == |s.writer.saved| + 1 && s.writer.saved <= s.writer.attempts
          else s.writer.attempts == s.writer.saved)
  {
    var s := Run(Open(identity, coalesce, duplicates, checkpoint, after, backlog), events);
    RunInv(identity, coalesce, duplicates, checkpoint, after, backlog, events);
    hide Run, Refusal, Queue;
    if s.writer.saving != [] {
      NeverRefused(s.writer);
    }
    hide Forward, Ascending;
    forall i | 0 <= i < |s.delivered| && AtMost(Some(s.delivered[i]), StoredSequence(s.writer))
      ensures s.delivered[i] in s.handled
    {
      HandledUpTo(s, i);
    }
  }

  lemma HandledUpTo(s: State, i: nat)
    requires Inv(s) && i < |s.delivered| && AtMost(Some(s.delivered[i]), StoredSequence(s.writer))
    ensures s.delivered[i] in s.handled
  {
    hide Forward, Attempted, Queue, StoredSequence;
    AtMostTransitive(StoredSequence(s.writer), Newest(s.writer), Reached(s));
    assert s.delivered[i] <= Reached(s).value;
    if i < |s.handled| {
      assert s.delivered[i] == s.handled[i];
    } else {
      InHandOver(s, i);
    }
  }

  lemma InHandOver(s: State, i: nat)
    requires Positions(s) && |s.handled| <= i < |s.delivered|
    ensures Reached(s).Some? ==> Reached(s).value < s.delivered[i]
  {
    if s.handled != [] {
      assert s.delivered[|s.handled| - 1] == s.handled[|s.handled| - 1];
    }
  }

  // ---------------------------------------------------------------------------------------------
  // How much can be unsaved
  // ---------------------------------------------------------------------------------------------

  /** How many entries lie above the bound. */
  function Above(xs: seq<nat>, bound: Option<nat>): (r: nat)
    ensures r <= |xs|
  {
    if xs == [] then 0
    else Above(xs[..|xs| - 1], bound) + (if AtMost(Some(xs[|xs| - 1]), bound) then 0 else 1)
  }

  lemma AboveSnoc(xs: seq<nat>, x: nat, bound: Option<nat>)
    ensures Above(xs + [x], bound) == Above(xs, bound) + (if AtMost(Some(x), bound) then 0 else 1)
  {
    assert (xs + [x])[..|xs|] == xs;
  }

  lemma {:induction false} AboveHigher(xs: seq<nat>, low: Option<nat>, high: Option<nat>)
    requires AtMost(low, high)
    ensures Above(xs, high) <= Above(xs, low)
    decreases |xs|
  {
    if xs != [] {
      AboveHigher(xs[..|xs| - 1], low, high);
    }
  }

  lemma {:induction false} NoneAbove(xs: seq<nat>, bound: Option<nat>)
    requires forall i :: 0 <= i < |xs| ==> AtMost(Some(xs[i]), bound)
    ensures Above(xs, bound) == 0
    decreases |xs|
  {
    if xs != [] {
      NoneAbove(xs[..|xs| - 1], bound);
    }
  }

  /** The count bound of a policy without a timer. */
  predicate Counted(coalesce: Coalescing, limit: nat) {
    0 < limit && (coalesce == Bounds(Some(limit), false) || (coalesce == EachRecord && limit == 1))
  }

  /** Nothing is pending while the loop waits for its saves. */
  predicate Quiet(s: State) {
    s.phase.Recording? || s.phase.CatchingUp? ==> s.writer.pending.None?
  }

  function Lag(s: State): nat {
    Above(s.handled, StoredSequence(s.writer))
  }

  /** With only a count bound the loop reads on only when nothing is under way, so the writer's count is the lag. */
  ghost predicate LagInv(s: State, limit: nat) {
    && Counted(s.writer.coalesce, limit) && Quiet(s)
    && Lag(s) <= limit
    && (s.phase.Reading? || s.phase.Handling? ==>
          !s.writer.failure && s.writer.saving == [] && Lag(s) == s.writer.unsaved < limit)
  }

  lemma StepQuiet(s: State, event: Event)
    requires Quiet(s)
    ensures Quiet(Step(s, event))
  {
    hide Refusal;
  }

  /** Once its saves are through, a loop that waited for them has nothing unsaved. */
  lemma WaitedSaves(s: State)
    requires Inv(s) && Quiet(s) && (s.phase.Recording? || s.phase.CatchingUp?)
    requires s.writer.saving == [] && !s.writer.failure
    ensures AllSaved(s) && Lag(s) == 0 && s.writer.unsaved == 0
  {
    assert Queue(s.writer) == [];
    assert s.handled != [] ==> StoredSequence(s.writer) == Last(s.handled);
    hide Queue, StoredSequence, Newest, Attempted;
    forall i | 0 <= i < |s.handled|
      ensures AtMost(Some(s.handled[i]), StoredSequence(s.writer))
    {
      HandledAscending(s, i);
    }
    NoneAbove(s.handled, StoredSequence(s.writer));
  }

  lemma HandledAscending(s: State, i: nat)
    requires Positions(s) && i < |s.handled|
    ensures s.handled[i] <= s.handled[|s.handled| - 1]
  {
    assert s.delivered[i] == s.handled[i] && s.delivered[|s.handled| - 1] == s.handled[|s.handled| - 1];
  }

  /** Everything handled is in the store. */
  ghost predicate AllSaved(s: State) {
    && !s.writer.failure && Queue(s.writer) == []
    && (s.handled != [] ==> StoredSequence(s.writer) == Last(s.handled))
  }

  lemma RecordLag(s: State, limit: nat)
    requires Inv(s) && LagInv(s, limit) && s.phase.Handling? && !s.phase.duplicate
    ensures LagInv(RecordHandled(s, s.phase.sequence), limit)
  {
    hide *;
    var n := s.phase.sequence;
    LagAfter(s, n, limit);
    RecordShape(s.writer, n);
    HandledLag(s, n, limit);
  }

  /** One more delivery handled is one more unsaved. */
  lemma LagAfter(s: State, n: nat, limit: nat)
    requires Inv(s) && LagInv(s, limit) && s.phase == Handling(n, false)
    ensures Counted(s.writer.coalesce, limit) && !s.writer.failure && s.writer.saving == []
    ensures Above(s.handled + [n], StoredSequence(s.writer)) == s.writer.unsaved + 1 <= limit
  {
    HandledIsNew(s, n);
    InvParts(s);
    AboveSnoc(s.handled, n, StoredSequence(s.writer));
    hide Inv, Above, StoredSequence, Newest, Queue;
  }

  lemma RecordShape(w: Writer, n: nat)
    ensures var r := Record(w, n);
      && StoredSequence(r) == StoredSequence(w) && r.coalesce == w.coalesce && r.failure == w.failure
      && (if w.coalesce.Reached(w.unsaved + 1) then r.pending.None?
          else r.saving == w.saving && r.unsaved == w.unsaved + 1 && r.pending == Some(n))
  {
  }

  lemma HandledLag(s: State, n: nat, limit: nat)
    requires s.phase == Handling(n, false) && Counted(s.writer.coalesce, limit) && !s.writer.failure
    requires s.writer.saving == []
    requires Above(s.handled + [n], StoredSequence(s.writer)) == s.writer.unsaved + 1 <= limit
    requires var r := Record(s.writer, n);
      && StoredSequence(r) == StoredSequence(s.writer) && r.coalesce == s.writer.coalesce && !r.failure
      && (if s.writer.coalesce.Reached(s.writer.unsaved + 1) then r.pending.None?
          else r.saving == [] && r.unsaved == s.writer.unsaved + 1 && r.pending == Some(n))
    ensures LagInv(RecordHandled(s, n), limit)
  {
    FlushQueue(Record(s.writer, n));
    hide Record, Above, StoredSequence, Queue;
  }

  lemma ContinueLag(s: State, limit: nat)
    requires Inv(s) && LagInv(s, limit)
    ensures LagInv(Continue(s), limit)
  {
    hide Inv, Queue, Above, StoredSequence, AllSaved;
    if s.writer.saving == [] && (s.phase.Recording? || s.phase.CatchingUp?) && !s.writer.failure {
      WaitedSaves(s);
    }
    FlushQueue(s.writer);
  }

  lemma SavesLag(s: State, limit: nat, ok: bool)
    requires Inv(s) && LagInv(s, limit)
    ensures LagInv(s.(writer := SaveNext(s.writer, ok)), limit)
  {
    hide Inv, Above, StoredSequence, SaveNext, Forward, Attempted, Newest, Queue;
    InvParts(s);
    SaveForward(s.writer, ok);
    AboveHigher(s.handled, StoredSequence(s.writer), StoredSequence(SaveNext(s.writer, ok)));
    SaveKeeps(s.writer, ok);
  }

  lemma SaveKeeps(w: Writer, ok: bool)
    ensures var r := SaveNext(w, ok);
      r.coalesce == w.coalesce && r.pending == w.pending && r.unsaved == w.unsaved && (w.saving == [] ==> r == w)
  {
    hide Refusal;
  }

  lemma StepLag(s: State, event: Event, limit: nat)
    requires Inv(s) && LagInv(s, limit)
    ensures LagInv(Step(s, event), limit)
  {
    hide Inv, Above, StoredSequence, SaveNext, Queue, RecordHandled, Continue;
    FlushQueue(s.writer);
    match event {
      case Handles(ok) =>
        if ok && s.phase.Handling? && !s.phase.duplicate {
          RecordLag(s, limit);
        }
      case Saves(ok) => SavesLag(s, limit, ok);
      case Continues => ContinueLag(s, limit);
      case Elapses => Untimed(s, limit);
      case _ =>
    }
  }

  lemma Untimed(s: State, limit: nat)
    requires Inv(s) && Counted(s.writer.coalesce, limit)
    ensures !s.writer.timer
  {
    hide Queue, Newest, Attempted, Positions, Recorded, StoredSequence;
  }

  /** With only a count bound, at most that many handled deliveries are unsaved at any time. */
  lemma {:induction false} UnsavedBounded(
    identity: Identity, coalesce: Coalescing, duplicates: Duplicates, checkpoint: Option<nat>, after: Option<nat>,
    backlog: nat, events: seq<Event>, limit: nat)
    requires identity.Valid() && Representable(events) && Counted(coalesce, limit)
    ensures
      var s := Run(Open(identity, coalesce, duplicates, checkpoint, after, backlog), events);
      Lag(s) <= limit && LagInv(s, limit)
    decreases |events|
  {
    if events != [] {
      var front, last := events[..|events| - 1], events[|events| - 1];
      hide Inv, LagInv, Step;
      UnsavedBounded(identity, coalesce, duplicates, checkpoint, after, backlog, front, limit);
      var before := Run(Open(identity, coalesce, duplicates, checkpoint, after, backlog), front);
      RunInv(identity, coalesce, duplicates, checkpoint, after, backlog, front);
      StepLag(before, last, limit);
      LagWithin(Step(before, last), limit);
    }
  }

  lemma LagWithin(s: State, limit: nat)
    requires LagInv(s, limit)
    ensures Lag(s) <= limit
  {
  }

  // ---------------------------------------------------------------------------------------------
  // Catching up
  // ---------------------------------------------------------------------------------------------

  lemma CaughtUpStep(s: State, event: Event)
    requires Inv(s) && Quiet(s) && !s.caughtUp && Step(s, event).caughtUp
    ensures AllSaved(Step(s, event)) <==> (event.Arrives? ==> AllSaved(s))
  {
    if event.Continues? {
      WaitedSaves(s);
    }
    hide Queue, StoredSequence, Newest, Attempted, Forward, Positions, Recorded, Refusal;
  }

  lemma {:induction false} RunQuiet(s: State, events: seq<Event>)
    requires Quiet(s)
    ensures Quiet(Run(s, events))
    decreases |events|
  {
    hide Step;
    if events != [] {
      RunQuiet(s, events[..|events| - 1]);
      StepQuiet(Run(s, events[..|events| - 1]), events[|events| - 1]);
    }
  }

  lemma OpenQuiet(identity: Identity, coalesce: Coalescing, duplicates: Duplicates, checkpoint: Option<nat>,
                  after: Option<nat>, backlog: nat)
    ensures Quiet(Open(identity, coalesce, duplicates, checkpoint, after, backlog))
  {
  }

  /** The loop reads on only with everything saved. */
  ghost predicate Prompt(s: State) {
    s.writer.coalesce.Reached(1) && (s.phase.Reading? || s.phase.Handling? ==> AllSaved(s))
  }

  lemma StepPrompt(s: State, event: Event)
    requires Inv(s) && Quiet(s) && Prompt(s)
    ensures Prompt(Step(s, event))
  {
    hide Inv, Queue, StoredSequence, SaveNext, Record, Flush;
    FlushQueue(s.writer);
    if s.writer.saving == [] && (s.phase.Recording? || s.phase.CatchingUp?) && !s.writer.failure {
      WaitedSaves(s);
    }
    PromptWriter(s.writer, event);
  }

  /** With nothing queued neither a save nor a timer changes what the store is owed. */
  lemma PromptWriter(w: Writer, event: Event)
    ensures Flush(w).coalesce == w.coalesce && Flush(w).failure == w.failure
    ensures Elapse(w).coalesce == w.coalesce && Elapse(w).failure == w.failure
    ensures Queue(Elapse(w)) == Queue(w) && StoredSequence(Elapse(w)) == StoredSequence(w)
    ensures event.Saves? ==> SaveNext(w, event.ok).coalesce == w.coalesce
    ensures event.Saves? && Queue(w) == [] ==> SaveNext(w, event.ok) == w
    ensures event.Handles? && w.coalesce.Reached(1) ==> w.coalesce.Reached(w.unsaved + 1)
    ensures forall n :: Record(w, n).coalesce == w.coalesce
  {
    hide Refusal;
    FlushQueue(w);
  }

  lemma {:induction false} RunPrompt(identity: Identity, coalesce: Coalescing, duplicates: Duplicates,
                                     checkpoint: Option<nat>, after: Option<nat>, backlog: nat, events: seq<Event>)
    requires identity.Valid() && Representable(events) && coalesce.Reached(1)
    ensures Prompt(Run(Open(identity, coalesce, duplicates, checkpoint, after, backlog), events))
    decreases |events|
  {
    if events != [] {
      var front, last := events[..|events| - 1], events[|events| - 1];
      hide Inv, Prompt, Quiet, Step;
      RunPrompt(identity, coalesce, duplicates, checkpoint, after, backlog, front);
      RunInv(identity, coalesce, duplicates, checkpoint, after, backlog, front);
      OpenQuiet(identity, coalesce, duplicates, checkpoint, after, backlog);
      RunQuiet(Open(identity, coalesce, duplicates, checkpoint, after, backlog), front);
      StepPrompt(Run(Open(identity, coalesce, duplicates, checkpoint, after, backlog), front), last);
    }
  }

  lemma StepDuplicates(s: State, event: Event)
    ensures Step(s, event).duplicates == s.duplicates
  {
    hide SaveNext, Record, Flush, Elapse, Queue;
  }

  lemma {:induction false} RunDuplicates(s: State, events: seq<Event>)
    ensures Run(s, events).duplicates == s.duplicates
    decreases |events|
  {
    if events != [] {
      RunDuplicates(s, events[..|events| - 1]);
      hide Run, Step;
      StepDuplicates(Run(s, events[..|events| - 1]), events[|events| - 1]);
    }
  }

  /** A run whose next event declares the replay complete while something handled is not in the store. */
  ghost predicate EndsUnsaved(identity: Identity, coalesce: Coalescing, duplicates: Duplicates,
                              checkpoint: Option<nat>, after: Option<nat>, backlog: nat, events: seq<Event>,
                              event: Event)
  {
    var s := Run(Open(identity, coalesce, duplicates, checkpoint, after, backlog), events);
    Representable(events) && !s.caughtUp && Step(s, event).caughtUp && !AllSaved(Step(s, event))
  }

  lemma EndsSaved(identity: Identity, coalesce: Coalescing, duplicates: Duplicates, checkpoint: Option<nat>,
                  after: Option<nat>, backlog: nat, events: seq<Event>, event: Event)
    requires identity.Valid() && (duplicates != Drop || coalesce.Reached(1))
    ensures !EndsUnsaved(identity, coalesce, duplicates, checkpoint, after, backlog, events, event)
  {
    hide Run, Open, Inv, AllSaved, Step;
    var begun := Open(identity, coalesce, duplicates, checkpoint, after, backlog);
    var s := Run(begun, events);
    if Representable(events) && !s.caughtUp && Step(s, event).caughtUp {
      RunInv(identity, coalesce, duplicates, checkpoint, after, backlog, events);
      OpenQuiet(identity, coalesce, duplicates, checkpoint, after, backlog);
      RunQuiet(begun, events);
      CaughtUpStep(s, event);
      if event.Arrives? {
        RunDuplicates(begun, events);
        OpenDuplicates(identity, coalesce, duplicates, checkpoint, after, backlog);
        ArrivalCatchesUp(s, event);
        assert coalesce.Reached(1);
        RunPrompt(identity, coalesce, duplicates, checkpoint, after, backlog, events);
      }
    }
  }

  lemma OpenDuplicates(identity: Identity, coalesce: Coalescing, duplicates: Duplicates, checkpoint: Option<nat>,
                       after: Option<nat>, backlog: nat)
    ensures Open(identity, coalesce, duplicates, checkpoint, after, backlog).duplicates == duplicates
  {
  }

  lemma ArrivalCatchesUp(s: State, event: Event)
    requires event.Arrives? && !s.caughtUp && Step(s, event).caughtUp
    ensures s.phase.Reading? && s.duplicates == Drop
  {
  }

  /** One delivery handled and not saved, then a duplicate of it that ends the replay. */
  lemma DroppedDuplicateEndsReplay(identity: Identity, coalesce: Coalescing)
    requires identity.Valid() && !coalesce.Reached(1)
    ensures
      var s := Run(Open(identity, coalesce, Drop, None, None, 2), [Arrives(1), Handles(true)]);
      s.handled == [1] && s.writer.stored == None && Step(s, Arrives(1)).writer == s.writer
    ensures EndsUnsaved(identity, coalesce, Drop, None, None, 2, [Arrives(1), Handles(true)], Arrives(1))
  {
    var begun, events := Open(identity, coalesce, Drop, None, None, 2), [Arrives(1), Handles(true)];
    assert events[..1] == [Arrives(1)] && events[..1][..0] == [];
    assert Run(begun, []) == begun;
    assert Run(begun, events[..1]) == Step(begun, Arrives(1));
    assert Run(begun, events) == Step(Step(begun, Arrives(1)), Handles(true));
  }

  /**
   Whenever the replay is declared complete, everything handled has been saved, exactly if duplicates are not dropped
   or every record is saved at once. Otherwise a dropped duplicate can end the replay before the pending save.
   */
  lemma CaughtUpIffSaved(identity: Identity, coalesce: Coalescing, duplicates: Duplicates)
    requires identity.Valid()
    ensures
      duplicates != Drop || coalesce.Reached(1)
      <==> forall checkpoint, after, backlog, events, event ::
             !EndsUnsaved(identity, coalesce, duplicates, checkpoint, after, backlog, events, event)
  {
    hide EndsUnsaved;
    if duplicates != Drop || coalesce.Reached(1) {
      forall checkpoint, after, backlog, events, event
        ensures !EndsUnsaved(identity, coalesce, duplicates, checkpoint, after, backlog, events, event)
      {
        EndsSaved(identity, coalesce, duplicates, checkpoint, after, backlog, events, event);
      }
    } else {
      DroppedDuplicateEndsReplay(identity, coalesce);
    }
  }

  // ---------------------------------------------------------------------------------------------
  // Stopping
  // ---------------------------------------------------------------------------------------------

  /** A loop that stops has flushed, and has stopped only once its saves are through. */
  predicate Flushed(s: State) {
    && (s.phase.Closing? || s.phase.Failing? ==> s.writer.pending.None?)
    && (s.phase.Closed? || s.phase.Errored? ==> s.writer.pending.None? && s.writer.saving == [])
  }

  lemma StepFlushed(s: State, event: Event)
    requires Flushed(s)
    ensures Flushed(Step(s, event))
  {
    hide Refusal;
  }

  /** Nothing more is handled, counted or saved by a loop that has stopped. */
  lemma {:induction false} StoppedForGood(s: State, events: seq<Event>)
    requires (s.phase.Closed? || s.phase.Errored?) && s.writer.pending.None? && s.writer.saving == []
    ensures
      var r := Run(s, events);
      && r.phase == s.phase && r.handled == s.handled && r.remaining == s.remaining && r.caughtUp == s.caughtUp
      && r.writer.stored == s.writer.stored && r.writer.pending.None? && r.writer.saving == []
    decreases |events|
  {
    hide Refusal;
    if events != [] {
      StoppedForGood(s, events[..|events| - 1]);
    }
  }

  lemma {:induction false} RunFlushed(identity: Identity, coalesce: Coalescing, duplicates: Duplicates,
                                      checkpoint: Option<nat>, after: Option<nat>, backlog: nat, events: seq<Event>)
    ensures Flushed(Run(Open(identity, coalesce, duplicates, checkpoint, after, backlog), events))
    decreases |events|
  {
    hide Step, Flushed;
    if events == [] {
      OpenFlushed(identity, coalesce, duplicates, checkpoint, after, backlog);
    } else {
      RunFlushed(identity, coalesce, duplicates, checkpoint, after, backlog, events[..|events| - 1]);
      StepFlushed(Run(Open(identity, coalesce, duplicates, checkpoint, after, backlog), events[..|events| - 1]),
                  events[|events| - 1]);
    }
  }

  lemma OpenFlushed(identity: Identity, coalesce: Coalescing, duplicates: Duplicates, checkpoint: Option<nat>,
                    after: Option<nat>, backlog: nat)
    ensures Flushed(Open(identity, coalesce, duplicates, checkpoint, after, backlog))
  {
  }

  /**
   However a subscription stops, closed or failed, at whatever point: unless a save failed, everything handled is in
   the store, so that the next attempt starts right behind it.
   */
  lemma StoppedSaved(identity: Identity, coalesce: Coalescing, duplicates: Duplicates, checkpoint: Option<nat>,
                     after: Option<nat>, backlog: nat, events: seq<Event>)
    requires identity.Valid() && Representable(events)
    ensures
      var s := Run(Open(identity, coalesce, duplicates, checkpoint, after, backlog), events);
      (s.phase.Closed? || s.phase.Errored?) && !s.writer.failure ==> AllSaved(s)
  {
    hide *;
    RunInv(identity, coalesce, duplicates, checkpoint, after, backlog, events);
    RunFlushed(identity, coalesce, duplicates, checkpoint, after, backlog, events);
    StoppedIsSaved(Run(Open(identity, coalesce, duplicates, checkpoint, after, backlog), events));
  }

  lemma StoppedIsSaved(s: State)
    requires Inv(s) && Flushed(s)
    ensures (s.phase.Closed? || s.phase.Errored?) && !s.writer.failure ==> AllSaved(s)
  {
    hide Forward, Positions, Attempted;
  }

  /** The saves under way, one after the other. */
  function AllSaves(n: nat): seq<Event> {
    if n == 0 then [] else AllSaves(n - 1) + [Saves(true)]
  }

  lemma {:induction false} SavesGoThrough(s: State, n: nat)
    requires n <= |s.writer.saving|
    ensures
      var r := Run(s, AllSaves(n));
      && |r.writer.saving| == |s.writer.saving| - n && r == s.(writer := r.writer)
      && r.writer.pending == s.writer.pending
  {
    hide SaveNext;
    if n > 0 {
      SavesGoThrough(s, n - 1);
      SaveShortens(Run(s, AllSaves(n - 1)).writer);
      assert AllSaves(n)[..|AllSaves(n)| - 1] == AllSaves(n - 1);
    }
  }

  lemma SaveShortens(w: Writer)
    requires w.saving != []
    ensures |SaveNext(w, true).saving| == |w.saving| - 1 && SaveNext(w, true).pending == w.pending
  {
    hide Refusal;
  }

  /**
   A loop that waits goes on as soon as its saves are through: to the next message, to the flush that ends the replay,
   or to its end; a close that meets no failure ends closed, and a failure ends in error.
   */
  lemma WaitingGoesOn(s: State)
    requires s.phase.Recording? || s.phase.CatchingUp? || s.phase.Closing? || s.phase.Failing?
    ensures
      var saved := Run(s, AllSaves(|s.writer.saving|));
      var r := Step(saved, Continues);
      match s.phase
      case Recording(n) =>
        if saved.writer.failure then r.phase == Failing
        else if s.remaining == 1 then r.phase == CatchingUp(n, false)
        else r.phase == Reading && r.committed == Some(n)
      case CatchingUp(n, duplicate) =>
        if saved.writer.failure then r.phase == Failing
        else
          && r.phase == Reading && r.committed == (if duplicate then s.committed else Some(n))
          && (s.remaining == 1 ==> r.caughtUp && r.remaining == 0)
      case Closing => r.phase == if saved.writer.failure then Failing else Closed
      case Failing => r.phase == Errored
  {
    SavesGoThrough(s, |s.writer.saving|);
    hide Run;
  }

  /** What a delivery leads to, duplicate or not, and an iterator that fails or ends. */
  lemma ReadingLeadsTo(s: State, sequence: nat)
    requires s.phase.Reading?
    ensures
      var duplicate := s.committed.Some? && sequence <= s.committed.value;
      var r := Step(s, Arrives(sequence));
      if !duplicate then r.phase == Handling(sequence, false) && r.delivered == s.delivered + [sequence]
      else
        && r.delivered == s.delivered
        && match s.duplicates
           case Drop => r.phase == Reading && r.remaining == (if s.remaining == 0 then 0 else s.remaining - 1)
           case Deliver => r.phase == Handling(sequence, true)
           case Error => r.phase == Failing
    ensures Step(s, Throws).phase == Failing && Step(s, Ends).phase == Closing
  {
  }

  /** A message iterator that ends with an error after the last saves turns the close into a failure. */
  lemma EndMayFail(s: State)
    requires s.phase.Closing? && s.writer.saving == [] && !s.writer.failure
    ensures Step(s, Throws).phase == Failing && Step(s, Continues).phase == Closed
  {
  }

  /** When the timer fires, what was pending is on its way to the store. */
  lemma TimerSaves(w: Writer)
    requires w.timer
    ensures
      var r := Elapse(w);
      && r.pending.None? && !r.timer && r.unsaved == 0
      && r.saving == w.saving + (if w.pending.Some? then [w.pending.value] else [])
  {
    assert w.saving + [] == w.saving;
  }

  // ---------------------------------------------------------------------------------------------
  // The writer object
  // ---------------------------------------------------------------------------------------------

  class CheckpointWriter {
    const identity: Identity
    const coalesce: Coalescing
    var pending: Option<nat>
    var unsaved: nat
    var timer: bool
    var saving: seq<nat>
    var failure: bool
    const store: MemoryStore
    const key: string
    ghost var attempts: seq<nat>
    ghost var saved: seq<nat>

    constructor (identity: Identity, coalesce: Coalescing, store: MemoryStore, key: string)
      ensures this.store == store && this.key == key
      ensures View() == Writer(identity, coalesce, None, 0, false, [], false, store.Stored(key), [], [])
    {
      this.identity, this.coalesce, this.store, this.key := identity, coalesce, store, key;
      pending, unsaved, timer, saving, failure, attempts, saved := None, 0, false, [], false, [], [];
    }

    ghost function View(): Writer
      reads this, store
    {
      Writer(identity, coalesce, pending, unsaved, timer, saving, failure, store.Stored(key), attempts, saved)
    }

    method FlushPending()
      modifies this
      ensures View() == Flush(old(View()))
    {
      timer := false;
      if pending.Some? {
        saving := saving + [pending.value];
      }
      pending, unsaved := None, 0;
    }

    /** Records a handled delivery; `wait` tells the caller to wait for the queued saves. */
    method RecordCheckpoint(sequence: nat) returns (threw: bool, wait: bool)
      modifies this
      ensures threw == old(failure) && View() == if threw then old(View()) else Record(old(View()), sequence)
      ensures wait == (!threw && coalesce.Reached(old(unsaved) + 1))
    {
      if failure {
        return true, false;
      }
      pending, unsaved := Some(sequence), unsaved + 1;
      if coalesce.EachRecord? || (coalesce.maxItems.Some? && coalesce.maxItems.value <= unsaved) {
        FlushPending();
        return false, true;
      }
      if coalesce.timed && !timer {
        timer := true;
      }
      return false, false;
    }

    method TimerElapsed()
      modifies this
      ensures View() == Elapse(old(View()))
    {
      if timer {
        FlushPending();
      }
    }

    /** Runs the save at the head of the queue against the store, if the store can be reached. */
    method RunSave(ok: bool)
      modifies this, store
      ensures View() == SaveNext(old(View()), ok)
    {
      if saving == [] {
        return;
      }
      var next := saving[0];
      saving := saving[1..];
      if failure {
        return;
      }
      attempts := attempts + [next];
      if !ok {
        failure := true;
        return;
      }
      var error := store.Save(key, identity.At(next));
      if error.Some? {
        failure := true;
      } else {
        saved := saved + [next];
      }
    }
  }
}
