/** A shared session: one source at a time, told apart by generations, behind a snapshot that listeners read. */
module Sessions {
  import opened Prelude

  datatype Phase = Connecting | Live | ClosedPhase | ErrorPhase

  predicate Terminal(phase: Phase) {
    phase == ClosedPhase || phase == ErrorPhase
  }

  datatype Snapshot<V> = Snapshot(phase: Phase, revision: nat, valueRevision: nat, value: Option<V>, failed: bool)

  /** `accepted` lists the values that were published. `restarting` waits for the previous source to close. */
  datatype Session<V> = Session(
    snapshot: Snapshot<V>, generation: nat, closeRequested: bool, closing: bool, restarting: bool, accepted: seq<V>)

  /** What a source of some generation does, or what a user of the session asks for. */
  datatype Event<V> =
    | Accepts(generation: nat, value: V)
    | BecomesReady(generation: nat)
    | Finishes(generation: nat, failed: bool)
    | Restart
      /** The previous source is closed: the restart goes on with a new one. */
    | Restarts
    | Close
    | Closes

  /** A session starts its first source at once. */
  function Opened<V>(): Session<V> {
    Session(Snapshot(Connecting, 0, 0, None, false), 1, false, false, false, [])
  }

  function Phased<V>(s: Session<V>, phase: Phase, failed: bool): Session<V> {
    s.(snapshot := s.snapshot.(phase := phase, revision := s.snapshot.revision + 1, failed := failed))
  }

  function Accept<V>(s: Session<V>, generation: nat, value: V): Session<V> {
    if generation != s.generation || Terminal(s.snapshot.phase) then s
    else s.(snapshot := Snapshot(s.snapshot.phase, s.snapshot.revision + 1, s.snapshot.valueRevision + 1, Some(value),
                                 false),
            accepted := s.accepted + [value])
  }

  function Ready<V>(s: Session<V>, generation: nat): Session<V> {
    if generation != s.generation || s.closeRequested || Terminal(s.snapshot.phase) then s
    else Phased(s, Live, s.snapshot.failed)
  }

  function Finish<V>(s: Session<V>, generation: nat, failed: bool): Session<V> {
    if generation != s.generation || s.closeRequested || Terminal(s.snapshot.phase) then s
    else Phased(s, if failed then ErrorPhase else ClosedPhase, failed || s.snapshot.failed)
  }

  function BeginRestart<V>(s: Session<V>): Session<V> {
    if s.closeRequested || s.restarting then s
    else Phased(s.(restarting := true, generation := s.generation + 1), Connecting, false)
  }

  /** A new source is started unless the session was closed meanwhile. */
  function GoOn<V>(s: Session<V>): Session<V> {
    if !s.restarting then s
    else if s.closeRequested then s.(restarting := false)
    else s.(restarting := false, generation := s.generation + 1)
  }

  function RequestClose<V>(s: Session<V>): Session<V> {
    if s.closeRequested then s else s.(closeRequested := true, closing := true)
  }

  function FinishClose<V>(s: Session<V>): Session<V> {
    if !s.closing then s
    else
      var superseded := s.(closing := false, generation := s.generation + 1);
      if s.snapshot.phase == ClosedPhase then superseded else Phased(superseded, ClosedPhase, s.snapshot.failed)
  }

  function Step<V>(s: Session<V>, event: Event<V>): Session<V> {
    match event
    case Accepts(generation, value) => Accept(s, generation, value)
    case BecomesReady(generation) => Ready(s, generation)
    case Finishes(generation, failed) => Finish(s, generation, failed)
    case Restart => BeginRestart(s)
    case Restarts => GoOn(s)
    case Close => RequestClose(s)
    case Closes => FinishClose(s)
  }

  function Run<V>(s: Session<V>, events: seq<Event<V>>): Session<V> {
    if events == [] then s else Step(Run(s, events[..|events| - 1]), events[|events| - 1])
  }

  // ---------------------------------------------------------------------------------------------
  // Generations
  // ---------------------------------------------------------------------------------------------

  predicate From<V>(event: Event<V>, generation: nat) {
    match event
    case Accepts(g, _) => g == generation
    case BecomesReady(g) => g == generation
    case Finishes(g, _) => g == generation
    case _ => false
  }

  /** The events without those of one generation. */
  function Without<V>(events: seq<Event<V>>, generation: nat): seq<Event<V>> {
    if events == [] then []
    else
      var last := events[|events| - 1];
      Without(events[..|events| - 1], generation) + (if From(last, generation) then [] else [last])
  }

  lemma {:induction false} GenerationsGrow<V>(s: Session<V>, events: seq<Event<V>>)
    ensures s.generation <= Run(s, events).generation
    decreases |events|
  {
    if events != [] {
      GenerationsGrow(s, events[..|events| - 1]);
    }
  }

  /** Nothing that a superseded source does, at any later time, makes any difference. */
  lemma {:induction false} SupersededIsSilent<V>(s: Session<V>, generation: nat, events: seq<Event<V>>)
    requires generation < s.generation
    ensures Run(s, events) == Run(s, Without(events, generation))
    decreases |events|
  {
    if events != [] {
      var front, last := events[..|events| - 1], events[|events| - 1];
      SupersededIsSilent(s, generation, front);
      GenerationsGrow(s, front);
      var rest := Without(front, generation);
      if From(last, generation) {
        assert rest + [] == rest;
      } else {
        assert (rest + [last])[..|rest|] == rest;
      }
    }
  }

  /** Until a restart or a close, a terminal snapshot stays as it is. */
  lemma {:induction false} TerminalPersists<V>(s: Session<V>, events: seq<Event<V>>)
    requires Terminal(s.snapshot.phase)
    requires forall i :: 0 <= i < |events| ==> events[i] != Restart && events[i] != Closes
    ensures Run(s, events).snapshot == s.snapshot
    decreases |events|
  {
    if events != [] {
      TerminalPersists(s, events[..|events| - 1]);
    }
  }

  /** A session whose close has finished stays closed, whatever is asked of it. */
  lemma {:induction false} ClosedForGood<V>(s: Session<V>, events: seq<Event<V>>)
    requires s.closeRequested && !s.closing && s.snapshot.phase == ClosedPhase
    ensures
      var r := Run(s, events);
      r.snapshot == s.snapshot && r.closeRequested && !r.closing && r.accepted == s.accepted
    decreases |events|
  {
    if events != [] {
      ClosedForGood(s, events[..|events| - 1]);
    }
  }

  // ---------------------------------------------------------------------------------------------
  // Restarting and closing
  // ---------------------------------------------------------------------------------------------

  /** The source of the current generation is listened to: the session is open and its snapshot not terminal. */
  predicate Heard<V>(s: Session<V>, generation: nat) {
    generation == s.generation && s.snapshot.phase != ClosedPhase && s.snapshot.phase != ErrorPhase
  }

  /**
   What its source makes of a session: live when it is ready, closed or failed when it finishes, unless a close was
   requested; anything else a source does, but for values, changes nothing.
   */
  lemma SourceDecides<V>(s: Session<V>, generation: nat, failed: bool)
    ensures
      var ready, finished := Step(s, BecomesReady(generation)), Step(s, Finishes(generation, failed));
      if Heard(s, generation) && !s.closeRequested then
        && ready.snapshot == s.snapshot.(phase := Live, revision := s.snapshot.revision + 1)
        && finished.snapshot.phase == (if failed then ErrorPhase else ClosedPhase)
        && finished.snapshot.failed == (failed || s.snapshot.failed)
        && finished.snapshot.revision == s.snapshot.revision + 1 && finished.snapshot.value == s.snapshot.value
      else ready == s && finished == s
  {
  }

  /** A value is published exactly if it comes from the source that is listened to, and it clears a failure. */
  lemma ValuePublished<V>(s: Session<V>, generation: nat, value: V)
    ensures
      var next := Step(s, Accepts(generation, value));
      if Heard(s, generation) then
        && next.snapshot == Snapshot(s.snapshot.phase, s.snapshot.revision + 1, s.snapshot.valueRevision + 1,
                                     Some(value), false)
        && next.accepted == s.accepted + [value]
      else next == s
  {
  }

  /** Every change of the snapshot has a revision of its own, the next one. */
  lemma RevisionsCount<V>(s: Session<V>, event: Event<V>)
    ensures
      var next := Step(s, event);
      next.snapshot == s.snapshot || next.snapshot.revision == s.snapshot.revision + 1
  {
  }

  /** A new session listens to its first source, which can make it live, and has nothing to show. */
  lemma FirstSource<V>()
    ensures
      var s := Opened<V>();
      && Heard(s, s.generation) && !s.closeRequested && !s.restarting && !s.closing
      && s.snapshot.value.None? && !s.snapshot.failed && Step(s, BecomesReady(s.generation)).snapshot.phase == Live
  {
  }

  /** The events of the sources of one generation, and neither a restart nor a close. */
  predicate FromOld<V>(events: seq<Event<V>>, generation: nat) {
    forall i :: 0 <= i < |events| ==> From(events[i], generation)
  }

  lemma {:induction false} OldIsSilent<V>(s: Session<V>, generation: nat, events: seq<Event<V>>)
    requires generation < s.generation && FromOld(events, generation)
    ensures Run(s, events) == s
    decreases |events|
  {
    if events != [] {
      OldIsSilent(s, generation, events[..|events| - 1]);
    }
  }

  /**
   A restart of an open session: whatever the old source still does is ignored, and once it is closed a new source is
   listened to, which can publish, go live and fail like the first one. What was published stays shown meanwhile.
   */
  lemma RestartRevives<V>(s: Session<V>, meanwhile: seq<Event<V>>)
    requires !s.closeRequested && !s.restarting && FromOld(meanwhile, s.generation)
    ensures
      var begun := Run(Step(s, Restart), meanwhile);
      && begun == Step(s, Restart) && begun.snapshot.phase == Connecting && !begun.snapshot.failed
      && begun.snapshot.value == s.snapshot.value && begun.accepted == s.accepted && begun.restarting
      && Step(begun, Restart) == begun
    ensures
      var revived := Step(Run(Step(s, Restart), meanwhile), Restarts);
      && s.generation < revived.generation && Heard(revived, revived.generation)
      && !revived.restarting && !revived.closeRequested && revived.accepted == s.accepted
      && Step(s, Restart).generation < revived.generation
  {
    OldIsSilent(Step(s, Restart), s.generation, meanwhile);
  }

  /** Nothing restarts without a restart, and a restart that meets a close starts no source. */
  lemma RestartStopsAtClose<V>(s: Session<V>)
    ensures !s.restarting ==> Step(s, Restarts) == s
    ensures s.closeRequested ==> Step(s, Restart) == s && Step(s, Restarts) == s.(restarting := false)
  {
  }

  /** Once a close is requested it stays requested, and it is under way until it finishes. */
  lemma {:induction false} CloseStays<V>(s: Session<V>, events: seq<Event<V>>)
    requires s.closeRequested
    ensures Run(s, events).closeRequested
    ensures s.closing && (forall i :: 0 <= i < |events| ==> events[i] != Closes) ==> Run(s, events).closing
    ensures !s.closing ==> !Run(s, events).closing
    decreases |events|
  {
    if events != [] {
      CloseStays(s, events[..|events| - 1]);
    }
  }

  /**
   A close of an open session, over every run: whatever happens between the request and its end, and whatever
   afterwards, the session ends closed, with the value it showed at that moment, and accepts no more.
   */
  lemma CloseEnds<V>(s: Session<V>, meanwhile: seq<Event<V>>, later: seq<Event<V>>)
    requires !s.closeRequested
    requires forall i :: 0 <= i < |meanwhile| ==> meanwhile[i] != Closes
    ensures
      var before := Run(Step(s, Close), meanwhile);
      var closed := Step(before, Closes);
      && before.generation < closed.generation
      && closed.snapshot.phase == ClosedPhase && closed.closeRequested && !closed.closing
      && closed.snapshot.value == before.snapshot.value && closed.snapshot.failed == before.snapshot.failed
      && closed.accepted == before.accepted
      && Run(closed, later).snapshot == closed.snapshot && Run(closed, later).accepted == closed.accepted
    ensures Step(s, Close).snapshot == s.snapshot && Step(s, Close).accepted == s.accepted
    ensures Step(s, Close).generation == s.generation
  {
    CloseStays(Step(s, Close), meanwhile);
    hide Run;
    ClosedForGood(Step(Run(Step(s, Close), meanwhile), Closes), later);
  }

  /** Without a request nothing closes. */
  lemma ClosesAsRequested<V>(s: Session<V>)
    requires !s.closing
    ensures Step(s, Closes) == s
    ensures Step(Step(s, Close), Close) == Step(s, Close)
  {
  }

  // ---------------------------------------------------------------------------------------------
  // Values
  // ---------------------------------------------------------------------------------------------

  /** The value revision counts the accepted values, and the snapshot shows the last of them. */
  ghost predicate Counted<V>(s: Session<V>) {
    && s.snapshot.valueRevision == |s.accepted|
    && s.snapshot.valueRevision <= s.snapshot.revision
    && s.snapshot.value == if s.accepted == [] then None else Some(s.accepted[|s.accepted| - 1])
  }

  lemma StepCounted<V>(s: Session<V>, event: Event<V>)
    requires Counted(s)
    ensures Counted(Step(s, event))
    ensures Step(s, event).accepted
         == s.accepted + (if event.Accepts? && event.generation == s.generation && !Terminal(s.snapshot.phase)
                          then [event.value] else [])
  {
    assert s.accepted + [] == s.accepted;
  }

  lemma {:induction false} RunCounted<V>(s: Session<V>, events: seq<Event<V>>)
    requires Counted(s)
    ensures Counted(Run(s, events)) && s.accepted <= Run(s, events).accepted
    decreases |events|
  {
    if events != [] {
      hide Counted, Step;
      RunCounted(s, events[..|events| - 1]);
      StepCounted(Run(s, events[..|events| - 1]), events[|events| - 1]);
    }
  }

  /** A listener that copies values, and the value revision it has copied up to. */
  datatype Listener<V> = Listener(lastRevision: nat, appended: seq<V>)

  /** What the listener does each time the session tells it that something changed. */
  function Sync<V>(listener: Listener<V>, snapshot: Snapshot<V>): Listener<V> {
    if listener.lastRevision < snapshot.valueRevision && snapshot.value.Some?
    then Listener(snapshot.valueRevision, listener.appended + [snapshot.value.value])
    else listener
  }

  /** A listener that is told after every event, having looked once when it subscribed. */
  function Listen<V>(s: Session<V>, events: seq<Event<V>>): Listener<V> {
    if events == [] then Sync(Listener(0, []), s.snapshot)
    else Sync(Listen(s, events[..|events| - 1]), Run(s, events).snapshot)
  }

  /**
   The listener appends the value that was current when it subscribed, if there was one, and then every value
   accepted afterwards exactly once and in order.
   */
  lemma {:induction false} EveryValueOnce<V>(s: Session<V>, events: seq<Event<V>>)
    requires Counted(s)
    ensures
      var r, from := Run(s, events), if s.accepted == [] then 0 else |s.accepted| - 1;
      && from <= |r.accepted|
      && Listen(s, events).appended == r.accepted[from..]
      && Listen(s, events).lastRevision == |r.accepted|
    decreases |events|
  {
    if events != [] {
      var front, last := events[..|events| - 1], events[|events| - 1];
      EveryValueOnce(s, front);
      RunCounted(s, front);
      RunCounted(s, events);
      var before := Run(s, front);
      assert Run(s, events) == Step(before, last);
      StepCounted(before, last);
      hide Step, Run;
      assert before.accepted + [] == before.accepted;
    }
  }

  // ---------------------------------------------------------------------------------------------
  // The session object
  // ---------------------------------------------------------------------------------------------

  class SharedSession<V> {
    var snapshot: Snapshot<V>
    var generation: nat
    var closeRequested: bool
    var closing: bool
    var restarting: bool
    ghost var accepted: seq<V>

    constructor ()
      ensures View() == Opened<V>()
    {
      snapshot, generation := Snapshot(Connecting, 0, 0, None, false), 1;
      closeRequested, closing, restarting, accepted := false, false, false, [];
    }

    ghost function View(): Session<V>
      reads this
    {
      Session(snapshot, generation, closeRequested, closing, restarting, accepted)
    }

    method AcceptValue(from: nat, value: V)
      modifies this
      ensures View() == Accept(old(View()), from, value)
    {
      if from != generation || Terminal(snapshot.phase) {
        return;
      }
      snapshot := Snapshot(snapshot.phase, snapshot.revision + 1, snapshot.valueRevision + 1, Some(value), false);
      accepted := accepted + [value];
    }

    method SourceReady(from: nat)
      modifies this
      ensures View() == Ready(old(View()), from)
    {
      if from != generation || closeRequested || Terminal(snapshot.phase) {
        return;
      }
      snapshot := snapshot.(phase := Live, revision := snapshot.revision + 1);
    }

    method SourceFinished(from: nat, failed: bool)
      modifies this
      ensures View() == Finish(old(View()), from, failed)
    {
      if from != generation || closeRequested || Terminal(snapshot.phase) {
        return;
      }
      snapshot := snapshot.(phase := if failed then ErrorPhase else ClosedPhase, revision := snapshot.revision + 1,
                            failed := failed || snapshot.failed);
    }

    method RestartSource() returns (ok: bool)
      modifies this
      ensures ok == !old(closeRequested) && View() == BeginRestart(old(View()))
    {
      if closeRequested {
        return false;
      }
      if !restarting {
        restarting, generation := true, generation + 1;
        snapshot := snapshot.(phase := Connecting, revision := snapshot.revision + 1, failed := false);
      }
      return true;
    }

    method PreviousClosed()
      modifies this
      ensures View() == GoOn(old(View()))
    {
      if !restarting {
        return;
      }
      restarting := false;
      if !closeRequested {
        generation := generation + 1;
      }
    }

    method CloseSession()
      modifies this
      ensures View() == RequestClose(old(View()))
    {
      if !closeRequested {
        closeRequested, closing := true, true;
      }
    }

    method SourceClosed()
      modifies this
      ensures View() == FinishClose(old(View()))
    {
      if !closing {
        return;
      }
      closing, generation := false, generation + 1;
      if snapshot.phase != ClosedPhase {
        snapshot := snapshot.(phase := ClosedPhase, revision := snapshot.revision + 1);
      }
    }
  }
}
