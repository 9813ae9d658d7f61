/** The runtime's bounded event stream: every subscriber has its own queue, and what a slow one loses is counted. */
module RuntimeEvents {
  import opened Prelude

  const MaxSafe: nat := 9007199254740991

  datatype ConnectionState = Idle | Connecting | Connected | Reconnecting | ClosedState

  datatype Event = Status(state: ConnectionState, server: Option<string>) | Diagnostic(code: nat)

  /** What a reader is given. An overflow report carries the count shown; `lost` is how many events really went. */
  datatype Output = Given(event: Event) | Overflow(count: nat, lost: nat) | Done

  /**
   One subscriber. `seen` lists the status it started with and every event emitted while it was subscribed;
   `outputs` what its reader was given; `lost` counts the drops that are not yet reported; `left` says that the
   reader gave up.
   */
  datatype Subscriber = Subscriber(
    queue: seq<Event>, waiting: bool, closed: bool, attached: bool, dropped: nat,
    left: bool, lost: nat, seen: seq<Event>, outputs: seq<Output>)

  datatype Stream = Stream(status: Event, closed: bool, subscribers: seq<Subscriber>)

  datatype Command =
    | Subscribe
    | Requests(k: nat)
    | Returns(k: nat)
    | SetStatus(state: ConnectionState, server: Option<string>)
    | Diagnose(code: nat)

  const Quiet := Stream(Status(Idle, None), false, [])

  function Join(stream: Stream): Subscriber {
    Subscriber([stream.status], false, stream.closed, !stream.closed, 0, false, 0, [stream.status], [])
  }

  function Give(s: Subscriber, output: Output): Subscriber {
    s.(outputs := s.outputs + [output])
  }

  /** A reader asks for the next event; it asks again only once it has been answered. */
  function Ask(s: Subscriber): Subscriber {
    if s.waiting then s
    else if 0 < s.dropped then Give(s.(dropped := 0, lost := 0), Overflow(s.dropped, s.lost))
    else if s.queue != [] then Give(s.(queue := s.queue[1..]), Given(s.queue[0]))
    else if s.closed then Give(s, Done)
    else s.(waiting := true)
  }

  function Min(a: nat, b: nat): nat {
    if a <= b then a else b
  }

  function Offer(capacity: nat, s: Subscriber, event: Event): Subscriber {
    var saw := s.(seen := s.seen + [event]);
    if s.waiting then Give(saw.(waiting := false), Given(event))
    else
      var room := if |s.queue| == capacity && s.queue != []
                  then saw.(queue := s.queue[1..], dropped := Min(MaxSafe, s.dropped + 1), lost := s.lost + 1)
                  else saw;
      room.(queue := room.queue + [event])
  }

  /** The reader gives up: everything queued is discarded, and a pending request is answered. */
  function Leave(s: Subscriber): Subscriber {
    var gone := s.(closed := true, attached := false, queue := [], dropped := 0, lost := 0, waiting := false,
                    left := true);
    if s.waiting then Give(gone, Done) else gone
  }

  function OfferAll(capacity: nat, subscribers: seq<Subscriber>, event: Event): (r: seq<Subscriber>)
    ensures |r| == |subscribers|
  {
    seq(|subscribers|, i requires 0 <= i < |subscribers| =>
      if subscribers[i].attached then Offer(capacity, subscribers[i], event) else subscribers[i])
  }

  function CloseAll(subscribers: seq<Subscriber>): (r: seq<Subscriber>)
    ensures |r| == |subscribers|
  {
    seq(|subscribers|, i requires 0 <= i < |subscribers| =>
      if subscribers[i].attached then subscribers[i].(closed := true, attached := false) else subscribers[i])
  }

  function Emit(capacity: nat, stream: Stream, event: Event): Stream {
    if stream.closed then stream else stream.(subscribers := OfferAll(capacity, stream.subscribers, event))
  }

  function Update(capacity: nat, stream: Stream, state: ConnectionState, server: Option<string>): Stream {
    var status := Status(state, server);
    if stream.status == status && !(state == ClosedState && !stream.closed) then stream
    else
      var emitted := Emit(capacity, stream.(status := status), status);
      if state == ClosedState then emitted.(closed := true, subscribers := CloseAll(emitted.subscribers)) else emitted
  }

  function Step(capacity: nat, stream: Stream, command: Command): Stream {
    match command
    case Subscribe => stream.(subscribers := stream.subscribers + [Join(stream)])
    case Requests(k) =>
      if k < |stream.subscribers| then stream.(subscribers := stream.subscribers[k := Ask(stream.subscribers[k])])
      else stream
    case Returns(k) =>
      if k < |stream.subscribers| then stream.(subscribers := stream.subscribers[k := Leave(stream.subscribers[k])])
      else stream
    case SetStatus(state, server) => Update(capacity, stream, state, server)
    case Diagnose(code) => Emit(capacity, stream, Diagnostic(code))
  }

  function Run(capacity: nat, commands: seq<Command>): Stream {
    if commands == [] then Quiet
    else Step(capacity, Run(capacity, commands[..|commands| - 1]), commands[|commands| - 1])
  }

  // ---------------------------------------------------------------------------------------------
  // Exact accounting
  // ---------------------------------------------------------------------------------------------

  /** How many events an output accounts for. */
  function Span(output: Output): nat {
    match output
    case Given(_) => 1
    case Overflow(_, lost) => lost
    case Done => 0
  }

  function Covered(outputs: seq<Output>): nat {
    if outputs == [] then 0 else Covered(outputs[..|outputs| - 1]) + Span(outputs[|outputs| - 1])
  }

  /** Output `i` is the event at the position that the outputs before it lead to, or an honest count of those lost. */
  ghost predicate Honest(seen: seq<Event>, outputs: seq<Output>, i: nat)
    requires i < |outputs|
  {
    match outputs[i]
    case Given(event) => Covered(outputs[..i]) < |seen| && event == seen[Covered(outputs[..i])]
    case Overflow(count, lost) => 0 < lost && count == Min(MaxSafe, lost)
    case Done => true
  }

  ghost predicate AllHonest(seen: seq<Event>, outputs: seq<Output>) {
    forall i :: 0 <= i < |outputs| ==> Honest(seen, outputs, i)
  }

  /**
   Until the subscriber leaves: delivered, reported as lost, lost and not yet reported, and queued add up to what was
   emitted, in this order; the queue is bounded; and a waiting reader has nothing queued and nothing to report.
   */
  ghost predicate Accounted(capacity: nat, s: Subscriber) {
    && Covered(s.outputs) + s.lost + |s.queue| == |s.seen|
    && s.queue == s.seen[Covered(s.outputs) + s.lost..]
    && |s.queue| <= capacity
    && s.dropped == Min(MaxSafe, s.lost)
    && (s.waiting ==> s.queue == [] && s.lost == 0)
  }

  ghost predicate SubscriberInv(capacity: nat, s: Subscriber) {
    && AllHonest(s.seen, s.outputs)
    && (s.attached ==> !s.closed)
    && if s.left then s.closed && s.queue == [] && s.dropped == 0 && !s.waiting else Accounted(capacity, s)
  }

  lemma CoveredSnoc(outputs: seq<Output>, output: Output)
    ensures Covered(outputs + [output]) == Covered(outputs) + Span(output)
  {
    assert (outputs + [output])[..|outputs|] == outputs;
  }

  lemma HonestSnoc(seen: seq<Event>, outputs: seq<Output>, output: Output)
    requires AllHonest(seen, outputs)
    requires
      match output
      case Given(event) => Covered(outputs) < |seen| && event == seen[Covered(outputs)]
      case Overflow(count, lost) => 0 < lost && count == Min(MaxSafe, lost)
      case Done => true
    ensures AllHonest(seen, outputs + [output])
  {
    var more := outputs + [output];
    hide Covered;
    forall i | 0 <= i < |more|
      ensures Honest(seen, more, i)
    {
      if i < |outputs| {
        assert Honest(seen, outputs, i) && more[..i] == outputs[..i];
      } else {
        assert more[..i] == outputs;
      }
    }
  }

  lemma HonestMore(seen: seq<Event>, event: Event, outputs: seq<Output>)
    requires AllHonest(seen, outputs)
    ensures AllHonest(seen + [event], outputs)
  {
    hide Covered;
    forall i | 0 <= i < |outputs|
      ensures Honest(seen + [event], outputs, i)
    {
      assert Honest(seen, outputs, i);
    }
  }

  lemma AskInv(capacity: nat, s: Subscriber)
    requires SubscriberInv(capacity, s)
    ensures SubscriberInv(capacity, Ask(s))
  {
    if !s.waiting {
      if 0 < s.dropped {
        ReportInv(capacity, s);
      } else if s.queue != [] {
        DeliverInv(capacity, s);
      } else if s.closed {
        CoveredSnoc(s.outputs, Done);
        HonestSnoc(s.seen, s.outputs, Done);
      }
    }
  }

  lemma ReportInv(capacity: nat, s: Subscriber)
    requires SubscriberInv(capacity, s) && !s.waiting && 0 < s.dropped
    ensures SubscriberInv(capacity, Ask(s))
  {
    CoveredSnoc(s.outputs, Overflow(s.dropped, s.lost));
    HonestSnoc(s.seen, s.outputs, Overflow(s.dropped, s.lost));
    hide AllHonest, Covered;
  }

  lemma DeliverInv(capacity: nat, s: Subscriber)
    requires SubscriberInv(capacity, s) && !s.waiting && s.dropped == 0 && s.queue != []
    ensures SubscriberInv(capacity, Ask(s))
  {
    CoveredSnoc(s.outputs, Given(s.queue[0]));
    assert s.queue[0] == s.seen[Covered(s.outputs)];
    HonestSnoc(s.seen, s.outputs, Given(s.queue[0]));
    hide AllHonest, Covered;
  }

  lemma OfferInv(capacity: nat, s: Subscriber, event: Event)
    requires 0 < capacity && SubscriberInv(capacity, s) && s.attached
    ensures SubscriberInv(capacity, Offer(capacity, s, event))
  {
    HonestMore(s.seen, event, s.outputs);
    if s.waiting {
      CoveredSnoc(s.outputs, Given(event));
      HonestSnoc(s.seen + [event], s.outputs, Given(event));
    }
    hide AllHonest, Covered;
  }

  lemma LeaveInv(capacity: nat, s: Subscriber)
    requires SubscriberInv(capacity, s)
    ensures SubscriberInv(capacity, Leave(s))
  {
    HonestSnoc(s.seen, s.outputs, Done);
  }

  ghost predicate StreamInv(capacity: nat, stream: Stream) {
    && (forall k :: 0 <= k < |stream.subscribers| ==> SubscriberInv(capacity, stream.subscribers[k]))
    && (stream.closed ==> forall k :: 0 <= k < |stream.subscribers| ==> !stream.subscribers[k].attached)
  }

  lemma EmitInv(capacity: nat, stream: Stream, event: Event)
    requires 0 < capacity && StreamInv(capacity, stream)
    ensures StreamInv(capacity, Emit(capacity, stream, event))
  {
    hide SubscriberInv, Offer;
    if !stream.closed {
      forall k | 0 <= k < |stream.subscribers|
        ensures SubscriberInv(capacity, Emit(capacity, stream, event).subscribers[k])
      {
        if stream.subscribers[k].attached {
          OfferInv(capacity, stream.subscribers[k], event);
        }
      }
    }
  }

  lemma CloseInv(capacity: nat, s: Subscriber)
    requires SubscriberInv(capacity, s) && s.attached
    ensures SubscriberInv(capacity, s.(closed := true, attached := false))
  {
    hide AllHonest, Covered;
  }

  lemma JoinInv(capacity: nat, stream: Stream)
    requires 0 < capacity
    ensures SubscriberInv(capacity, Join(stream))
  {
  }

  lemma StepInv(capacity: nat, stream: Stream, command: Command)
    requires 0 < capacity && StreamInv(capacity, stream)
    ensures StreamInv(capacity, Step(capacity, stream, command))
  {
    hide SubscriberInv, Emit;
    match command {
      case Subscribe => JoinInv(capacity, stream);
      case Requests(k) =>
        if k < |stream.subscribers| {
          AskInv(capacity, stream.subscribers[k]);
        }
      case Returns(k) =>
        if k < |stream.subscribers| {
          LeaveInv(capacity, stream.subscribers[k]);
        }
      case SetStatus(state, server) => UpdateInv(capacity, stream, state, server);
      case Diagnose(code) => EmitInv(capacity, stream, Diagnostic(code));
    }
  }

  lemma UpdateInv(capacity: nat, stream: Stream, state: ConnectionState, server: Option<string>)
    requires 0 < capacity && StreamInv(capacity, stream)
    ensures StreamInv(capacity, Update(capacity, stream, state, server))
  {
    var named := stream.(status := Status(state, server));
    hide SubscriberInv, Emit;
    EmitInv(capacity, named, named.status);
    var emitted := Emit(capacity, named, named.status);
    forall k | 0 <= k < |emitted.subscribers| && emitted.subscribers[k].attached
      ensures SubscriberInv(capacity, emitted.subscribers[k].(closed := true, attached := false))
    {
      CloseInv(capacity, emitted.subscribers[k]);
    }
  }

  lemma {:induction false} RunInv(capacity: nat, commands: seq<Command>)
    requires 0 < capacity
    ensures StreamInv(capacity, Run(capacity, commands))
    decreases |commands|
  {
    if commands != [] {
      RunInv(capacity, commands[..|commands| - 1]);
      StepInv(capacity, Run(capacity, commands[..|commands| - 1]), commands[|commands| - 1]);
    }
  }

  // ---------------------------------------------------------------------------------------------
  // The promises
  // ---------------------------------------------------------------------------------------------

  /** Over every run, for every subscriber that has not left: exact positions, exact loss, a bounded queue. */
  lemma LossIsCounted(capacity: nat, commands: seq<Command>, k: nat)
    requires 0 < capacity && k < |Run(capacity, commands).subscribers|
    ensures
      var s := Run(capacity, commands).subscribers[k];
      && (forall i :: 0 <= i < |s.outputs| ==> Honest(s.seen, s.outputs, i))
      && (!s.left ==>
            && Covered(s.outputs) + s.lost + |s.queue| == |s.seen|
            && s.queue == s.seen[Covered(s.outputs) + s.lost..]
            && |s.queue| <= capacity && s.dropped == Min(MaxSafe, s.lost)
            && (s.waiting ==> s.queue == [] && s.dropped == 0))
  {
    RunInv(capacity, commands);
    hide Run, Honest;
    var s := Run(capacity, commands).subscribers[k];
    assert SubscriberInv(capacity, s);
    hide StreamInv;
  }

  /** Apart from final answers, the last thing given was this event. */
  predicate GivenLast(outputs: seq<Output>, event: Event) {
    && outputs != []
    && (outputs[|outputs| - 1] == Given(event)
        || (outputs[|outputs| - 1].Done? && GivenLast(outputs[..|outputs| - 1], event)))
  }

  /** The latest event emitted is never the one that is dropped: it is still queued, or it was given. */
  predicate KeepsLatest(s: Subscriber) {
    && s.seen != [] && (s.attached ==> !s.left && !s.closed)
    && (s.closed && !s.left ==>
          s.seen[|s.seen| - 1].Status? && (|s.seen| == 1 || s.seen[|s.seen| - 1].state == ClosedState))
    && (!s.left ==>
          && (if s.queue != [] then s.queue[|s.queue| - 1] == s.seen[|s.seen| - 1]
              else s.dropped == 0 && GivenLast(s.outputs, s.seen[|s.seen| - 1]))
          && (s.waiting ==> s.queue == [] && !s.closed))
  }

  lemma GivenSnoc(outputs: seq<Output>, output: Output, event: Event)
    ensures output == Given(event) ==> GivenLast(outputs + [output], event)
    ensures output.Done? && GivenLast(outputs, event) ==> GivenLast(outputs + [output], event)
  {
    assert (outputs + [output])[..|outputs|] == outputs;
  }

  lemma AskKeepsLatest(s: Subscriber)
    requires KeepsLatest(s)
    ensures KeepsLatest(Ask(s))
  {
    if !s.left && !s.waiting && s.dropped == 0 {
      if s.queue != [] {
        GivenSnoc(s.outputs, Given(s.queue[0]), s.seen[|s.seen| - 1]);
      } else if s.closed {
        GivenSnoc(s.outputs, Done, s.seen[|s.seen| - 1]);
      }
    }
    hide GivenLast;
  }

  lemma OfferKeepsLatest(capacity: nat, s: Subscriber, event: Event)
    requires KeepsLatest(s) && s.attached
    ensures KeepsLatest(Offer(capacity, s, event))
    ensures Offer(capacity, s, event).seen[|s.seen|] == event
  {
    GivenSnoc(s.outputs, Given(event), event);
    hide GivenLast;
  }

  predicate AllKeep(subscribers: seq<Subscriber>) {
    forall k :: 0 <= k < |subscribers| ==> KeepsLatest(subscribers[k])
  }

  lemma EmitKeeps(capacity: nat, stream: Stream, event: Event)
    requires AllKeep(stream.subscribers)
    ensures AllKeep(Emit(capacity, stream, event).subscribers)
  {
    hide KeepsLatest, Offer;
    if !stream.closed {
      forall k | 0 <= k < |stream.subscribers|
        ensures KeepsLatest(Emit(capacity, stream, event).subscribers[k])
      {
        if stream.subscribers[k].attached {
          OfferKeepsLatest(capacity, stream.subscribers[k], event);
        }
      }
    }
  }

  /** The closing status is emitted to everyone and then nothing is. */
  lemma UpdateKeeps(capacity: nat, stream: Stream, state: ConnectionState, server: Option<string>)
    requires AllKeep(stream.subscribers) && StreamInv(capacity, stream)
    ensures AllKeep(Update(capacity, stream, state, server).subscribers)
  {
    var named := stream.(status := Status(state, server));
    EmitKeeps(capacity, named, named.status);
    var emitted := Emit(capacity, named, named.status);
    if state == ClosedState && !stream.closed {
      forall k | 0 <= k < |emitted.subscribers| && emitted.subscribers[k].attached
        ensures KeepsLatest(emitted.subscribers[k].(closed := true, attached := false))
      {
        ClosingIsLatest(capacity, stream.subscribers[k], named.status);
      }
    }
    hide KeepsLatest, Offer;
  }

  lemma ClosingIsLatest(capacity: nat, s: Subscriber, status: Event)
    requires KeepsLatest(s) && s.attached && status.Status? && status.state == ClosedState
    ensures KeepsLatest(Offer(capacity, s, status).(closed := true, attached := false))
  {
    OfferKeepsLatest(capacity, s, status);
    hide GivenLast;
  }

  lemma StepKeeps(capacity: nat, stream: Stream, command: Command)
    requires AllKeep(stream.subscribers) && StreamInv(capacity, stream) && stream.status.Status?
    ensures AllKeep(Step(capacity, stream, command).subscribers) && Step(capacity, stream, command).status.Status?
  {
    match command {
      case Subscribe =>
      case Requests(k) =>
        hide KeepsLatest, Ask;
        if k < |stream.subscribers| {
          AskKeepsLatest(stream.subscribers[k]);
        }
      case Returns(k) =>
      case SetStatus(state, server) => UpdateKeeps(capacity, stream, state, server);
      case Diagnose(code) => EmitKeeps(capacity, stream, Diagnostic(code));
    }
  }

  lemma {:induction false} RunKeeps(capacity: nat, commands: seq<Command>)
    requires 0 < capacity
    ensures AllKeep(Run(capacity, commands).subscribers) && Run(capacity, commands).status.Status?
    decreases |commands|
  {
    hide AllKeep, StreamInv, Step;
    if commands == [] {
      NoneKept();
    } else {
      RunKeeps(capacity, commands[..|commands| - 1]);
      RunInv(capacity, commands[..|commands| - 1]);
      StepKeeps(capacity, Run(capacity, commands[..|commands| - 1]), commands[|commands| - 1]);
    }
  }

  lemma NoneKept()
    ensures AllKeep([])
  {
  }

  /**
   A subscriber that was there when the stream closed, and has not left, is given the closing status before it is
   told that the stream is done.
   */
  lemma ClosingStatusSurvives(capacity: nat, commands: seq<Command>, k: nat)
    requires 0 < capacity && k < |Run(capacity, commands).subscribers|
    ensures
      var s := Run(capacity, commands).subscribers[k];
      s.closed && !s.left ==>
        && s.seen != [] && s.seen[|s.seen| - 1].Status?
        && (|s.seen| == 1 || s.seen[|s.seen| - 1].state == ClosedState)
        && (s.queue != [] ==> s.queue[|s.queue| - 1] == s.seen[|s.seen| - 1])
        && (s.queue == [] ==> s.dropped == 0 && GivenLast(s.outputs, s.seen[|s.seen| - 1]))
  {
    RunKeeps(capacity, commands);
    hide Run, GivenLast;
    assert KeepsLatest(Run(capacity, commands).subscribers[k]);
  }

  // ---------------------------------------------------------------------------------------------
  // What is published, read off the commands alone
  // ---------------------------------------------------------------------------------------------

  function CurrentStatus(commands: seq<Command>): Event {
    if commands == [] then Status(Idle, None)
    else
      var last := commands[|commands| - 1];
      if last.SetStatus? then Status(last.state, last.server) else CurrentStatus(commands[..|commands| - 1])
  }

  predicate Closes(command: Command) {
    command.SetStatus? && command.state == ClosedState
  }

  predicate HasClosed(commands: seq<Command>) {
    exists i :: 0 <= i < |commands| && Closes(commands[i])
  }

  function SubscriberCount(commands: seq<Command>): nat {
    if commands == [] then 0
    else SubscriberCount(commands[..|commands| - 1]) + (if commands[|commands| - 1] == Subscribe then 1 else 0)
  }

  /** What a command publishes: every diagnostic, and every status that differs from the one before, or closes. */
  function News(before: seq<Command>, command: Command): seq<Event> {
    if HasClosed(before) then []
    else
      match command
      case Diagnose(code) => [Diagnostic(code)]
      case SetStatus(state, server) =>
        if state == ClosedState || Status(state, server) != CurrentStatus(before) then [Status(state, server)] else []
      case _ => []
  }

  /** The `k`-th subscriber has joined an open stream, has not left, and the stream has not closed. */
  predicate Listening(commands: seq<Command>, k: nat) {
    commands != [] &&
    var front, last := commands[..|commands| - 1], commands[|commands| - 1];
    if last == Subscribe && k == SubscriberCount(front) then !HasClosed(front)
    else Listening(front, k) && last != Returns(k) && !Closes(last)
  }

  /** The status when it joined, and everything published while it listened. */
  function Due(commands: seq<Command>, k: nat): seq<Event> {
    if commands == [] then []
    else
      var front, last := commands[..|commands| - 1], commands[|commands| - 1];
      if last == Subscribe && k == SubscriberCount(front) then [CurrentStatus(front)]
      else Due(front, k) + (if Listening(front, k) then News(front, last) else [])
  }

  ghost predicate AsCommanded(stream: Stream, commands: seq<Command>) {
    && stream.status == CurrentStatus(commands) && stream.closed == HasClosed(commands)
    && |stream.subscribers| == SubscriberCount(commands)
    && forall k :: 0 <= k < |stream.subscribers| ==>
         stream.subscribers[k].seen == Due(commands, k) && stream.subscribers[k].attached == Listening(commands, k)
  }

  lemma HasClosedSnoc(front: seq<Command>, last: Command)
    ensures HasClosed(front + [last]) <==> HasClosed(front) || Closes(last)
  {
    if HasClosed(front) {
      var i :| 0 <= i < |front| && Closes(front[i]);
      assert Closes((front + [last])[i]);
    }
    if Closes(last) {
      assert Closes((front + [last])[|front|]);
    }
  }

  /** What a step does to one subscriber's history. */
  lemma StepHistory(capacity: nat, stream: Stream, command: Command, news: seq<Event>)
    requires
      news == if stream.closed then []
              else
                match command
                case Diagnose(code) => [Diagnostic(code)]
                case SetStatus(state, server) =>
                  if state == ClosedState || Status(state, server) != stream.status then [Status(state, server)]
                  else []
                case _ => []
    requires stream.closed ==> forall k :: 0 <= k < |stream.subscribers| ==> !stream.subscribers[k].attached
    ensures
      var next := Step(capacity, stream, command);
      && next.status == (if command.SetStatus? then Status(command.state, command.server) else stream.status)
      && next.closed == (stream.closed || Closes(command))
      && |next.subscribers| == |stream.subscribers| + (if command == Subscribe then 1 else 0)
      && (forall k :: 0 <= k < |stream.subscribers| ==>
            var a, b := stream.subscribers[k], next.subscribers[k];
            && b.attached == (a.attached && command != Returns(k) && !Closes(command))
            && b.seen == a.seen + (if a.attached then news else []))
      && (command == Subscribe ==>
            var joined := next.subscribers[|stream.subscribers|];
            joined.seen == [stream.status] && joined.attached == !stream.closed)
  {
    assert forall xs: seq<Event> :: xs + [] == xs;
    hide Min;
  }

  lemma StepCommanded(capacity: nat, stream: Stream, front: seq<Command>, last: Command)
    requires AsCommanded(stream, front)
    requires stream.closed ==> forall k :: 0 <= k < |stream.subscribers| ==> !stream.subscribers[k].attached
    ensures
      var next := Step(capacity, stream, last);
      AsCommanded(next, front + [last])
    ensures
      var next := Step(capacity, stream, last);
      next.closed ==> forall k :: 0 <= k < |next.subscribers| ==> !next.subscribers[k].attached
  {
    var all := front + [last];
    assert all[..|front|] == front && all[|front|] == last;
    StepHistory(capacity, stream, last, News(front, last));
    HasClosedSnoc(front, last);
    hide Step, HasClosed;
  }

  /**
   Over every run: the status is the last one set, the stream is closed once a closing status was set, and every
   subscriber has seen exactly the status when it joined and what was published while it listened.
   */
  lemma {:induction false} EveryoneSees(capacity: nat, commands: seq<Command>)
    ensures
      var stream := Run(capacity, commands);
      && AsCommanded(stream, commands)
      && (stream.closed ==> forall k :: 0 <= k < |stream.subscribers| ==> !stream.subscribers[k].attached)
    decreases |commands|
  {
    hide Step, AsCommanded;
    if commands == [] {
      NothingCommanded();
    } else {
      var front, last := commands[..|commands| - 1], commands[|commands| - 1];
      assert front + [last] == commands;
      EveryoneSees(capacity, front);
      StepCommanded(capacity, Run(capacity, front), front, last);
    }
  }

  lemma NothingCommanded()
    ensures AsCommanded(Quiet, [])
  {
  }

  /**
   A request is answered at once when a loss is to be reported, an event is queued or the stream is over, and waits
   otherwise; a waiting reader is given the next event at once, or the end when it leaves.
   */
  lemma RequestsAnswered(capacity: nat, s: Subscriber, event: Event)
    requires s.dropped == Min(MaxSafe, s.lost)
    ensures !s.waiting ==>
      var asked, ready := Ask(s), 0 < s.lost || s.queue != [] || s.closed;
      && asked.waiting == !ready
      && |asked.outputs| == |s.outputs| + (if ready then 1 else 0) && s.outputs <= asked.outputs
      && (0 < s.lost ==> asked.outputs[|s.outputs|].Overflow?)
      && (s.lost == 0 && s.queue != [] ==> asked.outputs[|s.outputs|] == Given(s.queue[0]))
      && (s.lost == 0 && s.queue == [] && s.closed ==> asked.outputs[|s.outputs|] == Done)
    ensures s.waiting ==>
      && Ask(s) == s
      && Offer(capacity, s, event).outputs == s.outputs + [Given(event)] && !Offer(capacity, s, event).waiting
    ensures
      var left := Leave(s);
      && left.outputs == s.outputs + (if s.waiting then [Done] else [])
      && !left.waiting && left.queue == [] && left.lost == 0 && left.closed && left.left
  {
    assert s.outputs + [] == s.outputs;
  }

  // ---------------------------------------------------------------------------------------------
  // The stream object
  // ---------------------------------------------------------------------------------------------

  /** How a request for the next event is answered at once; `Later` leaves it waiting. */
  datatype Answer = Next(event: Event) | Lost(count: nat) | Finished | Later

  function Answered(s: Subscriber): Answer {
    if s.waiting then Later
    else if 0 < s.dropped then Lost(s.dropped)
    else if s.queue != [] then Answer.Next(s.queue[0])
    else if s.closed then Finished
    else Later
  }

  class EventSubscriber {
    var queue: seq<Event>
    var waiting: bool
    var closed: bool
    var attached: bool
    var dropped: nat
    ghost var left: bool
    ghost var lost: nat
    ghost var seen: seq<Event>
    ghost var outputs: seq<Output>

    constructor (status: Event, closed: bool)
      ensures View() == Join(Stream(status, closed, []))
    {
      queue, waiting, this.closed, attached, dropped := [status], false, closed, !closed, 0;
      left, lost, seen, outputs := false, 0, [status], [];
    }

    ghost function View(): Subscriber
      reads this
    {
      Subscriber(queue, waiting, closed, attached, dropped, left, lost, seen, outputs)
    }

    method NextEvent() returns (answer: Answer)
      modifies this
      ensures View() == Ask(old(View())) && answer == Answered(old(View()))
    {
      if waiting {
        return Later;
      }
      if 0 < dropped {
        answer := Lost(dropped);
        outputs := outputs + [Overflow(dropped, lost)];
        dropped, lost := 0, 0;
        return;
      }
      if queue != [] {
        answer := Answer.Next(queue[0]);
        outputs := outputs + [Given(queue[0])];
        queue := queue[1..];
        return;
      }
      if closed {
        outputs := outputs + [Done];
        return Finished;
      }
      waiting := true;
      return Later;
    }

    method Push(capacity: nat, event: Event)
      modifies this
      ensures View() == Offer(capacity, old(View()), event)
    {
      seen := seen + [event];
      if waiting {
        waiting := false;
        outputs := outputs + [Given(event)];
        return;
      }
      if |queue| == capacity && queue != [] {
        queue := queue[1..];
        dropped := if dropped + 1 <= MaxSafe then dropped + 1 else MaxSafe;
        lost := lost + 1;
      }
      queue := queue + [event];
    }

    method Remove()
      modifies this
      ensures View() == Leave(old(View()))
    {
      outputs := if waiting then outputs + [Done] else outputs;
      closed, attached, queue, dropped, lost, waiting, left := true, false, [], 0, 0, false, true;
    }
  }

  class EventStream {
    const capacity: nat
    var status: Event
    var closed: bool
    var subscribers: seq<EventSubscriber>

    constructor (capacity: nat)
      ensures View() == Quiet && Valid() && this.capacity == capacity
    {
      this.capacity, status, closed, subscribers := capacity, Status(Idle, None), false, [];
    }

    ghost function Views(): (r: seq<Subscriber>)
      reads this, subscribers
    {
      seq(|subscribers|, i requires 0 <= i < |subscribers| reads this, subscribers => subscribers[i].View())
    }

    ghost function View(): Stream
      reads this, subscribers
    {
      Stream(status, closed, Views())
    }

    ghost predicate Valid()
      reads this
    {
      forall i, j :: 0 <= i < j < |subscribers| ==> subscribers[i] != subscribers[j]
    }

    method Open()
      requires Valid()
      modifies this
      ensures Valid() && View() == Step(capacity, old(View()), Subscribe)
    {
      var subscriber := new EventSubscriber(status, closed);
      subscribers := subscribers + [subscriber];
    }

    method EmitEvent(event: Event)
      requires Valid()
      modifies subscribers
      ensures Valid() && View() == Emit(capacity, old(View()), event)
    {
      if closed {
        return;
      }
      hide Offer;
      var i := 0;
      while i < |subscribers|
        invariant 0 <= i <= |subscribers| == |old(Views())|
        invariant forall k :: 0 <= k < i ==> Views()[k] == OfferAll(capacity, old(Views()), event)[k]
        invariant forall k :: i <= k < |subscribers| ==> Views()[k] == old(Views())[k]
      {
        if subscribers[i].attached {
          subscribers[i].Push(capacity, event);
        }
        i := i + 1;
      }
      assert Views() == OfferAll(capacity, old(Views()), event);
    }

    method CloseSubscribers()
      requires Valid()
      modifies subscribers
      ensures Valid() && Views() == CloseAll(old(Views()))
    {
      var i := 0;
      while i < |subscribers|
        invariant 0 <= i <= |subscribers| == |old(Views())|
        invariant forall k :: 0 <= k < i ==> Views()[k] == CloseAll(old(Views()))[k]
        invariant forall k :: i <= k < |subscribers| ==> Views()[k] == old(Views())[k]
      {
        if subscribers[i].attached {
          subscribers[i].closed := true;
          subscribers[i].attached := false;
        }
        i := i + 1;
      }
      assert Views() == CloseAll(old(Views()));
    }

    method ChangeStatus(state: ConnectionState, server: Option<string>)
      requires Valid()
      modifies this, subscribers
      ensures Valid() && View() == Update(capacity, old(View()), state, server)
    {
      if status == Status(state, server) && !(state == ClosedState && !closed) {
        return;
      }
      hide Offer;
      ghost var named := old(View()).(status := Status(state, server));
      status := Status(state, server);
      assert Views() == old(Views());
      EmitEvent(status);
      ghost var emitted := View();
      assert emitted == Emit(capacity, named, named.status);
      hide Emit, CloseAll;
      if state == ClosedState {
        CloseSubscribers();
        ghost var gone := Views();
        closed := true;
        assert Views() == gone == CloseAll(emitted.subscribers);
      }
    }
  }
}
