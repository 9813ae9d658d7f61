/**
 A lease does not stall. As long as the source is silent and the handler accepts what it is given, every message read
 and every item accepted brings the lease closer to rest, and a lease at rest that has not been ended has everything.
 */
module BrokerClientProgress {
  import opened Prelude
  import opened Broker
  import opened BrokerInvariants
  import opened BrokerPromises
  import opened BrokerClient
  import opened BrokerClientSafety
  import opened BrokerClientRuns

  /** A step of the lease or its worker that has something to do. */
  predicate Enabled(link: Link, event: Event) {
    match event
    case WorkerReads(_) => link.up != []
    case TabReads => link.down != []
    case Starts => link.running.None? && link.chain != []
    case Accepts => link.running.Some? && !link.running.value.acking
    case _ => false
  }

  function DownWeight(down: seq<Down>): nat {
    if down == [] then 0
    else
      DownWeight(down[..|down| - 1])
      + match down[|down| - 1]
        case BatchDown(batch) => 12 + |batch.entries|
        case ResumeDown => 1
        case ReplyDown(_) => 2
  }

  function UpWeight(up: seq<Up>, retained: nat): nat {
    if up == [] then 0
    else
      UpWeight(up[..|up| - 1], retained)
      + match up[|up| - 1]
        case AttachUp(_, _) => 20 * retained + 2
        case AckUp(_, _) => 5
  }

  function ChainWeight(chain: seq<Received>): nat {
    if chain == [] then 0 else ChainWeight(chain[..|chain| - 1]) + 10 + |chain[|chain| - 1].batch.entries|
  }

  function SubWeight(sub: Option<Subscription>): nat {
    if sub.None? then 0 else 20 * |sub.value.pending|
  }

  function RunWeight(running: Option<Running>): nat {
    if running.None? || running.value.acking then 0
    else
      var left := |running.value.batch.entries| - running.value.handed;
      8 + (if 0 <= left then left else 0)
  }

  /** An upper bound on the steps that are left. */
  function Rank(link: Link): nat {
    SubWeight(link.sub) + DownWeight(link.down) + UpWeight(link.up, |link.source.log|) + ChainWeight(link.chain)
    + RunWeight(link.running)
  }

  lemma DownAfter(down: seq<Down>, message: Down)
    ensures DownWeight(down + [message])
         == DownWeight(down)
            + match message
              case BatchDown(batch) => 12 + |batch.entries|
              case ResumeDown => 1
              case ReplyDown(_) => 2
  {
    assert (down + [message])[..|down|] == down;
  }

  lemma {:induction false} DownFirst(down: seq<Down>)
    requires down != []
    ensures DownWeight(down)
         == (match down[0]
             case BatchDown(batch) => 12 + |batch.entries|
             case ResumeDown => 1
             case ReplyDown(_) => 2)
            + DownWeight(down[1..])
    decreases |down|
  {
    if |down| > 1 {
      var front := down[..|down| - 1];
      DownFirst(front);
      assert down[1..] == front[1..] + [down[|down| - 1]];
      DownAfter(front[1..], down[|down| - 1]);
    }
  }

  lemma {:induction false} UpFirst(up: seq<Up>, retained: nat)
    requires up != []
    ensures UpWeight(up, retained) == (if up[0].AttachUp? then 20 * retained + 2 else 5) + UpWeight(up[1..], retained)
    decreases |up|
  {
    if |up| > 1 {
      var front := up[..|up| - 1];
      UpFirst(front, retained);
      assert up[1..][..|up| - 2] == front[1..];
    }
  }

  lemma UpAfter(up: seq<Up>, message: Up, retained: nat)
    ensures UpWeight(up + [message], retained)
         == UpWeight(up, retained) + (if message.AttachUp? then 20 * retained + 2 else 5)
  {
    assert (up + [message])[..|up|] == up;
  }

  lemma {:induction false} ChainFirst(chain: seq<Received>)
    requires chain != []
    ensures ChainWeight(chain) == 10 + |chain[0].batch.entries| + ChainWeight(chain[1..])
    decreases |chain|
  {
    if |chain| > 1 {
      var front := chain[..|chain| - 1];
      ChainFirst(front);
      assert chain[1..][..|chain| - 2] == front[1..];
    }
  }

  lemma ChainAfter(chain: seq<Received>, last: Received)
    ensures ChainWeight(chain + [last]) == ChainWeight(chain) + 10 + |last.batch.entries|
  {
    assert (chain + [last])[..|chain|] == chain;
  }

  // ---------------------------------------------------------------------------------------------
  // The worker's steps
  // ---------------------------------------------------------------------------------------------

  /** Posting a batch takes its entries, at least one of them, from the queue. */
  lemma FlushTakes(limits: Limits, sub: Subscription)
    requires limits.Valid()
    ensures
      var r := Flush(limits, sub);
      if |sub.sent| < |r.sent| then
        r.inflight.Some? && 0 < |r.inflight.value.entries| && |r.pending| + |r.inflight.value.entries| == |sub.pending|
      else |r.pending| == |sub.pending| && r.sent == sub.sent && r.resumeRequired == sub.resumeRequired
  {
    if sub.pending != [] {
      assert 0 < BatchLength(limits, sub.pending, 0, 0);
    }
    hide Bytes, BatchLength;
  }

  /** What a change of the subscription adds to the line. */
  function PostedWeight(before: Subscription, after: Subscription): nat {
    if |before.sent| < |after.sent| && after.inflight.Some? then 12 + |after.inflight.value.entries|
    else if !before.resumeRequired && after.resumeRequired then 1
    else 0
  }

  lemma EnqueueWeighs(limits: Limits, sub: Subscription, usage: Usage, entry: Entry)
    requires limits.Valid()
    ensures
      var after := Enqueue(limits, sub, usage, entry);
      20 * |after.pending| + PostedWeight(sub, after) <= 20 * |sub.pending| + 20
  {
    var grown := sub.(pending := sub.pending + [entry], pendingBytes := sub.pendingBytes + |entry.data|);
    FlushTakes(limits, grown);
    hide Flush, Fits;
  }

  lemma OfferWeighs(limits: Limits, link: Link, other: Usage, entry: Entry)
    requires limits.Valid() && link.sub.Some?
    ensures
      var r := Offer(limits, link, other, entry);
      && r == link.(sub := r.sub, down := r.down)
      && SubWeight(r.sub) + DownWeight(r.down) <= SubWeight(link.sub) + DownWeight(link.down) + 20
  {
    var before := link.sub.value;
    var usage := Plus(other, Outstanding(before));
    var after := Enqueue(limits, before, usage, entry);
    hide Enqueue, Outstanding, DownWeight, Posted, PostedWeight;
    EnqueueWeighs(limits, before, usage, entry);
    PostedWeighs(link.down, before, after);
  }

  lemma PostedWeighs(down: seq<Down>, before: Subscription, after: Subscription)
    ensures DownWeight(down + Posted(before, after)) == DownWeight(down) + PostedWeight(before, after)
  {
    hide DownWeight;
    if |before.sent| < |after.sent| && after.inflight.Some? {
      DownAfter(down, BatchDown(after.inflight.value));
    } else if !before.resumeRequired && after.resumeRequired {
      DownAfter(down, ResumeDown);
    } else {
      assert down + [] == down;
    }
  }

  lemma {:induction false} FillWeighs(limits: Limits, link: Link, other: Usage, entries: seq<Entry>)
    requires limits.Valid() && link.sub.Some?
    ensures
      var r := Fill(limits, link, other, entries);
      && r == link.(sub := r.sub, down := r.down)
      && SubWeight(r.sub) + DownWeight(r.down) <= SubWeight(link.sub) + DownWeight(link.down) + 20 * |entries|
    decreases |entries|
  {
    hide Offer, SubWeight, DownWeight;
    if entries != [] {
      FillWeighs(limits, link, other, entries[..|entries| - 1]);
      OfferWeighs(limits, Fill(limits, link, other, entries[..|entries| - 1]), other, entries[|entries| - 1]);
    }
  }

  lemma {:induction false} RetainedShort(source: Source, cursor: Option<Cursor>)
    ensures Retained(source, cursor).Some? ==> |Retained(source, cursor).value| <= |source.log|
  {
  }

  lemma AttachWeighs(limits: Limits, link: Link, other: Usage, reattach: bool, cursor: Option<Cursor>)
    requires limits.Valid() && link.sub.None?
    ensures
      var r := AttachTab(limits, link, other, reattach, cursor);
      && r.source == link.source && r.up == link.up && r.chain == link.chain && r.running == link.running
      && SubWeight(r.sub) + DownWeight(r.down) <= DownWeight(link.down) + 20 * |link.source.log| + 1
  {
    hide DownWeight, Retained, Fill;
    TabByCase(limits, link, other, reattach, cursor);
    RetainedShort(link.source, cursor);
    DownAfter(link.down, ResumeDown);
    if reattach && Retained(link.source, cursor).Some? {
      var entries, emitted := Retained(link.source, cursor).value, |link.source.history|;
      FillWeighs(limits, Joined(link, if |entries| <= emitted then emitted - |entries| else 0, cursor), other, entries);
    }
  }

  lemma AckWeighs(limits: Limits, link: Link, id: nat, cursor: Option<Cursor>)
    requires limits.Valid()
    ensures
      var r := AckTab(limits, link, id, cursor);
      && r == link.(sub := r.sub, down := r.down)
      && SubWeight(r.sub) + DownWeight(r.down) <= SubWeight(link.sub) + DownWeight(link.down) + 2
  {
    hide Flush, DownWeight;
    DownAfter(link.down, ReplyDown(false));
    if link.sub.Some? {
      var before := link.sub.value;
      var after := Acknowledge(limits, before, cursor);
      FlushTakes(limits, before.(lastCursor := cursor, inflight := None));
      PostedWeighs(link.down, before, after);
      DownAfter(link.down + Posted(before, after), ReplyDown(true));
    }
    hide Acknowledge, Posted;
  }

  lemma WorkerReadRanks(limits: Limits, link: Link, other: Usage)
    requires limits.Valid() && link.up != []
    ensures Rank(WorkerRead(limits, link, other)) < Rank(link)
  {
    var rest := link.(up := link.up[1..]);
    UpFirst(link.up, |link.source.log|);
    if link.up[0].AttachUp? {
      if link.sub.None? {
        AttachWeighs(limits, rest, other, link.up[0].reattach, link.up[0].cursor);
      }
    } else {
      AckWeighs(limits, rest, link.up[0].id, link.up[0].cursor);
    }
    hide AttachTab, AckTab, SubWeight, DownWeight, UpWeight, ChainWeight, RunWeight;
  }

  // ---------------------------------------------------------------------------------------------
  // The tab's steps
  // ---------------------------------------------------------------------------------------------

  lemma TabReadRanks(link: Link)
    requires link.down != []
    ensures Rank(TabRead(link)) < Rank(link)
  {
    DownFirst(link.down);
    if link.down[0].BatchDown? {
      ChainAfter(link.chain, Received(link.down[0].batch, link.generation));
    }
    hide SubWeight, DownWeight, UpWeight, ChainWeight;
  }

  lemma StartRanks(link: Link)
    requires link.running.None? && link.chain != []
    ensures Rank(StartNext(link)) < Rank(link)
  {
    ChainFirst(link.chain);
    UpAfter(link.up, AckUp(link.chain[0].batch.id, LastCursor(link.chain[0].batch.entries)), |link.source.log|);
    hide SubWeight, DownWeight, UpWeight, ChainWeight, LastCursor;
  }

  lemma AcceptRanks(link: Link)
    requires link.running.Some? && !link.running.value.acking
    ensures Rank(ItemAccepted(link)) < Rank(link)
  {
    var running := link.running.value;
    var batch, acked := running.batch, AckUp(running.batch.id, LastCursor(running.batch.entries));
    UpAfter(link.up, acked, |link.source.log|);
    AcceptIs(link);
    RunWeights(running, link.generation);
    hide SubWeight, DownWeight, UpWeight, ChainWeight, LastCursor, ItemAccepted, RunWeight;
  }

  /** The only fields that accepting an item can change and that count. */
  lemma AcceptIs(link: Link)
    requires link.running.Some? && !link.running.value.acking
    ensures
      var running, r := link.running.value, ItemAccepted(link);
      var batch := running.batch;
      && r.sub == link.sub && r.down == link.down && r.chain == link.chain && r.source == link.source
      && ((r.up == link.up && r.running.None?)
          || (r.up == link.up && running.handed < |batch.entries|
              && r.running == Some(running.(handed := running.handed + 1)))
          || (r.up == link.up + [AckUp(batch.id, LastCursor(batch.entries))]
              && r.running == Some(Running(batch, link.generation, |batch.entries|, true))))
  {
    hide LastCursor;
  }

  lemma RunWeights(running: Running, generation: nat)
    requires !running.acking
    ensures RunWeight(None) == 0 && 8 <= RunWeight(Some(running))
    ensures RunWeight(Some(Running(running.batch, generation, |running.batch.entries|, true))) == 0
    ensures running.handed < |running.batch.entries| ==>
      RunWeight(Some(running.(handed := running.handed + 1))) < RunWeight(Some(running))
  {
  }

  /** Every step that has something to do brings the lease closer to rest. */
  lemma StepRanks(limits: Limits, link: Link, event: Event)
    requires limits.Valid() && Enabled(link, event)
    ensures Rank(Step(limits, link, event)) < Rank(link)
    ensures Step(limits, link, event).source.history == link.source.history
  {
    hide Rank, WorkerRead, TabRead, StartNext, ItemAccepted;
    match event {
      case WorkerReads(other) =>
        WorkerReadRanks(limits, link, other);
        WorkerReadRecord(limits, link, other);
      case TabReads => TabReadRanks(link);
      case Starts => StartRanks(link);
      case Accepts => AcceptRanks(link);
    }
    SameSource(limits, link, event);
  }

  lemma SameSource(limits: Limits, link: Link, event: Event)
    requires Enabled(link, event)
    ensures Step(limits, link, event).source == link.source
  {
    hide WorkerRead;
    if event.WorkerReads? {
      WorkerReadRecord(limits, link, event.other);
    }
  }

  predicate AtRest(link: Link) {
    link.up == [] && link.down == [] && link.chain == [] && link.running.None?
  }

  /** A lease that is not at rest has something to do. */
  lemma NotStuck(limits: Limits, link: Link, other: Usage)
    requires LinkInv(limits, link) && link.end == Open && !AtRest(link)
    ensures Enabled(link, WorkerReads(other)) || Enabled(link, TabReads) || Enabled(link, Starts)
         || Enabled(link, Accepts)
  {
    hide LinkInv;
    if link.up == [] && link.down == [] && link.running.Some? && link.running.value.acking {
      NoAnswerPending(limits, link);
    }
  }

  lemma NoAnswerPending(limits: Limits, link: Link)
    requires LinkInv(limits, link) && link.end == Open && link.up == [] && link.down == []
    ensures !(link.running.Some? && link.running.value.acking)
  {
    hide SubscriptionInv, WellFormed, Latest, Carried, Matched, Signalled, Covered, Suffix;
  }

  /** Each of the steps has something to do when it is taken. */
  predicate Busy(limits: Limits, link: Link, events: seq<Event>)
    decreases |events|
  {
    events == [] || (Enabled(link, events[0]) && Busy(limits, Step(limits, link, events[0]), events[1..]))
  }

  function Goes(limits: Limits, link: Link, events: seq<Event>): Link
    decreases |events|
  {
    if events == [] then link else Goes(limits, Step(limits, link, events[0]), events[1..])
  }

  /** However its steps are ordered, a lease whose source is silent takes at most so many of them. */
  lemma {:induction false} ComesToRest(limits: Limits, link: Link, events: seq<Event>)
    requires limits.Valid() && Busy(limits, link, events)
    ensures |events| <= Rank(link)
    decreases |events|
  {
    hide Rank, Step, Enabled;
    if events != [] {
      StepRanks(limits, link, events[0]);
      ComesToRest(limits, Step(limits, link, events[0]), events[1..]);
    }
  }

  lemma {:induction false} Finishes(limits: Limits, link: Link, other: Usage) returns (events: seq<Event>)
    requires LinkInv(limits, link) && UniqueCursors(link.source.history)
    ensures Busy(limits, link, events)
    ensures
      var end := Goes(limits, link, events);
      LinkInv(limits, end) && end.source.history == link.source.history && (end.end == Open ==> AtRest(end))
    decreases Rank(link)
  {
    hide *;
    if link.end != Open || AtRest(link) {
      events := [];
      NoSteps(limits, link);
    } else {
      ValidLimits(limits, link);
      NotStuck(limits, link, other);
      var event := if Enabled(link, WorkerReads(other)) then WorkerReads(other)
                   else if Enabled(link, TabReads) then TabReads
                   else if Enabled(link, Starts) then Starts else Accepts;
      StepRanks(limits, link, event);
      StepKeeps(limits, link, event);
      var rest := Finishes(limits, Step(limits, link, event), other);
      events := [event] + rest;
      FirstStep(limits, link, event, rest);
    }
  }

  lemma ValidLimits(limits: Limits, link: Link)
    requires LinkInv(limits, link)
    ensures limits.Valid()
  {
    hide Suffix, Covered, Attached, Detached;
  }

  lemma NoSteps(limits: Limits, link: Link)
    ensures Busy(limits, link, []) && Goes(limits, link, []) == link
  {
  }

  lemma FirstStep(limits: Limits, link: Link, event: Event, rest: seq<Event>)
    requires Enabled(link, event) && Busy(limits, Step(limits, link, event), rest)
    ensures Busy(limits, link, [event] + rest)
    ensures Goes(limits, link, [event] + rest) == Goes(limits, Step(limits, link, event), rest)
  {
    assert ([event] + rest)[1..] == rest;
    hide Step, Enabled;
  }

  /**
   From every reachable state the lease can go on, without another emission and with a handler that accepts, until it
   is at rest: it has then been given everything emitted since it first attached, or it was ended on the way.
   */
  lemma EverythingArrives(limits: Limits, source: Source, before: seq<Event>, other: Usage)
    returns (events: seq<Event>)
    requires limits.Valid() && Suffix(limits, source)
    requires UniqueCursors(BrokerClient.Run(limits, Start(source), before).source.history)
    ensures
      var link := BrokerClient.Run(limits, Start(source), before);
      && Busy(limits, link, events) && |events| <= Rank(link)
      && var end := Goes(limits, link, events);
         end.end == Open ==>
           end.first.Some? && High(end.handed, end.first.value) == |link.source.history|
  {
    hide *;
    var link := BrokerClient.Run(limits, Start(source), before);
    RunKeeps(limits, source, before);
    events := Finishes(limits, link, other);
    ComesToRest(limits, link, events);
    var end := Goes(limits, link, events);
    if end.end == Open {
      RestIs(end);
      QuietLink(limits, end);
    }
  }

  lemma RestIs(link: Link)
    requires AtRest(link)
    ensures link.up == [] && link.down == [] && link.chain == [] && link.running.None?
  {
  }

  // ---------------------------------------------------------------------------------------------
  // The first attachment, and what ends a lease
  // ---------------------------------------------------------------------------------------------

  /** Until the worker first reads, over any run without a reconnect: the lease asks to start from now on. */
  lemma {:induction false} AsksForNew(limits: Limits, source: Source, events: seq<Event>)
    requires forall i :: 0 <= i < |events| ==> !events[i].WorkerReads? && !events[i].Reconnects?
    ensures
      var link := BrokerClient.Run(limits, Start(source), events);
      && link.up == [AttachUp(false, None)] && link.sub.None? && link.down == [] && link.chain == []
      && link.running.None? && link.handed == [] && link.first.None?
    decreases |events|
  {
    hide Append;
    if events != [] {
      AsksForNew(limits, source, events[..|events| - 1]);
    }
  }

  /** A new lease is given what is emitted after the worker has read its request, and nothing from before. */
  lemma StartsFromNow(limits: Limits, source: Source, events: seq<Event>, other: Usage)
    requires forall i :: 0 <= i < |events| ==> !events[i].WorkerReads? && !events[i].Reconnects?
    ensures
      var link := BrokerClient.Run(limits, Start(source), events);
      var r := Step(limits, link, WorkerReads(other));
      && r.first == Some(|link.source.history|) && r.next == |link.source.history|
      && r.sub.Some? && !r.sub.value.resumeRequired && r.sub.value.pending == []
  {
    AsksForNew(limits, source, events);
    hide BrokerClient.Run;
  }

  /** What ends a lease: a rejected item of the current connection, a refusal, a demand to resume, or a failure. */
  lemma EndsAre(limits: Limits, link: Link, event: Event)
    requires link.end == Open
    ensures
      var next := Step(limits, link, event);
      && (next.end == Failed
          <==> (event.Rejects? && link.running.Some? && !link.running.value.acking
                && link.running.value.generation == link.generation)
               || event.Fails?
               || (event.TabReads? && link.down != [] && link.down[0] == ReplyDown(false) && link.running.Some?
                   && link.running.value.acking))
      && (next.end == ResumeRequired <==> event.TabReads? && link.down != [] && link.down[0] == ResumeDown)
  {
    hide Fill, Retained, Acknowledge, Posted, Append, Offer, AckTab;
    if event.WorkerReads? {
      WorkerReadRecord(limits, link, event.other);
      hide WorkerRead;
    } else if event.Emits? && link.sub.Some? {
      OfferRecord(limits, link.(source := Append(limits, link.source, event.entry)), event.other, event.entry);
    }
  }

  /** A lease that has ended hands over nothing more, completes nothing, and asks for nothing on a new connection. */
  lemma EndedStays(limits: Limits, link: Link, event: Event)
    requires link.end != Open
    ensures
      var next := Step(limits, link, event);
      && next.end == link.end && next.handed == link.handed && next.lastCursor == link.lastCursor
      && (event.Reconnects? ==> next.up == [])
  {
    hide Fill, Retained, Acknowledge, Posted, Append, Offer, AckTab;
    if event.WorkerReads? {
      EndedWorker(limits, link, event.other);
      hide WorkerRead;
    } else if event.Emits? && link.sub.Some? {
      OfferRecord(limits, link.(source := Append(limits, link.source, event.entry)), event.other, event.entry);
    }
  }

  lemma EndedWorker(limits: Limits, link: Link, other: Usage)
    ensures
      var r := WorkerRead(limits, link, other);
      r.end == link.end && r.handed == link.handed && r.lastCursor == link.lastCursor
  {
    hide Acknowledge, Posted, Enqueue, Retained, Fill;
    if link.up != [] && link.up[0].AttachUp? && link.sub.None? {
      var rest, cursor := link.(up := link.up[1..]), link.up[0].cursor;
      TabByCase(limits, rest, other, link.up[0].reattach, cursor);
      if link.up[0].reattach && Retained(link.source, cursor).Some? {
        var entries, emitted := Retained(link.source, cursor).value, |link.source.history|;
        var start := if |entries| <= emitted then emitted - |entries| else 0;
        FillRecord(limits, Joined(rest, start, cursor), other, entries);
      }
    }
  }

  /** An item of an older connection that is accepted or rejected late changes nothing but the head of the chain. */
  lemma StaleItemDropped(limits: Limits, link: Link)
    requires link.running.Some? && !link.running.value.acking && link.running.value.generation != link.generation
    ensures Step(limits, link, Accepts) == link.(running := None)
    ensures Step(limits, link, Rejects) == link.(running := None)
  {
  }
}
