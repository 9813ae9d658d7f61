/**
 A tab's lease on a brokered source: batches of one connection generation are accepted item by item, acknowledged
 once complete, and a new generation reattaches after the last completed batch. The worker end is `Broker`.
 */
module BrokerClient {
  import opened Prelude
  import opened Broker

  /** A batch waiting in the accept chain, and the connection generation it arrived in. */
  datatype Received = Received(batch: Batch, generation: nat)

  /** The batch at the head of the accept chain: `handed` items went to the handler; `acking` waits for the reply. */
  datatype Running = Running(batch: Batch, generation: nat, handed: nat, acking: bool)

  datatype Up = AttachUp(reattach: bool, cursor: Option<Cursor>) | AckUp(id: nat, cursor: Option<Cursor>)

  datatype Down = BatchDown(batch: Batch) | ResumeDown | ReplyDown(ok: bool)

  datatype End = Open | ResumeRequired | Failed

  /** What the handler was given, and where in the source's history it stood. */
  datatype Handed = Handed(position: nat, entry: Entry)

  /**
   One lease and its worker end. `next` is the position due next in this generation and `first` the position of
   the first attachment; `handed` records all that the handler was given.
   */
  datatype Link = Link(
    source: Source,
    sub: Option<Subscription>,
    up: seq<Up>,
    down: seq<Down>,
    generation: nat,
    lastCursor: Option<Cursor>,
    chain: seq<Received>,
    running: Option<Running>,
    end: End,
    next: nat,
    first: Option<nat>,
    handed: seq<Handed>)

  datatype Event =
      /** The source emits; `other` is what the tab's other subscriptions have outstanding. */
    | Emits(entry: Entry, other: Usage)
    | WorkerReads(other: Usage)
    | TabReads
    | Starts
    | Accepts
    | Rejects
    | Reconnects
    | Fails

  function Start(source: Source): Link {
    Link(source, None, [AttachUp(false, None)], [], 1, None, [], None, Open, 0, None, [])
  }

  // ---------------------------------------------------------------------------------------------
  // The worker end
  // ---------------------------------------------------------------------------------------------

  function Plus(a: Usage, b: Usage): Usage {
    Usage(a.items + b.items, a.bytes + b.bytes)
  }

  /** What a change of the subscription posts to the tab. */
  function Posted(before: Subscription, after: Subscription): seq<Down> {
    if |before.sent| < |after.sent| && after.inflight.Some? then [BatchDown(after.inflight.value)]
    else if !before.resumeRequired && after.resumeRequired then [ResumeDown]
    else []
  }

  function Offer(limits: Limits, link: Link, other: Usage, entry: Entry): Link
    requires link.sub.Some?
  {
    var before := link.sub.value;
    var after := Enqueue(limits, before, Plus(other, Outstanding(before)), entry);
    link.(sub := Some(after), down := link.down + Posted(before, after))
  }

  function Fill(limits: Limits, link: Link, other: Usage, entries: seq<Entry>): (r: Link)
    requires link.sub.Some?
    ensures r.sub.Some?
  {
    if entries == [] then link
    else Offer(limits, Fill(limits, link, other, entries[..|entries| - 1]), other, entries[|entries| - 1])
  }

  function Joined(link: Link, start: nat, cursor: Option<Cursor>): (r: Link)
    ensures r.sub.Some?
  {
    link.(sub := Some(NewSubscription(0, 0, 0, cursor, start)),
          next := start,
          first := if link.first.None? then Some(start) else link.first)
  }

  /** The position asked for is no longer retained. */
  function Lagged(link: Link, cursor: Option<Cursor>): Link {
    var emitted := |link.source.history|;
    link.(sub := Some(RequireResume(NewSubscription(0, 0, 0, cursor, emitted))),
          down := link.down + [ResumeDown],
          next := if link.first.None? then emitted else link.next,
          first := if link.first.None? then Some(emitted) else link.first)
  }

  function AttachTab(limits: Limits, link: Link, other: Usage, reattach: bool, cursor: Option<Cursor>): Link {
    var emitted := |link.source.history|;
    if !reattach then Joined(link, emitted, cursor)
    else
      match Retained(link.source, cursor)
      case None => Lagged(link, cursor)
      case Some(entries) =>
        Fill(limits, Joined(link, if |entries| <= emitted then emitted - |entries| else 0, cursor), other, entries)
  }

  function AckTab(limits: Limits, link: Link, id: nat, cursor: Option<Cursor>): Link {
    if link.sub.None? || link.sub.value.inflight.None? || link.sub.value.inflight.value.id != id
       || link.sub.value.inflight.value.cursor != cursor
    then link.(down := link.down + [ReplyDown(false)])
    else
      var before := link.sub.value;
      var after := Acknowledge(limits, before, cursor);
      link.(sub := Some(after), down := link.down + Posted(before, after) + [ReplyDown(true)])
  }

  function WorkerRead(limits: Limits, link: Link, other: Usage): Link {
    if link.up == [] then link
    else
      var rest := link.(up := link.up[1..]);
      match link.up[0]
      case AttachUp(reattach, cursor) =>
        if link.sub.Some? then rest else AttachTab(limits, rest, other, reattach, cursor)
      case AckUp(id, cursor) => AckTab(limits, rest, id, cursor)
  }

  function EmitOn(limits: Limits, link: Link, entry: Entry, other: Usage): Link {
    var emitted := link.(source := Append(limits, link.source, entry));
    if link.sub.None? then emitted else Offer(limits, emitted, other, entry)
  }

  // ---------------------------------------------------------------------------------------------
  // The tab end
  // ---------------------------------------------------------------------------------------------

  function LastCursor(entries: seq<Entry>): Option<Cursor> {
    if entries == [] then None else entries[|entries| - 1].cursor
  }

  function Ended(link: Link, end: End): Link {
    if link.end == Open then link.(end := end) else link
  }

  /** Gives the handler the item that is due. */
  function Hand(link: Link, entry: Entry): Link {
    link.(handed := link.handed + [Handed(link.next, entry)], next := link.next + 1)
  }

  function Live(link: Link, generation: nat): bool {
    link.end == Open && generation == link.generation
  }

  /** A batch whose last item was accepted becomes the lease's position and is acknowledged. */
  function Complete(link: Link, batch: Batch): Link {
    link.(lastCursor := LastCursor(batch.entries),
          up := link.up + [AckUp(batch.id, LastCursor(batch.entries))],
          running := Some(Running(batch, link.generation, |batch.entries|, true)))
  }

  function StartNext(link: Link): Link {
    if link.running.Some? || link.chain == [] then link
    else
      var head, rest := link.chain[0], link.(chain := link.chain[1..]);
      if !Live(link, head.generation) then rest
      else if head.batch.entries == [] then Complete(rest, head.batch)
      else Hand(rest.(running := Some(Running(head.batch, head.generation, 1, false))), head.batch.entries[0])
  }

  function ItemAccepted(link: Link): Link {
    if link.running.None? || link.running.value.acking then link
    else
      var running := link.running.value;
      if !Live(link, running.generation) then link.(running := None)
      else if running.handed < |running.batch.entries| then
        Hand(link.(running := Some(running.(handed := running.handed + 1))), running.batch.entries[running.handed])
      else Complete(link, running.batch)
  }

  function ItemRejected(link: Link): Link {
    if link.running.None? || link.running.value.acking then link
    else
      var stopped := link.(running := None);
      if link.running.value.generation == link.generation then Ended(stopped, Failed) else stopped
  }

  function TabRead(link: Link): Link {
    if link.down == [] then link
    else
      var rest := link.(down := link.down[1..]);
      match link.down[0]
      case BatchDown(batch) =>
        if link.end == Open then rest.(chain := rest.chain + [Received(batch, link.generation)]) else rest
      case ResumeDown => Ended(rest, ResumeRequired)
      case ReplyDown(ok) =>
        if link.running.None? || !link.running.value.acking then rest
        else if ok then rest.(running := None)
        else Ended(rest.(running := None), Failed)
  }

  /** A new port: what was on the old one is gone, and a live lease reattaches after its last complete batch. */
  function Reconnect(link: Link): Link {
    link.(generation := link.generation + 1,
          sub := None,
          down := [],
          up := if link.end == Open then [AttachUp(true, link.lastCursor)] else [],
          running := if link.running.Some? && link.running.value.acking then None else link.running)
  }

  function Step(limits: Limits, link: Link, event: Event): Link {
    match event
    case Emits(entry, other) => EmitOn(limits, link, entry, other)
    case WorkerReads(other) => WorkerRead(limits, link, other)
    case TabReads => TabRead(link)
    case Starts => StartNext(link)
    case Accepts => ItemAccepted(link)
    case Rejects => ItemRejected(link)
    case Reconnects => Reconnect(link)
    case Fails => Ended(link, Failed)
  }

  function Run(limits: Limits, link: Link, events: seq<Event>): Link {
    if events == [] then link
    else Step(limits, Run(limits, link, events[..|events| - 1]), events[|events| - 1])
  }
}
