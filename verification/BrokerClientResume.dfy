/**
 What a completed batch buys a lease: everything up to it is never handed over again, and a new connection resumes
 exactly behind it, unless the worker has dropped that position or the tab has no room for what followed.
 */
module BrokerClientResume {
  import opened Prelude
  import opened Broker
  import opened BrokerInvariants
  import opened BrokerPromises
  import opened BrokerClient
  import opened BrokerClientSafety
  import opened BrokerClientRuns

  /** The handler accepts the last item of a batch of the current connection. */
  predicate AcceptsLast(link: Link, event: Event) {
    && event.Accepts? && link.end == Open && link.running.Some? && !link.running.value.acking
    && link.running.value.generation == link.generation
    && link.running.value.handed == |link.running.value.batch.entries|
  }

  /** One past the position of the last item of the last completed batch. */
  function Completed(limits: Limits, source: Source, events: seq<Event>): nat {
    if events == [] then 0
    else
      var front, last := events[..|events| - 1], events[|events| - 1];
      var link := BrokerClient.Run(limits, Start(source), front);
      if AcceptsLast(link, last) then link.next else Completed(limits, source, front)
  }

  ghost predicate AllCursors(history: seq<Entry>) {
    forall i :: 0 <= i < |history| ==> history[i].cursor.Some?
  }

  /** The cursor of the emission just before a position. */
  function CursorBefore(history: seq<Entry>, n: nat): Option<Cursor>
    requires n <= |history|
  {
    if n == 0 then None else history[n - 1].cursor
  }

  /** The lease remembers the end of its last completed batch, and has nothing earlier to hand over. */
  ghost predicate Placed(link: Link, n: nat) {
    && n <= |link.source.history| && link.lastCursor == CursorBefore(link.source.history, n)
    && (link.end == Open ==> n <= link.next)
    && (link.first.None? ==> n == 0)
  }

  /** At most one item more was handed over, and it stands at or behind the position. */
  ghost predicate HandsBehind(before: Link, after: Link, n: nat) {
    || after.handed == before.handed
    || (|after.handed| == |before.handed| + 1 && before.handed <= after.handed
        && n <= after.handed[|before.handed|].position)
  }

  lemma PlacedMore(a: Link, b: Link, n: nat)
    requires Placed(a, n) && a.source.history <= b.source.history
    requires b.lastCursor == a.lastCursor && b.first == a.first && b.next == a.next && b.handed == a.handed
    requires b.end == Open ==> a.end == Open
    ensures Placed(b, n) && HandsBehind(a, b, n)
  {
  }

  lemma EmitPlaced(limits: Limits, link: Link, entry: Entry, other: Usage, n: nat)
    requires Placed(link, n)
    ensures Placed(EmitOn(limits, link, entry, other), n) && HandsBehind(link, EmitOn(limits, link, entry, other), n)
  {
    var emitted := link.(source := Append(limits, link.source, entry));
    hide Placed, HandsBehind, Append, Offer;
    AppendGrows(limits, link.source, entry);
    if link.sub.Some? {
      OfferRecord(limits, emitted, other, entry);
    }
    PlacedMore(link, EmitOn(limits, link, entry, other), n);
  }

  lemma HandPlaced(link: Link, r: Link, entry: Entry, n: nat)
    requires Placed(link, n) && link.end == Open && SameRecord(link, r) && r.end == Open
    ensures Placed(Hand(r, entry), n) && HandsBehind(link, Hand(r, entry), n)
  {
    assert (link.handed + [Handed(r.next, entry)])[|link.handed|] == Handed(r.next, entry);
  }

  /** The cursor that a completed batch leaves is that of the position reached. */
  lemma CompletePlaced(limits: Limits, link: Link, n: nat)
    requires LinkInv(limits, link) && Placed(link, n) && AcceptsLast(link, Accepts)
    ensures Placed(ItemAccepted(link), link.next) && HandsBehind(link, ItemAccepted(link), n)
  {
    hide *;
    AcceptsWhole(link);
    LiveAccepting(limits, link);
    AttachedShape(limits, link.source.history, link);
    LastTruth(limits, link);
    PlacedAt(link);
    HandedSame(link, n);
  }

  lemma AcceptsWhole(link: Link)
    requires AcceptsLast(link, Accepts)
    ensures link.end == Open && link.running.Some? && Accepting(link.running, link.generation)
    ensures link.running.value.handed == |link.running.value.batch.entries|
    ensures ItemAccepted(link) == Complete(link, link.running.value.batch)
  {
    hide Complete;
  }

  lemma HandedSame(link: Link, n: nat)
    requires link.running.Some?
    ensures HandsBehind(link, Complete(link, link.running.value.batch), n)
  {
  }

  lemma LastTruth(limits: Limits, link: Link)
    requires LinkInv(limits, link) && link.handed != []
    ensures
      var last := link.handed[|link.handed| - 1];
      last.position < |link.source.history| && last.entry == link.source.history[last.position]
  {
    hide Attached, Detached, Suffix, GapFree, Resumable, High;
  }

  lemma PlacedAt(link: Link)
    requires link.running.Some? && link.running.value.batch.entries != [] && 0 < link.next <= |link.source.history|
    requires link.first.Some?
    requires
      var entries := link.running.value.batch.entries;
      entries[|entries| - 1] == link.source.history[link.next - 1]
    ensures Placed(Complete(link, link.running.value.batch), link.next)
  {
  }

  lemma AcceptPlaced(limits: Limits, link: Link, n: nat)
    requires LinkInv(limits, link) && Placed(link, n) && !AcceptsLast(link, Accepts)
    ensures Placed(ItemAccepted(link), n) && HandsBehind(link, ItemAccepted(link), n)
  {
    hide LinkInv, Placed, HandsBehind, Attached, Hand, Complete, CursorBefore;
    PlacedMore(link, link, n);
    if link.running.Some? && !link.running.value.acking {
      var running := link.running.value;
      if !Live(link, running.generation) {
        PlacedMore(link, link.(running := None), n);
      } else {
        LiveAccepting(limits, link);
        var r := link.(running := Some(running.(handed := running.handed + 1)));
        HandPlaced(link, r, running.batch.entries[running.handed], n);
      }
    }
  }

  lemma StartPlaced(limits: Limits, link: Link, n: nat)
    requires LinkInv(limits, link) && Placed(link, n)
    ensures Placed(StartNext(link), n) && HandsBehind(link, StartNext(link), n)
  {
    hide LinkInv, Placed, HandsBehind;
    PlacedMore(link, link, n);
    if link.running.None? && link.chain != [] {
      var head, rest := link.chain[0], link.(chain := link.chain[1..]);
      PlacedMore(link, rest, n);
      if Live(link, head.generation) {
        NoEmptyBatch(limits, link);
        var r := rest.(running := Some(Running(head.batch, head.generation, 1, false)));
        HandPlaced(link, r, head.batch.entries[0], n);
      }
    }
  }

  lemma NoEmptyBatch(limits: Limits, link: Link)
    requires LinkInv(limits, link) && link.end == Open && link.chain != []
    ensures link.chain[0].batch.entries != []
  {
    LinkWellFormed(limits, link);
    hide LinkInv;
  }

  // ---------------------------------------------------------------------------------------------
  // Reattaching
  // ---------------------------------------------------------------------------------------------

  /** The position that would be resumed behind is no longer in the log. */
  predicate Trimmed(source: Source, n: nat) {
    if n == 0 then |source.log| < |source.history| else n - 1 + |source.log| < |source.history|
  }

  /** Asked for what follows a position, the worker retains exactly that, or has trimmed the position away. */
  lemma RetainedBehind(limits: Limits, source: Source, n: nat)
    requires Suffix(limits, source) && UniqueCursors(source.history) && AllCursors(source.history)
    requires n <= |source.history|
    ensures Retained(source, CursorBefore(source.history, n))
         == (if Trimmed(source, n) then None else Some(source.history[n..]))
  {
    hide *;
    if n == 0 {
      TruncatedIff(limits, source);
      StartsWhole(source, n);
    } else {
      CursorHere(source.history, n - 1);
      RetainedSince(limits, source, n - 1);
      CursorAtEnd(source, n);
    }
  }

  lemma CursorHere(history: seq<Entry>, i: nat)
    requires AllCursors(history) && i < |history|
    ensures history[i].cursor.Some?
  {
  }

  lemma StartsWhole(source: Source, n: nat)
    requires n == 0
    requires source.truncated == (|source.log| < |source.history|)
    requires !source.truncated ==> source.log == source.history
    ensures Retained(source, CursorBefore(source.history, n))
         == (if Trimmed(source, n) then None else Some(source.history[n..]))
  {
    assert source.history[0..] == source.history;
  }

  lemma CursorAtEnd(source: Source, n: nat)
    requires 0 < n <= |source.history|
    ensures CursorBefore(source.history, n) == source.history[n - 1].cursor
    ensures Trimmed(source, n) == (n - 1 < |source.history| - |source.log|)
  {
  }

  lemma TruncatedIff(limits: Limits, source: Source)
    requires Suffix(limits, source)
    ensures source.truncated == (|source.log| < |source.history|)
    ensures !source.truncated ==> source.log == source.history
  {
    hide Bytes;
  }

  lemma Attaching(limits: Limits, link: Link)
    requires LinkInv(limits, link) && link.end == Open && link.sub.None?
    ensures link.up == [AttachUp(true, link.lastCursor)]
         || (link.up == [AttachUp(false, link.lastCursor)] && link.first.None?)
    ensures limits.Valid() && Suffix(limits, link.source) && Detached(link)
  {
    hide Attached, Covered, Suffix, WellFormed;
  }

  lemma WorkerReadPlaced(limits: Limits, link: Link, other: Usage, n: nat)
    requires LinkInv(limits, link) && UniqueCursors(link.source.history) && AllCursors(link.source.history)
    requires Placed(link, n)
    ensures Placed(WorkerRead(limits, link, other), n) && HandsBehind(link, WorkerRead(limits, link, other), n)
  {
    hide *;
    ReadRecord(limits, link, other);
    if link.end == Open && link.sub.None? && link.up != [] {
      ReadAttaches(limits, link, other, n);
    }
    StaysPlaced(limits, link, WorkerRead(limits, link, other), n);
  }

  lemma StaysPlaced(limits: Limits, link: Link, r: Link, n: nat)
    requires Placed(link, n) && LinkInv(limits, link)
    requires r.source == link.source && r.end == link.end && r.handed == link.handed && r.lastCursor == link.lastCursor
    requires link.first.Some? ==> r.first == link.first
    requires link.sub.Some? || link.up == [] || link.up[0].AckUp? ==> r.first == link.first && r.next == link.next
    requires link.end == Open && link.sub.None? && link.up != [] ==> n <= r.next && (r.first.None? ==> n == 0)
    ensures Placed(r, n) && HandsBehind(link, r, n)
  {
    hide LinkInv;
  }

  /** A reading worker leaves what was handed over and completed, and moves the lease only when it attaches it. */
  lemma ReadRecord(limits: Limits, link: Link, other: Usage)
    ensures
      var r := WorkerRead(limits, link, other);
      && r.source == link.source && r.end == link.end && r.handed == link.handed && r.lastCursor == link.lastCursor
      && (link.first.Some? ==> r.first == link.first)
      && (link.sub.Some? || link.up == [] || link.up[0].AckUp? ==> r.first == link.first && r.next == link.next)
  {
    hide Acknowledge, Posted, Enqueue, Retained, Fill;
    if link.up != [] && link.up[0].AttachUp? && link.sub.None? {
      var rest, cursor := link.(up := link.up[1..]), link.up[0].cursor;
      TabByCase(limits, rest, other, link.up[0].reattach, cursor);
      if link.up[0].reattach && Retained(link.source, cursor).Some? {
        var entries, emitted := Retained(link.source, cursor).value, |link.source.history|;
        var start := if |entries| <= emitted then emitted - |entries| else 0;
        FillRecord(limits, Joined(rest, start, cursor), other, entries);
      }
    }
  }

  /** How a reattachment is answered: trimmed, or filled with all that followed. */
  lemma ReadAttaches(limits: Limits, link: Link, other: Usage, n: nat)
    requires LinkInv(limits, link) && UniqueCursors(link.source.history) && AllCursors(link.source.history)
    requires Placed(link, n) && link.end == Open && link.sub.None? && link.up != []
    ensures
      var r, rest, since := WorkerRead(limits, link, other), link.(up := []), link.source.history[n..];
      && (r.first.None? ==> n == 0) && n <= r.next
      && (link.up[0] == AttachUp(false, link.lastCursor) ==> n == 0)
      && (link.up[0].AttachUp? && link.up[0].reattach ==>
            && link.up == [AttachUp(true, CursorBefore(link.source.history, n))]
            && if Trimmed(link.source, n) then r == Lagged(rest, link.lastCursor)
               else r == Fill(limits, Joined(rest, n, link.lastCursor), other, since) && r.next == n)
  {
    hide *;
    var rest := link.(up := []);
    Attaching(limits, link);
    ReadsAttach(limits, link, other);
    PlacedParts(link, n);
    RetainedBehind(limits, link.source, n);
    UnfilledTab(limits, rest, other, link.up[0].reattach);
    JoinedNext(rest, |link.source.history|, link.lastCursor);
    if link.up[0].reattach {
      if Trimmed(link.source, n) {
        LaggedNext(rest, link.lastCursor, n);
      } else {
        FilledTab(limits, rest, other);
        JoinedNext(rest, n, link.lastCursor);
        FillRecord(limits, Joined(rest, n, link.lastCursor), other, link.source.history[n..]);
        RecordNext(Joined(rest, n, link.lastCursor), WorkerRead(limits, link, other));
      }
    }
  }

  lemma PlacedParts(link: Link, n: nat)
    requires Placed(link, n)
    ensures n <= |link.source.history| && link.lastCursor == CursorBefore(link.source.history, n)
    ensures (link.end == Open ==> n <= link.next) && (link.first.None? ==> n == 0)
  {
  }

  lemma JoinedNext(link: Link, start: nat, cursor: Option<Cursor>)
    ensures Joined(link, start, cursor).next == start && Joined(link, start, cursor).first.Some?
  {
  }

  lemma LaggedNext(link: Link, cursor: Option<Cursor>, n: nat)
    requires n <= |link.source.history| && n <= link.next
    ensures n <= Lagged(link, cursor).next && Lagged(link, cursor).first.Some?
  {
  }

  lemma RecordNext(a: Link, b: Link)
    requires SameRecord(a, b)
    ensures b.next == a.next && b.first == a.first
  {
  }

  // ---------------------------------------------------------------------------------------------
  // Every run
  // ---------------------------------------------------------------------------------------------

  lemma StepPlaced(limits: Limits, link: Link, event: Event, n: nat)
    requires LinkInv(limits, link) && UniqueCursors(link.source.history) && AllCursors(link.source.history)
    requires Placed(link, n)
    ensures Placed(Step(limits, link, event), if AcceptsLast(link, event) then link.next else n)
    ensures HandsBehind(link, Step(limits, link, event), n)
    ensures AcceptsLast(link, event) ==> n <= link.next
  {
    hide LinkInv, UniqueCursors, AllCursors, EmitOn, WorkerRead, ItemAccepted, StartNext, HandsBehind;
    match event {
      case Emits(entry, other) => EmitPlaced(limits, link, entry, other, n);
      case WorkerReads(other) => WorkerReadPlaced(limits, link, other, n);
      case Starts => StartPlaced(limits, link, n);
      case Accepts =>
        if AcceptsLast(link, event) {
          CompletePlaced(limits, link, n);
        } else {
          AcceptPlaced(limits, link, n);
        }
      case TabReads => PlacedMore(link, TabRead(link), n);
      case Rejects => PlacedMore(link, ItemRejected(link), n);
      case Reconnects => PlacedMore(link, Reconnect(link), n);
      case Fails => PlacedMore(link, Ended(link, Failed), n);
    }
  }

  lemma CursorsPrefix(before: seq<Entry>, after: seq<Entry>)
    requires before <= after && AllCursors(after)
    ensures AllCursors(before)
  {
    forall i | 0 <= i < |before|
      ensures before[i].cursor.Some?
    {
      assert before[i] == after[i];
    }
  }

  lemma StartPlace(source: Source)
    ensures Placed(Start(source), 0)
  {
  }

  /** Every emission of the run carries a cursor of its own. */
  ghost predicate Marked(limits: Limits, source: Source, events: seq<Event>) {
    var history := BrokerClient.Run(limits, Start(source), events).source.history;
    UniqueCursors(history) && AllCursors(history)
  }

  lemma MarkedBefore(limits: Limits, source: Source, events: seq<Event>)
    requires events != [] && Marked(limits, source, events)
    ensures Marked(limits, source, events[..|events| - 1])
  {
    var before := BrokerClient.Run(limits, Start(source), events[..|events| - 1]);
    var last := events[|events| - 1];
    hide Step;
    assert BrokerClient.Run(limits, Start(source), events) == Step(limits, before, last);
    hide UniqueCursors, AllCursors, BrokerClient.Run;
    StepGrows(limits, before, last);
    UniquePrefix(before.source.history, Step(limits, before, last).source.history);
    CursorsPrefix(before.source.history, Step(limits, before, last).source.history);
  }

  lemma {:induction false} RunPlaced(limits: Limits, source: Source, events: seq<Event>)
    requires limits.Valid() && Suffix(limits, source) && Marked(limits, source, events)
    ensures Placed(BrokerClient.Run(limits, Start(source), events), Completed(limits, source, events))
    ensures LinkInv(limits, BrokerClient.Run(limits, Start(source), events))
    decreases |events|
  {
    assert UniqueCursors(BrokerClient.Run(limits, Start(source), events).source.history);
    RunKeeps(limits, source, events);
    hide LinkInv, Suffix, Step, Placed, Marked, AcceptsLast;
    if events == [] {
      StartPlace(source);
    } else {
      var front, last := events[..|events| - 1], events[|events| - 1];
      MarkedBefore(limits, source, events);
      RunPlaced(limits, source, front);
      MarkedHistory(limits, source, front);
      StepPlaced(limits, BrokerClient.Run(limits, Start(source), front), last, Completed(limits, source, front));
    }
  }

  lemma MarkedHistory(limits: Limits, source: Source, events: seq<Event>)
    requires Marked(limits, source, events)
    ensures UniqueCursors(BrokerClient.Run(limits, Start(source), events).source.history)
    ensures AllCursors(BrokerClient.Run(limits, Start(source), events).source.history)
  {
    hide UniqueCursors, AllCursors;
  }

  /** What was handed over later, beyond the first `count` items, stands at or behind the position. */
  ghost predicate LaterBehind(handed: seq<Handed>, count: nat, n: nat) {
    count <= |handed| && forall k :: count <= k < |handed| ==> n <= handed[k].position
  }

  lemma LaterSnoc(before: Link, after: Link, count: nat, n: nat, m: nat)
    requires LaterBehind(before.handed, count, n) && HandsBehind(before, after, m) && n <= m
    ensures LaterBehind(after.handed, count, n)
  {
  }

  /**
   Over every run, with reconnects at any point: once a batch has been accepted to its end, no item up to its end is
   ever handed over again.
   */
  lemma {:induction false} CompletedForGood(limits: Limits, source: Source, before: seq<Event>, later: seq<Event>)
    requires limits.Valid() && Suffix(limits, source) && Marked(limits, source, before + later)
    ensures
      var link, after := BrokerClient.Run(limits, Start(source), before),
                         BrokerClient.Run(limits, Start(source), before + later);
      && Completed(limits, source, before) <= Completed(limits, source, before + later)
      && LaterBehind(after.handed, |link.handed|, Completed(limits, source, before))
    decreases |later|
  {
    hide LinkInv, Suffix, Step, Placed, Marked, AcceptsLast, HandsBehind;
    var all := before + later;
    if later == [] {
      assert all == before;
    } else {
      var front, last := later[..|later| - 1], later[|later| - 1];
      assert all[..|all| - 1] == before + front && all[|all| - 1] == last;
      MarkedBefore(limits, source, all);
      CompletedForGood(limits, source, before, front);
      RunPlaced(limits, source, before + front);
      MarkedHistory(limits, source, before + front);
      var link, n := BrokerClient.Run(limits, Start(source), before + front), Completed(limits, source, before + front);
      StepPlaced(limits, link, last, n);
      LaterSnoc(link, Step(limits, link, last), |BrokerClient.Run(limits, Start(source), before).handed|,
                Completed(limits, source, before), n);
    }
  }

  // ---------------------------------------------------------------------------------------------
  // A new connection
  // ---------------------------------------------------------------------------------------------

  /** Offering entries one after the other keeps the subscription live exactly when the tab has room for all. */
  lemma {:induction false} FillIff(limits: Limits, history: seq<Entry>, link: Link, other: Usage, entries: seq<Entry>)
    requires limits.Valid() && link.sub.Some? && SubscriptionInv(limits, history, link.sub.value)
    requires !link.sub.value.resumeRequired && Outstanding(link.sub.value) == Usage(0, 0)
    ensures
      var r := Fill(limits, link, other, entries);
      && r.sub.Some? && SubscriptionInv(limits, history + entries, r.sub.value)
      && r.sub.value.start == link.sub.value.start
      && r.sub.value.resumeRequired == (entries != [] && !Room(limits, other, entries))
      && (!r.sub.value.resumeRequired ==> Outstanding(r.sub.value) == Usage(|entries|, Bytes(entries)))
    decreases |entries|
  {
    hide SubscriptionInv, Outstanding, Bytes, Room, Offer, Fill;
    FillSteps(limits, link, other, entries);
    if entries == [] {
      assert history + entries == history;
      NothingWeighs();
    } else {
      var front, last := entries[..|entries| - 1], entries[|entries| - 1];
      FillIff(limits, history, link, other, front);
      var filled := Fill(limits, link, other, front);
      assert history + entries == (history + front) + [last] && entries == front + [last];
      OfferOne(limits, history + front, filled, other, last);
      RoomSnoc(limits, other, front, last);
      BytesSnoc(front, last);
      NothingWeighs();
      FitsAlone(limits, other, last);
    }
  }

  lemma NothingWeighs()
    ensures Bytes([]) == 0
  {
  }

  lemma FitsAlone(limits: Limits, other: Usage, entry: Entry)
    ensures Fits(limits, Usage(other.items + 0, other.bytes + 0), entry) ==> Room(limits, other, [])
  {
  }

  lemma OfferOne(limits: Limits, history: seq<Entry>, link: Link, other: Usage, entry: Entry)
    requires limits.Valid() && link.sub.Some? && SubscriptionInv(limits, history, link.sub.value)
    ensures
      var sub, r := link.sub.value, Offer(limits, link, other, entry);
      var usage := Plus(other, Outstanding(sub));
      && r.sub.Some? && SubscriptionInv(limits, history + [entry], r.sub.value)
      && r.sub.value.start == sub.start
      && r.sub.value.resumeRequired == (sub.resumeRequired || !Fits(limits, usage, entry))
      && (!r.sub.value.resumeRequired ==>
            Outstanding(r.sub.value) == Usage(Outstanding(sub).items + 1, Outstanding(sub).bytes + |entry.data|))
  {
    var usage := Plus(other, Outstanding(link.sub.value));
    hide SubscriptionInv, Enqueue, Posted;
    EnqueueInv(limits, history, link.sub.value, usage, entry);
    EnqueueIdentity(limits, link.sub.value, usage, entry);
    OfferLive(limits, link.sub.value, usage, entry);
    EnqueueOutstanding(limits, history, link.sub.value, usage, entry);
    hide Outstanding;
  }

  lemma FreshSub(limits: Limits, before: seq<Entry>, cursor: Option<Cursor>)
    requires limits.Valid()
    ensures
      var sub := NewSubscription(0, 0, 0, cursor, |before|);
      SubscriptionInv(limits, before, sub) && !sub.resumeRequired && Outstanding(sub) == Usage(0, 0)
  {
    NewSubscriptionInv(limits, before, NewSubscription(0, 0, 0, cursor, |before|));
    hide SubscriptionInv;
  }

  /**
   Over every run: a new connection asks for what follows the last completed batch. It is then owed exactly that, and
   goes on there; it is told to resume only if the position was trimmed from the log, or the tab has no room for all
   that followed.
   */
  lemma ResumesBehindCompleted(limits: Limits, source: Source, events: seq<Event>, other: Usage)
    requires limits.Valid() && Suffix(limits, source) && Marked(limits, source, events)
    requires
      var link := BrokerClient.Run(limits, Start(source), events);
      && link.end == Open && link.sub.None? && link.up != []
      && link.up[0].AttachUp? && link.up[0].reattach
    ensures
      var link, n := BrokerClient.Run(limits, Start(source), events), Completed(limits, source, events);
      var r := Step(limits, link, WorkerReads(other));
      && n <= |link.source.history| && r.sub.Some?
      && var since, sub := link.source.history[n..], r.sub.value;
         && sub.resumeRequired == (Trimmed(link.source, n) || (since != [] && !Room(limits, other, since)))
         && (!sub.resumeRequired ==> r.next == sub.start == n && Due(sub) == since)
  {
    hide *;
    var link, n := BrokerClient.Run(limits, Start(source), events), Completed(limits, source, events);
    RunPlaced(limits, source, events);
    MarkedHistory(limits, source, events);
    PlacedWithin(link, n);
    ReadAttaches(limits, link, other, n);
    ReadStep(limits, link, other);
    var rest, history := link.(up := []), link.source.history;
    if Trimmed(link.source, n) {
      LaggedResumes(rest, link.lastCursor);
    } else {
      assert history[..n] + history[n..] == history;
      FreshSub(limits, history[..n], link.lastCursor);
      JoinedSub(rest, n, link.lastCursor);
      FillIff(limits, history[..n], Joined(rest, n, link.lastCursor), other, history[n..]);
      OwedRest(limits, history, WorkerRead(limits, link, other).sub.value, n);
    }
  }

  lemma PlacedWithin(link: Link, n: nat)
    requires Placed(link, n)
    ensures n <= |link.source.history|
  {
  }

  lemma ReadStep(limits: Limits, link: Link, other: Usage)
    ensures Step(limits, link, WorkerReads(other)) == WorkerRead(limits, link, other)
  {
    hide WorkerRead;
  }

  lemma LaggedResumes(link: Link, cursor: Option<Cursor>)
    ensures Lagged(link, cursor).sub.Some? && Lagged(link, cursor).sub.value.resumeRequired
  {
  }

  lemma JoinedSub(link: Link, start: nat, cursor: Option<Cursor>)
    ensures
      var r := Joined(link, start, cursor);
      && r.sub == Some(NewSubscription(0, 0, 0, cursor, start)) && r.sub.value.start == start
      && !r.sub.value.resumeRequired
  {
  }

  lemma OwedRest(limits: Limits, history: seq<Entry>, sub: Subscription, n: nat)
    requires SubscriptionInv(limits, history, sub) && sub.start == n <= |history|
    ensures !sub.resumeRequired ==> Due(sub) == history[n..]
  {
    hide Due, Flatten, Bytes;
  }
}
