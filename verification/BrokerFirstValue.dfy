/** What becomes of the value a session already holds when a tab's attachment opens its source. */
module BrokerFirstValue {
  import opened Prelude
  import opened Broker
  import opened BrokerInvariants
  import opened BrokerPromises

  /** An accepted attachment that has to open its source. */
  predicate Opens(host: Host, attach: Command) {
    attach.Attaches? && Answer(host, attach).Accepted? && attach.source !in host.sources
  }

  /** How many emissions of its source precede the first one due to a tab that opens it. */
  function FirstDue(first: Option<Entry>): nat {
    if first.Some? then 1 else 0
  }

  /** The value that the session already holds becomes the first of the source's emissions; the tab starts behind it. */
  lemma OpeningAttach(limits: Limits, host: Host, attach: Command)
    requires HostInv(limits, host) && Opens(host, attach)
    ensures
      var next := Execute(limits, host, attach);
      var start := FirstDue(attach.first);
      var joined := NewSubscription(attach.client, attach.id, attach.source, attach.resumeAfter, start);
      && attach.source in next.sources
      && next.sources[attach.source].history == (if attach.first.Some? then [attach.first.value] else [])
      && next.subscriptions == host.subscriptions + [joined]
      && Find(next.subscriptions, attach.client, attach.id) == Some(|host.subscriptions|)
  {
    ExecuteInv(limits, host, attach);
    OpenedHistory(limits, attach.contract, attach.first);
    hide HostInv, OpenSource;
  }

  lemma OpenedHistory(limits: Limits, contract: nat, first: Option<Entry>)
    ensures OpenSource(limits, contract, first).history == if first.Some? then [first.value] else []
  {
    if first.Some? {
      AppendSuffix(limits, Source(contract, [], [], 0, false), first.value);
    }
  }

  /** A source with a subscriber stays, and its history only grows. */
  lemma ExecuteKeepsSource(limits: Limits, host: Host, command: Command, key: nat)
    requires key in host.sources && Suffix(limits, host.sources[key]) && HasSubscriber(host.subscriptions, key)
    ensures
      var next := Execute(limits, host, command);
      key in next.sources && host.sources[key].history <= next.sources[key].history
  {
    hide Suffix, Multicast, Append, EnqueueLast, Find, HasSubscriber, Acknowledge, Retained, OpenSource;
    if command.Emits? {
      AppendSuffix(limits, host.sources[key], command.entry);
    }
  }

  lemma KeyedSuffix(limits: Limits, host: Host, key: nat)
    requires HostInv(limits, host) && key in host.sources
    ensures Suffix(limits, host.sources[key])
  {
    hide Suffix, AllServed, Distinct, TabsBounded;
  }

  lemma FoundSubscribes(subs: seq<Subscription>, client: nat, id: nat, key: nat)
    requires Find(subs, client, id).Some? && subs[Find(subs, client, id).value].source == key
    ensures HasSubscriber(subs, key)
  {
  }

  /** Over any run of later commands, until the tab detaches: its start stays, and so does all its source emitted. */
  lemma {:induction false} StartStays(limits: Limits, host: Host, later: seq<Command>, client: nat, id: nat, key: nat)
    requires HostInv(limits, host) && key in host.sources && Detaches(client, id) !in later
    requires
      var k := Find(host.subscriptions, client, id);
      k.Some? && host.subscriptions[k.value].source == key
    ensures
      var after := Broker.Run(limits, host, later);
      var k, j := Find(host.subscriptions, client, id).value, Find(after.subscriptions, client, id);
      && HostInv(limits, after)
      && j.Some? && SameIdentity(host.subscriptions[k], after.subscriptions[j.value])
      && key in after.sources && host.sources[key].history <= after.sources[key].history
    decreases |later|
  {
    hide HostInv, Find, Execute;
    if later != [] {
      var front, last := later[..|later| - 1], later[|later| - 1];
      StartStays(limits, host, front, client, id, key);
      var before := Broker.Run(limits, host, front);
      FoundSubscribes(before.subscriptions, client, id, key);
      ExecuteInv(limits, before, last);
      ExecuteLater(limits, before, last, client, id);
      KeyedSuffix(limits, before, key);
      ExecuteKeepsSource(limits, before, last, key);
    }
  }

  function OpeningRun(limits: Limits, before: seq<Command>, attach: Command, later: seq<Command>): Host {
    Broker.Run(limits, Execute(limits, Broker.Run(limits, NoHost, before), attach), later)
  }

  /** Any run in which a tab opens a source and does not detach. */
  ghost predicate Opening(limits: Limits, before: seq<Command>, attach: Command, later: seq<Command>) {
    Opens(Broker.Run(limits, NoHost, before), attach) && Detaches(attach.client, attach.id) !in later
  }

  /**
   A tab that opens a source is owed, over every run, the emissions from its start on; when the session already held
   a value, that value is the emission before the start.
   */
  lemma OpeningTabExact(limits: Limits, before: seq<Command>, attach: Command, later: seq<Command>)
    requires limits.Valid() && Opening(limits, before, attach, later)
    ensures
      var host := OpeningRun(limits, before, attach, later);
      var k := Find(host.subscriptions, attach.client, attach.id);
      && k.Some? && attach.source in host.sources
      && var sub, history := host.subscriptions[k.value], host.sources[attach.source].history;
         && sub.source == attach.source && sub.start == FirstDue(attach.first) <= |history|
         && (attach.first.Some? ==> history[0] == attach.first.value)
         && Flatten(sub.sent) <= history[sub.start..]
         && (!sub.resumeRequired ==> Flatten(sub.sent) + sub.pending == history[sub.start..])
  {
    hide *;
    var reached := Broker.Run(limits, NoHost, before);
    var begun := Execute(limits, reached, attach);
    RunInv(limits, before);
    OpeningParts(limits, before, attach, later);
    OpeningAttach(limits, reached, attach);
    ExecuteInv(limits, reached, attach);
    JoinedFields(attach.client, attach.id, attach.source, attach.resumeAfter, FirstDue(attach.first));
    StartStays(limits, begun, later, attach.client, attach.id, attach.source);
    var host := Broker.Run(limits, begun, later);
    var k := Find(host.subscriptions, attach.client, attach.id).value;
    SameStart(begun.subscriptions[|reached.subscriptions|], host.subscriptions[k]);
    FoundExact(limits, host, k);
    FirstStays(begun.sources[attach.source].history, host.sources[attach.source].history, attach.first);
  }

  lemma OpeningParts(limits: Limits, before: seq<Command>, attach: Command, later: seq<Command>)
    requires Opening(limits, before, attach, later)
    ensures
      var reached := Broker.Run(limits, NoHost, before);
      && Opens(reached, attach) && attach.Attaches? && Detaches(attach.client, attach.id) !in later
      && OpeningRun(limits, before, attach, later) == Broker.Run(limits, Execute(limits, reached, attach), later)
  {
    hide Broker.Run, Execute, Answer;
  }

  lemma JoinedFields(client: nat, id: nat, source: nat, resumeAfter: Option<Cursor>, start: nat)
    ensures
      var joined := NewSubscription(client, id, source, resumeAfter, start);
      joined.source == source && joined.start == start
  {
  }

  lemma SameStart(a: Subscription, b: Subscription)
    requires SameIdentity(a, b)
    ensures b.source == a.source && b.start == a.start
  {
  }

  lemma FirstStays(history: seq<Entry>, after: seq<Entry>, first: Option<Entry>)
    requires history <= after && history == if first.Some? then [first.value] else []
    ensures first.Some? ==> after != [] && after[0] == first.value
  {
  }

  lemma FoundExact(limits: Limits, host: Host, k: nat)
    requires HostInv(limits, host) && k < |host.subscriptions|
    ensures
      var sub := host.subscriptions[k];
      && sub.source in host.sources && sub.start <= |host.sources[sub.source].history|
      && var due := host.sources[sub.source].history[sub.start..];
         Flatten(sub.sent) <= due && (!sub.resumeRequired ==> Flatten(sub.sent) + sub.pending == due)
  {
    assert Served(limits, host.sources, host.subscriptions[k]);
    hide HostInv;
    SubscriptionExact(limits, host.sources[host.subscriptions[k].source].history, host.subscriptions[k]);
  }

  /** Everything that was sent to the tab that opened the source. */
  function SentTo(host: Host, attach: Command): seq<Entry>
    requires attach.Attaches?
  {
    var k := Find(host.subscriptions, attach.client, attach.id);
    if k.Some? then Flatten(host.subscriptions[k.value].sent) else []
  }

  function Emitted(host: Host, attach: Command): seq<Entry>
    requires attach.Attaches?
  {
    if attach.source in host.sources then host.sources[attach.source].history else []
  }

  /** The source's first emission, which it emits no second time, is among the entries sent to the tab. */
  ghost predicate SentFirst(limits: Limits, before: seq<Command>, attach: Command, later: seq<Command>)
    requires attach.Attaches?
  {
    var host := OpeningRun(limits, before, attach, later);
    var emitted := Emitted(host, attach);
    && emitted != [] && (forall i :: 0 < i < |emitted| ==> emitted[i] != emitted[0])
    && emitted[0] in SentTo(host, attach)
  }

  /** What follows the first emission does not hold it, unless it was emitted again. */
  lemma NotAmongLater(emitted: seq<Entry>, sent: seq<Entry>)
    requires emitted != [] && sent <= emitted[1..]
    requires forall i :: 0 < i < |emitted| ==> emitted[i] != emitted[0]
    ensures emitted[0] !in sent
  {
    forall i | 0 <= i < |sent|
      ensures sent[i] != emitted[0]
    {
      assert sent[i] == emitted[1..][i] == emitted[i + 1];
    }
  }

  lemma FirstMissed(limits: Limits, before: seq<Command>, attach: Command, later: seq<Command>)
    requires limits.Valid() && Opening(limits, before, attach, later) && attach.first.Some?
    ensures !SentFirst(limits, before, attach, later)
  {
    OpeningTabExact(limits, before, attach, later);
    var host := OpeningRun(limits, before, attach, later);
    var emitted := Emitted(host, attach);
    hide Opening, OpeningRun, Find, Flatten;
    if emitted != [] && forall i :: 0 < i < |emitted| ==> emitted[i] != emitted[0] {
      NotAmongLater(emitted, SentTo(host, attach));
    }
  }

  /** A tab that opens its source on a fresh worker is sent the first thing that the source emits. */
  lemma FreshTabSentFirst(limits: Limits)
    requires limits.Valid()
    ensures
      var attach, later := Attaches(0, 0, 0, 0, None, false, None), [Emits(0, Entry([], None))];
      Opening(limits, [], attach, later) && SentFirst(limits, [], attach, later)
  {
    var attach, later := Attaches(0, 0, 0, 0, None, false, None), [Emits(0, Entry([], None))];
    FreshOpens(limits, attach, later);
    OpeningTabExact(limits, [], attach, later);
    FreshSent(limits, attach, later);
    hide Opening, OpeningRun, Find, Flatten;
    var host := OpeningRun(limits, [], attach, later);
    assert Emitted(host, attach) == SentTo(host, attach) + [] == [Entry([], None)];
  }

  lemma FreshOpens(limits: Limits, attach: Command, later: seq<Command>)
    requires attach == Attaches(0, 0, 0, 0, None, false, None) && later == [Emits(0, Entry([], None))]
    ensures Opening(limits, [], attach, later)
    ensures Execute(limits, NoHost, attach)
         == Host(map[0 := Source(0, [], [], 0, false)], [NewSubscription(0, 0, 0, None, 0)])
  {
  }

  lemma FreshSent(limits: Limits, attach: Command, later: seq<Command>)
    requires limits.Valid()
    requires attach == Attaches(0, 0, 0, 0, None, false, None) && later == [Emits(0, Entry([], None))]
    ensures
      var subs := OpeningRun(limits, [], attach, later).subscriptions;
      && Find(subs, 0, 0) == Some(0) && !subs[0].resumeRequired && subs[0].start == 0 && subs[0].pending == []
      && Flatten(subs[0].sent) == [Entry([], None)]
  {
    var begun, sub, entry := Execute(limits, NoHost, attach), NewSubscription(0, 0, 0, None, 0), Entry([], None);
    assert OpeningRun(limits, [], attach, later).subscriptions == [Enqueue(limits, sub, Usage(0, 0), entry)] by {
      FreshOpens(limits, attach, later);
      OneCommand(limits, begun, Emits(0, entry));
      OneSubscriber(limits, sub, entry);
      hide Answer, Append, Attach, Multicast, Enqueue, NewSubscription, Opening;
    }
    OneEntry(limits, sub, entry);
    hide Enqueue, OpeningRun, Flatten;
  }

  lemma OneCommand(limits: Limits, host: Host, command: Command)
    ensures Broker.Run(limits, host, [command]) == Execute(limits, host, command)
    ensures Broker.Run(limits, NoHost, []) == NoHost
  {
    assert [command][..0] == [];
    hide Execute;
  }

  lemma OneSubscriber(limits: Limits, sub: Subscription, entry: Entry)
    requires sub == NewSubscription(0, 0, 0, None, 0)
    ensures Multicast(limits, [sub], 0, entry, 1) == [Enqueue(limits, sub, Usage(0, 0), entry)]
  {
    assert [sub][..0] == [];
    hide Enqueue;
    assert TabUsage([sub], 0) == Usage(0, 0);
  }

  lemma OneEntry(limits: Limits, sub: Subscription, entry: Entry)
    requires limits.Valid() && sub == NewSubscription(0, 0, 0, None, 0) && entry == Entry([], None)
    ensures
      var r := Enqueue(limits, sub, Usage(0, 0), entry);
      && r.client == 0 && r.id == 0 && r.start == 0 && !r.resumeRequired && r.pending == []
      && Flatten(r.sent) == [entry]
  {
    var queued := sub.(pending := sub.pending + [entry], pendingBytes := 0);
    assert sub.pending + [entry] == [entry];
    FlushOne(limits, queued, entry);
    hide Flush;
    assert Enqueue(limits, sub, Usage(0, 0), entry) == Flush(limits, queued);
    FlattenSnoc([], [entry]);
    hide Flatten;
    assert [] + [[entry]] == [[entry]] && Flatten([]) + [entry] == [entry];
  }

  lemma FlushOne(limits: Limits, sub: Subscription, entry: Entry)
    requires limits.Valid() && sub.pending == [entry] && sub.inflight.None? && !sub.resumeRequired
    ensures
      var r := Flush(limits, sub);
      && r.client == sub.client && r.id == sub.id && r.start == sub.start && !r.resumeRequired
      && r.pending == [] && r.sent == sub.sent + [[entry]]
  {
    assert BatchLength(limits, [entry], 0, 0) == 1 && [entry][..1] == [entry] && [entry][1..] == [];
    hide BatchLength, Bytes;
  }

  /**
   A tab that opens a source is never sent the source's first emission, in any run, exactly when the session already
   held a value: that value reaches the log, and the tab joins behind it.
   */
  lemma FirstValueIff(limits: Limits, first: Option<Entry>)
    requires limits.Valid()
    ensures
      first.Some?
      <==> forall before, attach, later ::
             Opening(limits, before, attach, later) && attach.first == first
             ==> !SentFirst(limits, before, attach, later)
  {
    hide SentFirst, OpeningRun;
    if first.Some? {
      forall before, attach, later | Opening(limits, before, attach, later) && attach.first == first
        ensures !SentFirst(limits, before, attach, later)
      {
        FirstMissed(limits, before, attach, later);
      }
    } else {
      FreshTabSentFirst(limits);
    }
  }
}
