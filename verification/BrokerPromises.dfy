/** What the worker promises a tab, over every run: exact delivery, a sound reattach, silence once it has lagged. */
module BrokerPromises {
  import opened Prelude
  import opened Broker
  import opened BrokerInvariants

  // ---------------------------------------------------------------------------------------------
  // Exactness over every run
  // ---------------------------------------------------------------------------------------------

  /** The batches a tab has been sent, in order, are the emissions since its start, with no gap and no repeat. */
  lemma EveryTabExact(limits: Limits, commands: seq<Command>, k: nat)
    requires limits.Valid()
    requires k < |Broker.Run(limits, NoHost, commands).subscriptions|
    ensures
      var host := Broker.Run(limits, NoHost, commands);
      var sub := host.subscriptions[k];
      && sub.source in host.sources
      && sub.start <= |host.sources[sub.source].history|
      && var due := host.sources[sub.source].history[sub.start..];
         && Flatten(sub.sent) <= due
         && (!sub.resumeRequired ==> Flatten(sub.sent) + sub.pending == due)
         && (sub.pending != [] ==> sub.inflight.Some?)
         && (sub.inflight.Some? ==> sub.inflight.value.id == |sub.sent| == sub.nextBatchId - 1)
         && (forall i :: 0 <= i < |sub.sent| ==>
               0 < |sub.sent[i]| <= limits.batchItems && Bytes(sub.sent[i]) <= limits.batchBytes)
  {
    RunInv(limits, commands);
    var host := Broker.Run(limits, NoHost, commands);
    var sub := host.subscriptions[k];
    assert HostInv(limits, host);
    hide Broker.Run;
    assert Served(limits, host.sources, sub);
    hide HostInv;
    SubscriptionExact(limits, host.sources[sub.source].history, sub);
  }

  lemma SubscriptionExact(limits: Limits, history: seq<Entry>, sub: Subscription)
    requires SubscriptionInv(limits, history, sub)
    ensures sub.start <= |history|
    ensures
      var due := history[sub.start..];
      && Flatten(sub.sent) <= due
      && (!sub.resumeRequired ==> Flatten(sub.sent) + sub.pending == due)
    ensures (sub.pending != [] ==> sub.inflight.Some?)
      && (sub.inflight.Some? ==> sub.inflight.value.id == |sub.sent| == sub.nextBatchId - 1)
    ensures forall i :: 0 <= i < |sub.sent| ==>
      0 < |sub.sent[i]| <= limits.batchItems && Bytes(sub.sent[i]) <= limits.batchBytes
  {
    hide Flatten, Bytes;
    forall i | 0 <= i < |sub.sent|
      ensures 0 < |sub.sent[i]| <= limits.batchItems && Bytes(sub.sent[i]) <= limits.batchBytes
    {
      assert BatchFits(limits, sub.sent[i]);
    }
  }

  /** No tab is ever over its limits, and every log is the end of its source's history, inside both bounds. */
  lemma TabsAndLogsBounded(limits: Limits, commands: seq<Command>, client: nat, key: nat)
    requires limits.Valid()
    ensures
      var host := Broker.Run(limits, NoHost, commands);
      && TabUsage(host.subscriptions, client).items <= limits.tabItems
      && TabUsage(host.subscriptions, client).bytes <= limits.tabBytes
      && (key in host.sources ==>
            var source := host.sources[key];
            && Tail(source.log, source.history)
            && |source.log| <= limits.retainedItems && source.logBytes == Bytes(source.log) <= limits.retainedBytes
            && (source.truncated <==> |source.log| < |source.history|))
  {
    RunInv(limits, commands);
    hide Broker.Run, AllServed, Distinct, TabUsage, Tail, Bytes;
    assert TabBounded(limits, Broker.Run(limits, NoHost, commands).subscriptions, client);
  }

  // ---------------------------------------------------------------------------------------------
  // A tab that has lagged is never sent anything again
  // ---------------------------------------------------------------------------------------------

  /** The same subscription later: what had been sent stays sent, and a lagged one is not sent more. */
  ghost predicate Later(a: Subscription, b: Subscription) {
    && SameIdentity(a, b)
    && a.sent <= b.sent
    && (a.resumeRequired ==> b == a)
  }

  ghost predicate AllLater(subs: seq<Subscription>, r: seq<Subscription>) {
    |subs| <= |r| && forall i :: 0 <= i < |subs| ==> Later(subs[i], r[i])
  }

  lemma FlushLater(limits: Limits, sub: Subscription)
    ensures SameIdentity(sub, Flush(limits, sub)) && sub.sent <= Flush(limits, sub).sent
  {
    hide Bytes, BatchLength;
  }

  lemma EnqueueLater(limits: Limits, sub: Subscription, usage: Usage, entry: Entry)
    ensures Later(sub, Enqueue(limits, sub, usage, entry))
  {
    hide Flush;
    FlushLater(limits, sub.(pending := sub.pending + [entry], pendingBytes := sub.pendingBytes + |entry.data|));
  }

  lemma LaterTransitive(a: Subscription, b: Subscription, c: Subscription)
    requires Later(a, b) && Later(b, c)
    ensures Later(a, c)
  {
  }

  lemma AllLaterReflexive(subs: seq<Subscription>)
    ensures AllLater(subs, subs)
  {
  }

  lemma AllLaterAt(subs: seq<Subscription>, r: seq<Subscription>, k: nat)
    requires AllLater(subs, r) && k < |subs|
    ensures |subs| <= |r| && Later(subs[k], r[k])
  {
  }

  lemma UpdateLater(subs: seq<Subscription>, k: nat, sub: Subscription)
    requires k < |subs| && Later(subs[k], sub)
    ensures AllLater(subs, subs[k := sub])
  {
    AllLaterReflexive(subs);
    hide Later;
  }

  lemma AllLaterTransitive(a: seq<Subscription>, b: seq<Subscription>, c: seq<Subscription>)
    requires AllLater(a, b) && AllLater(b, c)
    ensures AllLater(a, c)
  {
    hide Later;
    forall i | 0 <= i < |a|
      ensures Later(a[i], c[i])
    {
      LaterTransitive(a[i], b[i], c[i]);
    }
  }

  lemma EnqueueAtLater(limits: Limits, subs: seq<Subscription>, k: nat, entry: Entry)
    requires k < |subs|
    ensures AllLater(subs, EnqueueAt(limits, subs, k, entry))
  {
    hide Enqueue, Later, AllLater, TabUsage;
    EnqueueLater(limits, subs[k], TabUsage(subs, subs[k].client), entry);
    UpdateLater(subs, k, Enqueue(limits, subs[k], TabUsage(subs, subs[k].client), entry));
  }

  lemma {:induction false} MulticastLater(
    limits: Limits, subs: seq<Subscription>, source: nat, entry: Entry, k: nat)
    requires k <= |subs|
    ensures AllLater(subs, Multicast(limits, subs, source, entry, k))
  {
    hide AllLater, EnqueueAt;
    if k == 0 {
      AllLaterReflexive(subs);
    } else {
      MulticastLater(limits, subs, source, entry, k - 1);
      var before := Multicast(limits, subs, source, entry, k - 1);
      EnqueueAtLater(limits, before, k - 1, entry);
      if before[k - 1].source == source {
        AllLaterTransitive(subs, before, EnqueueAt(limits, before, k - 1, entry));
      }
    }
  }

  lemma {:induction false} EnqueueLastLater(limits: Limits, subs: seq<Subscription>, entries: seq<Entry>)
    requires subs != []
    ensures AllLater(subs, EnqueueLast(limits, subs, entries))
    decreases |entries|
  {
    hide AllLater, EnqueueAt;
    if entries == [] {
      AllLaterReflexive(subs);
    } else {
      EnqueueLastLater(limits, subs, entries[..|entries| - 1]);
      var before := EnqueueLast(limits, subs, entries[..|entries| - 1]);
      EnqueueAtLater(limits, before, |before| - 1, entries[|entries| - 1]);
      AllLaterTransitive(subs, before, EnqueueLast(limits, subs, entries));
    }
  }

  lemma AttachLater(limits: Limits, host: Host, client: nat, id: nat, key: nat, contract: nat,
                    resumeAfter: Option<Cursor>, reattach: bool, first: Option<Entry>)
    ensures AllLater(host.subscriptions,
                     Attach(limits, host, client, id, key, contract, resumeAfter, reattach, first).subscriptions)
  {
    hide Retained, OpenSource, EnqueueLast, Later;
    forall sub: Subscription
      ensures Later(sub, sub)
    {
      LaterReflexive(sub);
    }
    if key in host.sources && reattach && Retained(host.sources[key], resumeAfter).Some? {
      var entries, emitted := Retained(host.sources[key], resumeAfter).value, |host.sources[key].history|;
      var start := if |entries| <= emitted then emitted - |entries| else 0;
      var more := host.subscriptions + [NewSubscription(client, id, key, resumeAfter, start)];
      EnqueueLastLater(limits, more, entries);
      assert forall i :: 0 <= i < |host.subscriptions| ==> more[i] == host.subscriptions[i];
    }
  }

  lemma LaterReflexive(sub: Subscription)
    ensures Later(sub, sub)
  {
  }

  /** A subscription survives every command but its own detach, and its sent batches only grow. */
  lemma ExecuteLater(limits: Limits, host: Host, command: Command, client: nat, id: nat)
    requires HostInv(limits, host) && Find(host.subscriptions, client, id).Some?
    requires command != Detaches(client, id)
    ensures
      var k := Find(host.subscriptions, client, id).value;
      var j := Find(Execute(limits, host, command).subscriptions, client, id);
      j.Some? && Later(host.subscriptions[k], Execute(limits, host, command).subscriptions[j.value])
  {
    var k := Find(host.subscriptions, client, id).value;
    var next := Execute(limits, host, command);
    ExecuteInv(limits, host, command);
    ExecuteKeeps(limits, host, command, k);
    assert Distinct(next.subscriptions);
    hide HostInv, Execute;
    var i :| 0 <= i < |next.subscriptions| && Later(host.subscriptions[k], next.subscriptions[i]);
    FindDistinct(next.subscriptions, i);
  }

  lemma {:induction false} FindDistinct(subs: seq<Subscription>, i: nat)
    requires Distinct(subs) && i < |subs|
    ensures Find(subs, subs[i].client, subs[i].id) == Some(i)
  {
    var j := Find(subs, subs[i].client, subs[i].id);
    if j.Some? && j.value != i {
      assert false;
    }
  }

  lemma ExecuteKeeps(limits: Limits, host: Host, command: Command, k: nat)
    requires HostInv(limits, host) && k < |host.subscriptions|
    requires command != Detaches(host.subscriptions[k].client, host.subscriptions[k].id)
    ensures exists i :: 0 <= i < |Execute(limits, host, command).subscriptions|
                     && Later(host.subscriptions[k], Execute(limits, host, command).subscriptions[i])
  {
    hide HostInv;
    if command.Acks? && Answer(host, command).Accepted? {
      hide *;
      AckLater(limits, host, command, k);
    } else if command.Detaches? && Answer(host, command).Accepted? {
      assert Find(host.subscriptions, command.client, command.id).Some?;
      hide *;
      DetachKeeps(limits, host, command.client, command.id, k);
    } else {
      hide *;
      OtherLater(limits, host, command);
      AllLaterAt(host.subscriptions, Execute(limits, host, command).subscriptions, k);
    }
  }

  lemma DetachKeeps(limits: Limits, host: Host, client: nat, id: nat, k: nat)
    requires k < |host.subscriptions| && Find(host.subscriptions, client, id).Some?
    requires host.subscriptions[k].client != client || host.subscriptions[k].id != id
    ensures exists i :: 0 <= i < |Execute(limits, host, Detaches(client, id)).subscriptions|
                     && Later(host.subscriptions[k], Execute(limits, host, Detaches(client, id)).subscriptions[i])
  {
    var subs, next := host.subscriptions, Execute(limits, host, Detaches(client, id)).subscriptions;
    var j := Find(subs, client, id).value;
    assert j != k && next == subs[..j] + subs[j + 1..];
    hide *;
    LaterReflexive(subs[k]);
    var i := if k < j then k else k - 1;
    assert next[i] == subs[k];
  }

  lemma OtherLater(limits: Limits, host: Host, command: Command)
    requires Answer(host, command).Accepted? ==> !command.Acks? && !command.Detaches?
    ensures AllLater(host.subscriptions, Execute(limits, host, command).subscriptions)
  {
    var subs := host.subscriptions;
    hide AllLater;
    AllLaterReflexive(subs);
    if Answer(host, command).Accepted? && command.Emits? {
      EmitLater(limits, host, command.source, command.entry);
    } else if Answer(host, command).Accepted? && command.Attaches? {
      hide Attach;
      AttachLater(limits, host, command.client, command.id, command.source, command.contract, command.resumeAfter,
                  command.reattach, command.first);
    }
  }

  lemma EmitLater(limits: Limits, host: Host, source: nat, entry: Entry)
    ensures AllLater(host.subscriptions, Emit(limits, host, source, entry).subscriptions)
  {
    hide AllLater, Multicast, Append;
    AllLaterReflexive(host.subscriptions);
    MulticastLater(limits, host.subscriptions, source, entry, |host.subscriptions|);
  }

  lemma AckLater(limits: Limits, host: Host, command: Command, k: nat)
    requires HostInv(limits, host) && k < |host.subscriptions| && command.Acks? && Answer(host, command).Accepted?
    ensures |Execute(limits, host, command).subscriptions| == |host.subscriptions|
    ensures Later(host.subscriptions[k], Execute(limits, host, command).subscriptions[k])
  {
    var j := Find(host.subscriptions, command.client, command.id).value;
    var sub := host.subscriptions[j];
    var next := Acknowledge(limits, sub, command.cursor);
    assert Execute(limits, host, command).subscriptions == host.subscriptions[j := next];
    assert sub.inflight.Some?;
    hide *;
    LiveWhileInFlight(limits, host, j);
    AcknowledgeLater(limits, sub, command.cursor);
    UpdateLater(host.subscriptions, j, next);
    AllLaterAt(host.subscriptions, host.subscriptions[j := next], k);
  }

  lemma AcknowledgeLater(limits: Limits, sub: Subscription, cursor: Option<Cursor>)
    requires !sub.resumeRequired
    ensures Later(sub, Acknowledge(limits, sub, cursor))
  {
    hide Flush;
    FlushLater(limits, sub.(lastCursor := cursor, inflight := None));
  }

  lemma LiveWhileInFlight(limits: Limits, host: Host, j: nat)
    requires HostInv(limits, host) && j < |host.subscriptions| && host.subscriptions[j].inflight.Some?
    ensures !host.subscriptions[j].resumeRequired
  {
    assert Served(limits, host.sources, host.subscriptions[j]);
    hide HostInv, Flatten, Bytes, Bounded, InFlight;
  }

  /** Over any run of later commands, until the tab detaches: once resume is required nothing more is ever sent. */
  lemma {:induction false} LaggedStaysSilent(
    limits: Limits, host: Host, commands: seq<Command>, client: nat, id: nat)
    requires HostInv(limits, host) && Find(host.subscriptions, client, id).Some?
    requires forall i :: 0 <= i < |commands| ==> commands[i] != Detaches(client, id)
    ensures HostInv(limits, Broker.Run(limits, host, commands))
    ensures
      var k := Find(host.subscriptions, client, id).value;
      var after := Broker.Run(limits, host, commands).subscriptions;
      var j := Find(after, client, id);
      && j.Some?
      && host.subscriptions[k].sent <= after[j.value].sent
      && (host.subscriptions[k].resumeRequired ==> after[j.value] == host.subscriptions[k])
    decreases |commands|
  {
    hide HostInv, Find, Execute;
    if commands != [] {
      var front := commands[..|commands| - 1];
      LaggedStaysSilent(limits, host, front, client, id);
      var before := Broker.Run(limits, host, front);
      ExecuteInv(limits, before, commands[|commands| - 1]);
      ExecuteLater(limits, before, commands[|commands| - 1], client, id);
    }
  }

  /** An acknowledgement is accepted once: repeated, it finds the batch gone. */
  lemma AcknowledgedOnce(limits: Limits, host: Host, command: Command)
    requires HostInv(limits, host) && command.Acks? && Answer(host, command).Accepted?
    ensures Answer(Execute(limits, host, command), command) == NotInFlight
  {
    var k := Find(host.subscriptions, command.client, command.id).value;
    var sub := host.subscriptions[k];
    var next := Acknowledge(limits, sub, command.cursor);
    var after := Execute(limits, host, command);
    assert after.subscriptions == host.subscriptions[k := next];
    assert Served(limits, host.sources, sub);
    ExecuteInv(limits, host, command);
    assert Distinct(after.subscriptions);
    assert InFlight(sub);
    hide Execute, HostInv, Find, Served, Bytes, BatchLength, Distinct;
    FlushLater(limits, sub.(lastCursor := command.cursor, inflight := None));
    FindDistinct(after.subscriptions, k);
  }

  // ---------------------------------------------------------------------------------------------
  // Reattaching
  // ---------------------------------------------------------------------------------------------

  /** Every entry is small enough for a batch, and the tab has room for all of them. */
  predicate Room(limits: Limits, usage: Usage, entries: seq<Entry>) {
    && usage.items + |entries| <= limits.tabItems
    && usage.bytes + Bytes(entries) <= limits.tabBytes
    && forall i :: 0 <= i < |entries| ==> |entries[i].data| <= limits.batchBytes
  }

  lemma RoomSnoc(limits: Limits, usage: Usage, front: seq<Entry>, last: Entry)
    ensures Room(limits, usage, front + [last])
         == (Room(limits, usage, front) && Fits(limits, Usage(usage.items + |front|, usage.bytes + Bytes(front)), last))
  {
    BytesSnoc(front, last);
    hide Bytes;
    var all := front + [last];
    assert all[|front|] == last && forall i :: 0 <= i < |front| ==> all[i] == front[i];
  }

  /** Offering `entries` to the last subscription keeps it live exactly when its tab has room for all of them. */
  lemma {:induction false} FilledIff(limits: Limits, history: seq<Entry>, subs: seq<Subscription>, entries: seq<Entry>)
    requires limits.Valid() && subs != [] && TabsBounded(limits, subs)
    requires SubscriptionInv(limits, history, subs[|subs| - 1]) && !subs[|subs| - 1].resumeRequired
    ensures
      var last := |subs| - 1;
      var before, r := TabUsage(subs, subs[last].client), EnqueueLast(limits, subs, entries);
      && r[last].resumeRequired == !Room(limits, before, entries)
      && (!r[last].resumeRequired ==>
            TabUsage(r, subs[last].client) == Usage(before.items + |entries|, before.bytes + Bytes(entries)))
    decreases |entries|
  {
    var last, client := |subs| - 1, subs[|subs| - 1].client;
    if entries == [] {
      NothingFits(limits, subs, client);
    } else {
      var front, entry := entries[..|entries| - 1], entries[|entries| - 1];
      var filled := EnqueueLast(limits, subs, front);
      assert entries == front + [entry] && EnqueueLast(limits, subs, entries) == EnqueueAt(limits, filled, last, entry);
      hide EnqueueLast, Bytes, TabUsage, Room, SubscriptionInv, TabsBounded, EnqueueAt;
      FilledIff(limits, history, subs, front);
      EnqueueLastInv(limits, history, subs, front);
      RoomSnoc(limits, TabUsage(subs, client), front, entry);
      BytesSnoc(front, entry);
      OfferAt(limits, history + front, filled, last, entry);
    }
  }

  lemma NothingFits(limits: Limits, subs: seq<Subscription>, client: nat)
    requires TabsBounded(limits, subs)
    ensures Room(limits, TabUsage(subs, client), [])
  {
    assert TabBounded(limits, subs, client);
  }

  lemma OfferAt(limits: Limits, history: seq<Entry>, subs: seq<Subscription>, k: nat, entry: Entry)
    requires limits.Valid() && k < |subs| && SubscriptionInv(limits, history, subs[k])
    ensures
      var usage, r := TabUsage(subs, subs[k].client), EnqueueAt(limits, subs, k, entry);
      && r[k].resumeRequired == (subs[k].resumeRequired || !Fits(limits, usage, entry))
      && (!r[k].resumeRequired ==>
            TabUsage(r, subs[k].client) == Usage(usage.items + 1, usage.bytes + |entry.data|))
  {
    var usage := TabUsage(subs, subs[k].client);
    var sub := Enqueue(limits, subs[k], usage, entry);
    OfferLive(limits, subs[k], usage, entry);
    EnqueueIdentity(limits, subs[k], usage, entry);
    assert EnqueueAt(limits, subs, k, entry) == subs[k := sub];
    hide SubscriptionInv, TabUsage, Outstanding, Enqueue, EnqueueAt, Fits;
    EnqueueOutstanding(limits, history, subs[k], usage, entry);
    UsageUpdate(subs, k, sub, subs[k].client);
  }

  lemma OfferLive(limits: Limits, sub: Subscription, usage: Usage, entry: Entry)
    ensures Enqueue(limits, sub, usage, entry).resumeRequired == (sub.resumeRequired || !Fits(limits, usage, entry))
  {
    hide Bytes, BatchLength;
  }

  /**
   A tab that reattaches keeps receiving exactly when its position is still retained and its tab has room for all
   that was emitted since; it is then owed precisely that. Otherwise it is told to resume.
   */
  lemma ReattachIff(limits: Limits, host: Host, client: nat, id: nat, key: nat, resumeAfter: Option<Cursor>)
    requires HostInv(limits, host) && key in host.sources && Find(host.subscriptions, client, id).None?
    ensures
      var source, usage := host.sources[key], TabUsage(host.subscriptions, client);
      var r := Attach(limits, host, client, id, key, source.contract, resumeAfter, true, None).subscriptions;
      var retained := Retained(source, resumeAfter);
      && |r| == |host.subscriptions| + 1
      && r[..|host.subscriptions|] == host.subscriptions
      && r[|host.subscriptions|].resumeRequired == !(retained.Some? && Room(limits, usage, retained.value))
      && (!r[|host.subscriptions|].resumeRequired ==> Due(r[|host.subscriptions|]) == retained.value)
  {
    hide *;
    AttachByCase(limits, host, client, id, key, resumeAfter, true);
    if Retained(host.sources[key], resumeAfter).None? {
      LaggedJoins(host.subscriptions, client, id, key, resumeAfter, |host.sources[key].history|);
    } else {
      RetainedTail(limits, host, key, resumeAfter);
      TailLength(Retained(host.sources[key], resumeAfter).value, host.sources[key].history);
      FilledJoins(limits, host, client, id, key, resumeAfter, Retained(host.sources[key], resumeAfter).value);
    }
  }

  lemma LaggedJoins(subs: seq<Subscription>, client: nat, id: nat, key: nat, resumeAfter: Option<Cursor>, start: nat)
    ensures
      var joined := RequireResume(NewSubscription(client, id, key, resumeAfter, start));
      && |subs + [joined]| == |subs| + 1 && (subs + [joined])[..|subs|] == subs
      && (subs + [joined])[|subs|].resumeRequired
  {
  }

  lemma FilledJoins(limits: Limits, host: Host, client: nat, id: nat, key: nat,
                    resumeAfter: Option<Cursor>, entries: seq<Entry>)
    requires HostInv(limits, host) && key in host.sources && Tail(entries, host.sources[key].history)
    requires |entries| <= |host.sources[key].history|
    ensures
      var subs := host.subscriptions;
      var joined := NewSubscription(client, id, key, resumeAfter, |host.sources[key].history| - |entries|);
      var r := EnqueueLast(limits, subs + [joined], entries);
      && |r| == |subs| + 1 && r[..|subs|] == subs
      && r[|subs|].resumeRequired == !Room(limits, TabUsage(subs, client), entries)
      && (!r[|subs|].resumeRequired ==> Due(r[|subs|]) == entries)
  {
    hide *;
    var before := TailSplit(entries, host.sources[key].history);
    assert |host.sources[key].history| - |entries| == |before|;
    var joined := NewSubscription(client, id, key, resumeAfter, |before|);
    NewlyJoined(client, id, key, resumeAfter, |before|);
    InvBounds(limits, host);
    FilledFrom(limits, host.subscriptions, before, joined, entries);
  }

  lemma NewlyJoined(client: nat, id: nat, key: nat, resumeAfter: Option<Cursor>, start: nat)
    ensures
      var joined := NewSubscription(client, id, key, resumeAfter, start);
      && joined == NewSubscription(joined.client, joined.id, joined.source, joined.lastCursor, start)
      && joined.client == client && !joined.resumeRequired && joined.start == start
  {
  }

  lemma InvBounds(limits: Limits, host: Host)
    requires HostInv(limits, host)
    ensures limits.Valid() && TabsBounded(limits, host.subscriptions)
  {
  }

  lemma FilledFrom(limits: Limits, subs: seq<Subscription>, before: seq<Entry>, joined: Subscription,
                   entries: seq<Entry>)
    requires limits.Valid() && TabsBounded(limits, subs)
    requires joined == NewSubscription(joined.client, joined.id, joined.source, joined.lastCursor, |before|)
    requires !joined.resumeRequired && joined.start == |before|
    ensures
      var r := EnqueueLast(limits, subs + [joined], entries);
      && |r| == |subs| + 1 && r[..|subs|] == subs
      && r[|subs|].resumeRequired == !Room(limits, TabUsage(subs, joined.client), entries)
      && (!r[|subs|].resumeRequired ==> Due(r[|subs|]) == entries)
  {
    var r := EnqueueLast(limits, subs + [joined], entries);
    hide *;
    NewSubscriptionInv(limits, before, joined);
    IdleBounded(limits, subs, joined);
    LastOfMore(subs, joined);
    IdleUsage(subs, joined);
    FilledIff(limits, before, subs + [joined], entries);
    EnqueueLastInv(limits, before, subs + [joined], entries);
    if !r[|subs|].resumeRequired {
      DueIs(limits, before, entries, joined, r[|subs|]);
    }
  }

  lemma IdleUsage(subs: seq<Subscription>, sub: Subscription)
    requires Outstanding(sub) == Usage(0, 0)
    ensures TabUsage(subs + [sub], sub.client) == TabUsage(subs, sub.client)
  {
    hide Outstanding;
    UsageSnoc(subs, sub, sub.client);
  }

  lemma DueIs(limits: Limits, before: seq<Entry>, entries: seq<Entry>, joined: Subscription, sub: Subscription)
    requires SubscriptionInv(limits, before + entries, sub) && !sub.resumeRequired
    requires SameIdentity(joined, sub) && joined.start == |before|
    ensures Due(sub) == entries
  {
    hide Bytes, Flatten, Bounded, InFlight, Due;
    assert (before + entries)[|before|..] == entries;
  }

  /** Every delivery carries a cursor of its own. */
  ghost predicate UniqueCursors(history: seq<Entry>) {
    forall i, j :: 0 <= i < j < |history| && history[i].cursor.Some? ==> history[i].cursor != history[j].cursor
  }

  /** With unique cursors, what is retained for a cursor is what was emitted after it, unless it was trimmed away. */
  lemma RetainedSince(limits: Limits, source: Source, p: nat)
    requires Suffix(limits, source) && UniqueCursors(source.history)
    requires p < |source.history| && source.history[p].cursor.Some?
    ensures |source.log| <= |source.history|
    ensures Retained(source, source.history[p].cursor)
         == (if p < |source.history| - |source.log| then None else Some(source.history[p + 1..]))
  {
    assert Tail(source.log, source.history);
    assert Retained(source, source.history[p].cursor) == RetainedAfter(source.log, source.history[p].cursor.value);
    hide *;
    TailLength(source.log, source.history);
    RetainedInTail(source.log, source.history, p);
  }

  function RetainedAfter(log: seq<Entry>, cursor: Cursor): Option<seq<Entry>> {
    match FindCursor(log, cursor)
    case None => None
    case Some(i) => Some(log[i + 1..])
  }

  lemma TailAt(log: seq<Entry>, history: seq<Entry>, i: nat)
    requires Tail(log, history) && i < |log|
    ensures |log| <= |history| && log[i] == history[|history| - |log| + i]
  {
  }

  lemma TailIs(rest: seq<Entry>, history: seq<Entry>, n: nat)
    requires Tail(rest, history) && n + |rest| == |history|
    ensures rest == history[n..]
  {
  }

  lemma RetainedInTail(log: seq<Entry>, history: seq<Entry>, p: nat)
    requires Tail(log, history) && |log| <= |history| && UniqueCursors(history)
    requires p < |history| && history[p].cursor.Some?
    ensures RetainedAfter(log, history[p].cursor.value)
         == (if p < |history| - |log| then None else Some(history[p + 1..]))
  {
    var dropped, found := |history| - |log|, FindCursor(log, history[p].cursor.value);
    hide Tail, FindCursor, UniqueCursors;
    if dropped <= p {
      TailAt(log, history, p - dropped);
    }
    if found.Some? {
      TailAt(log, history, found.value);
      OneCursor(history, dropped + found.value, p);
      TailDrop(log, history, found.value + 1);
      TailIs(log[found.value + 1..], history, p + 1);
    }
  }

  lemma OneCursor(history: seq<Entry>, i: nat, j: nat)
    requires UniqueCursors(history) && i < |history| && j < |history|
    requires history[i].cursor == history[j].cursor && history[i].cursor.Some?
    ensures i == j
  {
  }

  /** Reattaching at the p-th emission gives exactly the emissions after it, or nothing and a demand to resume. */
  lemma ReattachSince(limits: Limits, host: Host, client: nat, id: nat, key: nat, p: nat)
    requires HostInv(limits, host) && key in host.sources && Find(host.subscriptions, client, id).None?
    requires p < |host.sources[key].history| && host.sources[key].history[p].cursor.Some?
    requires UniqueCursors(host.sources[key].history)
    ensures
      var source := host.sources[key];
      var since := source.history[p + 1..];
      var r := Attach(limits, host, client, id, key, source.contract, source.history[p].cursor, true, None);
      && |r.subscriptions| == |host.subscriptions| + 1
      && var joined := r.subscriptions[|host.subscriptions|];
         && joined.resumeRequired
            == (p + |source.log| < |source.history| || !Room(limits, TabUsage(host.subscriptions, client), since))
         && (!joined.resumeRequired ==> Due(joined) == since)
  {
    assert Suffix(limits, host.sources[key]);
    hide *;
    RetainedSince(limits, host.sources[key], p);
    ReattachIff(limits, host, client, id, key, host.sources[key].history[p].cursor);
  }
}
