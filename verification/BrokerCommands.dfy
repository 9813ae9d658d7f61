/** What each command leaves behind: who is gone after a detach, what a teardown closes, and what a refusal changes. */
module BrokerCommands {
  import opened Prelude
  import opened Broker
  import opened BrokerInvariants
  import opened BrokerPromises

  /** The other subscriptions, in order. */
  function Others(subs: seq<Subscription>, client: nat, id: nat): seq<Subscription> {
    if subs == [] then []
    else
      var front, last := Others(subs[..|subs| - 1], client, id), subs[|subs| - 1];
      if last.client == client && last.id == id then front else front + [last]
  }

  lemma {:induction false} AllOthers(subs: seq<Subscription>, client: nat, id: nat)
    requires forall i :: 0 <= i < |subs| ==> subs[i].client != client || subs[i].id != id
    ensures Others(subs, client, id) == subs
    decreases |subs|
  {
    if subs != [] {
      AllOthers(subs[..|subs| - 1], client, id);
    }
  }

  lemma {:induction false} OthersAt(subs: seq<Subscription>, k: nat)
    requires Distinct(subs) && k < |subs|
    ensures Others(subs, subs[k].client, subs[k].id) == subs[..k] + subs[k + 1..]
    decreases |subs|
  {
    var front := subs[..|subs| - 1];
    if k == |front| {
      AllOthers(front, subs[k].client, subs[k].id);
      assert subs[..k] + subs[k + 1..] == front;
    } else {
      OthersAt(front, k);
      assert subs[..k] + subs[k + 1..] == front[..k] + front[k + 1..] + [subs[|front|]];
    }
  }

  lemma {:induction false} NotAmongOthers(subs: seq<Subscription>, client: nat, id: nat)
    ensures Find(Others(subs, client, id), client, id).None?
    decreases |subs|
  {
    if subs != [] {
      NotAmongOthers(subs[..|subs| - 1], client, id);
    }
  }

  /**
   An accepted detach removes that subscription and no other: the tab's load falls by what it had outstanding, other
   tabs keep theirs, and the name can be attached again.
   */
  lemma DetachExact(limits: Limits, host: Host, client: nat, id: nat)
    requires HostInv(limits, host) && Answer(host, Detaches(client, id)).Accepted?
    ensures
      var next, found := Execute(limits, host, Detaches(client, id)), Find(host.subscriptions, client, id);
      && next.sources == host.sources && next.subscriptions == Others(host.subscriptions, client, id)
      && |next.subscriptions| == |host.subscriptions| - 1 && found.Some?
      && var gone := Outstanding(host.subscriptions[found.value]);
         && TabUsage(host.subscriptions, client)
            == Usage(TabUsage(next.subscriptions, client).items + gone.items,
                     TabUsage(next.subscriptions, client).bytes + gone.bytes)
         && (forall other :: other != client ==>
               TabUsage(next.subscriptions, other) == TabUsage(host.subscriptions, other))
    ensures
      var next := Execute(limits, host, Detaches(client, id));
      && Find(next.subscriptions, client, id).None?
      && Answer(next, Detaches(client, id)) == SubscriptionMissing
      && forall source, contract, resumeAfter, reattach, first ::
           Answer(next, Attaches(client, id, source, contract, resumeAfter, reattach, first))
           == (if source in host.sources && host.sources[source].contract != contract then ContractMismatch
               else Accepted)
  {
    hide *;
    var subs := host.subscriptions;
    var next := Execute(limits, host, Detaches(client, id));
    var k := DetachedAt(limits, host, client, id);
    InvDistinct(limits, host);
    OthersAt(subs, k);
    NotAmongOthers(subs, client, id);
    DetachedUsage(subs, k);
    Unnamed(next, client, id);
  }

  lemma DetachedAt(limits: Limits, host: Host, client: nat, id: nat) returns (k: nat)
    requires Answer(host, Detaches(client, id)).Accepted?
    ensures
      var subs, next := host.subscriptions, Execute(limits, host, Detaches(client, id));
      && Find(subs, client, id) == Some(k) && k < |subs| && subs[k].client == client && subs[k].id == id
      && next.sources == host.sources && next.subscriptions == subs[..k] + subs[k + 1..]
      && |next.subscriptions| == |subs| - 1
  {
    k := Find(host.subscriptions, client, id).value;
    hide Find;
  }

  lemma DetachedUsage(subs: seq<Subscription>, k: nat)
    requires k < |subs|
    ensures
      var rest, client, gone := subs[..k] + subs[k + 1..], subs[k].client, Outstanding(subs[k]);
      && TabUsage(subs, client)
         == Usage(TabUsage(rest, client).items + gone.items, TabUsage(rest, client).bytes + gone.bytes)
      && forall other :: other != client ==> TabUsage(rest, other) == TabUsage(subs, other)
  {
    hide TabUsage, Outstanding;
    UsageRemove(subs, k, subs[k].client);
    forall other | other != subs[k].client
      ensures TabUsage(subs[..k] + subs[k + 1..], other) == TabUsage(subs, other)
    {
      UsageRemove(subs, k, other);
    }
  }

  lemma Unnamed(host: Host, client: nat, id: nat)
    requires Find(host.subscriptions, client, id).None?
    ensures Answer(host, Detaches(client, id)) == SubscriptionMissing
    ensures forall source, contract, resumeAfter, reattach, first ::
      Answer(host, Attaches(client, id, source, contract, resumeAfter, reattach, first))
      == (if source in host.sources && host.sources[source].contract != contract then ContractMismatch else Accepted)
  {
  }

  /** A source without subscribers is closed by its teardown, and its next attachment opens it anew. */
  lemma TearDownExact(limits: Limits, host: Host, source: nat)
    ensures
      var next := Execute(limits, host, TearsDown(source));
      && next.subscriptions == host.subscriptions
      && (forall key :: key in next.sources <==>
            key in host.sources && (key != source || HasSubscriber(host.subscriptions, source)))
      && (forall key :: key in next.sources ==> next.sources[key] == host.sources[key])
    ensures
      !HasSubscriber(host.subscriptions, source) ==>
        forall client, id, contract, resumeAfter, reattach, first ::
          Find(host.subscriptions, client, id).None? ==>
            Answer(Execute(limits, host, TearsDown(source)),
                   Attaches(client, id, source, contract, resumeAfter, reattach, first)).Accepted?
  {
  }

  /** An acknowledgement is accepted exactly if it names the batch in flight and its cursor; a refusal says why. */
  lemma AckAcceptedIff(host: Host, client: nat, id: nat, batch: nat, cursor: Option<Cursor>)
    ensures
      var k, answer := Find(host.subscriptions, client, id), Answer(host, Acks(client, id, batch, cursor));
      if k.None? then answer == SubscriptionMissing
      else
        var inflight := host.subscriptions[k.value].inflight;
        if inflight.None? || inflight.value.id != batch then answer == NotInFlight
        else answer == if inflight.value.cursor == cursor then Accepted else CursorMismatch
  {
  }

  /**
   An accepted acknowledgement frees the batch in flight and posts the next one, under the next identifier, from the
   front of what is queued; the other subscriptions stay as they are.
   */
  lemma AckPostsNext(limits: Limits, host: Host, client: nat, id: nat, batch: nat, cursor: Option<Cursor>)
    requires HostInv(limits, host) && Answer(host, Acks(client, id, batch, cursor)).Accepted?
    ensures
      var next, found := Execute(limits, host, Acks(client, id, batch, cursor)), Find(host.subscriptions, client, id);
      && found.Some? && |next.subscriptions| == |host.subscriptions| && next.sources == host.sources
      && var k := found.value;
         var before, after := host.subscriptions[k], next.subscriptions[k];
         && (forall i :: 0 <= i < |host.subscriptions| && i != k ==> next.subscriptions[i] == host.subscriptions[i])
         && after.lastCursor == cursor && !after.resumeRequired && SameIdentity(before, after)
         && if before.pending == [] then after.inflight.None? && after.pending == [] && after.sent == before.sent
            else
              && after.inflight.Some? && after.inflight.value.id == batch + 1
              && after.inflight.value.entries != []
              && after.inflight.value.entries + after.pending == before.pending
              && after.sent == before.sent + [after.inflight.value.entries]
  {
    hide *;
    var k := AckedAt(limits, host, client, id, batch, cursor);
    LiveWhileInFlight(limits, host, k);
    NextIdentifier(limits, host, k);
    ValidLimits(limits, host);
    FreedSame(host.subscriptions[k], cursor);
    PostsFront(limits, host.subscriptions[k].(lastCursor := cursor, inflight := None));
  }

  lemma AckedAt(limits: Limits, host: Host, client: nat, id: nat, batch: nat, cursor: Option<Cursor>) returns (k: nat)
    requires Answer(host, Acks(client, id, batch, cursor)).Accepted?
    ensures
      var subs, next := host.subscriptions, Execute(limits, host, Acks(client, id, batch, cursor));
      && Find(subs, client, id) == Some(k) && k < |subs|
      && subs[k].inflight.Some? && subs[k].inflight.value.id == batch
      && next == host.(subscriptions := subs[k := Flush(limits, subs[k].(lastCursor := cursor, inflight := None))])
  {
    k := Find(host.subscriptions, client, id).value;
    hide Find, Flush;
  }

  lemma FreedSame(sub: Subscription, cursor: Option<Cursor>)
    ensures
      forall r :: SameIdentity(sub.(lastCursor := cursor, inflight := None), r) ==> SameIdentity(sub, r)
  {
  }

  lemma ValidLimits(limits: Limits, host: Host)
    requires HostInv(limits, host)
    ensures limits.Valid()
  {
    hide LogsBounded, AllServed, Distinct, TabsBounded;
  }

  lemma NextIdentifier(limits: Limits, host: Host, k: nat)
    requires HostInv(limits, host) && k < |host.subscriptions| && host.subscriptions[k].inflight.Some?
    ensures host.subscriptions[k].nextBatchId == host.subscriptions[k].inflight.value.id + 1
  {
    assert Served(limits, host.sources, host.subscriptions[k]);
    hide HostInv, Flatten, Bytes, Exact, Bounded;
  }

  lemma PostsFront(limits: Limits, sub: Subscription)
    requires limits.Valid() && !sub.resumeRequired && sub.inflight.None?
    ensures
      var r := Flush(limits, sub);
      && SameIdentity(sub, r) && r.lastCursor == sub.lastCursor && !r.resumeRequired
      && if sub.pending == [] then r == sub
         else
           && r.inflight.Some? && r.inflight.value.id == sub.nextBatchId && r.inflight.value.entries != []
           && r.inflight.value.entries + r.pending == sub.pending
           && r.sent == sub.sent + [r.inflight.value.entries]
  {
    if sub.pending != [] {
      LongestBatch(limits, sub.pending);
      var n := BatchLength(limits, sub.pending, 0, 0);
      assert sub.pending[..n] + sub.pending[n..] == sub.pending;
    }
    hide BatchLength, Bytes;
  }

  /** A command that is refused changes nothing. */
  lemma RefusalsChangeNothing(limits: Limits, host: Host, command: Command)
    requires !Answer(host, command).Accepted?
    ensures Execute(limits, host, command) == host
  {
  }

  /** An attachment is accepted exactly for a new name, and a source that is new or open under the same contract. */
  lemma AttachAcceptedIff(host: Host, attach: Command)
    requires attach.Attaches?
    ensures
      Answer(host, attach).Accepted?
      <==> (&& (forall i :: 0 <= i < |host.subscriptions| ==>
                  host.subscriptions[i].client != attach.client || host.subscriptions[i].id != attach.id)
            && (attach.source in host.sources ==> host.sources[attach.source].contract == attach.contract))
  {
  }

  /** As long as a tab is attached its source stays open under the contract it was attached with. */
  lemma ContractKept(limits: Limits, host: Host, attach: Command, later: seq<Command>)
    requires HostInv(limits, host) && attach.Attaches? && Answer(host, attach).Accepted?
    requires Detaches(attach.client, attach.id) !in later
    ensures
      var after := Broker.Run(limits, Execute(limits, host, attach), later);
      attach.source in after.sources && after.sources[attach.source].contract == attach.contract
  {
    var next := Execute(limits, host, attach);
    AttachOpens(limits, host, attach);
    ExecuteInv(limits, host, attach);
    hide HostInv, Execute, Find;
    ContractStays(limits, next, later, attach.client, attach.id, attach.source);
  }

  lemma AttachOpens(limits: Limits, host: Host, attach: Command)
    requires HostInv(limits, host) && attach.Attaches? && Answer(host, attach).Accepted?
    ensures
      var next := Execute(limits, host, attach);
      var k := Find(next.subscriptions, attach.client, attach.id);
      && attach.source in next.sources && next.sources[attach.source].contract == attach.contract
      && k.Some? && next.subscriptions[k.value].source == attach.source
  {
    hide *;
    var next := Execute(limits, host, attach);
    ExecuteInv(limits, host, attach);
    var k := |host.subscriptions|;
    AttachedLast(limits, host, attach);
    InvDistinct(limits, next);
    FindDistinct(next.subscriptions, k);
  }

  lemma InvDistinct(limits: Limits, host: Host)
    requires HostInv(limits, host)
    ensures Distinct(host.subscriptions)
  {
  }

  lemma AttachedLast(limits: Limits, host: Host, attach: Command)
    requires attach.Attaches? && Answer(host, attach).Accepted?
    ensures
      var next, k := Execute(limits, host, attach), |host.subscriptions|;
      && attach.source in next.sources && next.sources[attach.source].contract == attach.contract
      && |next.subscriptions| == k + 1
      && next.subscriptions[k].client == attach.client && next.subscriptions[k].id == attach.id
      && next.subscriptions[k].source == attach.source
  {
    hide Find, Retained, EnqueueLast, Append, HasSubscriber, Multicast;
    OpenContract(limits, attach.contract, attach.first);
    hide OpenSource;
    if attach.source in host.sources && attach.reattach {
      var emitted := |host.sources[attach.source].history|;
      var retained := Retained(host.sources[attach.source], attach.resumeAfter);
      if retained.Some? {
        var start := if |retained.value| <= emitted then emitted - |retained.value| else 0;
        var joined := NewSubscription(attach.client, attach.id, attach.source, attach.resumeAfter, start);
        FilledIdentity(limits, host.subscriptions + [joined], retained.value);
      }
    }
  }

  lemma OpenContract(limits: Limits, contract: nat, first: Option<Entry>)
    ensures OpenSource(limits, contract, first).contract == contract
  {
    if first.Some? {
      AppendContract(limits, Source(contract, [], [], 0, false), first.value);
    }
  }

  lemma AppendContract(limits: Limits, source: Source, entry: Entry)
    ensures Append(limits, source, entry).contract == source.contract
  {
    TrimContract(limits, source.(history := source.history + [entry],
                                 log := source.log + [entry],
                                 logBytes := source.logBytes + |entry.data|));
  }

  lemma {:induction false} TrimContract(limits: Limits, source: Source)
    ensures Trim(limits, source).contract == source.contract
    decreases |source.log|
  {
    if source.log != [] && !(|source.log| <= limits.retainedItems && source.logBytes <= limits.retainedBytes) {
      var first := |source.log[0].data|;
      TrimContract(limits, source.(log := source.log[1..],
                                   logBytes := if first <= source.logBytes then source.logBytes - first else 0,
                                   truncated := true));
    }
  }

  lemma {:induction false} FilledIdentity(limits: Limits, subs: seq<Subscription>, entries: seq<Entry>)
    requires subs != []
    ensures
      var r, last := EnqueueLast(limits, subs, entries), |subs| - 1;
      |r| == |subs| && SameIdentity(subs[last], r[last])
    decreases |entries|
  {
    hide Enqueue, TabUsage;
    if entries != [] {
      var before := EnqueueLast(limits, subs, entries[..|entries| - 1]);
      FilledIdentity(limits, subs, entries[..|entries| - 1]);
      var last := |before| - 1;
      EnqueueIdentity(limits, before[last], TabUsage(before, before[last].client), entries[|entries| - 1]);
    }
  }

  lemma ExecuteContract(limits: Limits, host: Host, command: Command, key: nat)
    requires key in host.sources && HasSubscriber(host.subscriptions, key)
    ensures
      var next := Execute(limits, host, command);
      key in next.sources && next.sources[key].contract == host.sources[key].contract
  {
    hide Multicast, Append, EnqueueLast, Find, HasSubscriber, Acknowledge, Retained, OpenSource;
    if command.Emits? {
      AppendContract(limits, host.sources[key], command.entry);
    }
  }

  lemma {:induction false} ContractStays(limits: Limits, host: Host, later: seq<Command>, client: nat, id: nat,
                                         key: nat)
    requires HostInv(limits, host) && key in host.sources && Detaches(client, id) !in later
    requires
      var k := Find(host.subscriptions, client, id);
      k.Some? && host.subscriptions[k.value].source == key
    ensures
      var after := Broker.Run(limits, host, later);
      var k := Find(after.subscriptions, client, id);
      && HostInv(limits, after) && k.Some? && after.subscriptions[k.value].source == key
      && key in after.sources && after.sources[key].contract == host.sources[key].contract
    decreases |later|
  {
    hide HostInv, Find, Execute;
    if later != [] {
      var front, last := later[..|later| - 1], later[|later| - 1];
      ContractStays(limits, host, front, client, id, key);
      var before := Broker.Run(limits, host, front);
      ExecuteInv(limits, before, last);
      ExecuteLater(limits, before, last, client, id);
      ExecuteContract(limits, before, last, key);
    }
  }

  /**
   A tab that reattaches without having completed anything is owed everything the source has emitted, unless some of
   that was trimmed, or it has no room for all of it.
   */
  lemma ReattachWhole(limits: Limits, host: Host, client: nat, id: nat, key: nat)
    requires HostInv(limits, host) && key in host.sources && Find(host.subscriptions, client, id).None?
    ensures
      var source, usage := host.sources[key], TabUsage(host.subscriptions, client);
      var r := Attach(limits, host, client, id, key, source.contract, None, true, None).subscriptions;
      && |r| == |host.subscriptions| + 1
      && r[|host.subscriptions|].resumeRequired
         == (|source.log| < |source.history| || !Room(limits, usage, source.history))
      && (!r[|host.subscriptions|].resumeRequired ==> Due(r[|host.subscriptions|]) == source.history)
  {
    ReattachIff(limits, host, client, id, key, None);
    assert Suffix(limits, host.sources[key]);
    hide HostInv, Attach, Room, Due, Find, Bytes;
  }

  // ---------------------------------------------------------------------------------------------
  // As much as fits, and no more is dropped than has to be
  // ---------------------------------------------------------------------------------------------

  /** A batch takes at least one entry, and stops only at the end, at the item limit, or before an excess of bytes. */
  lemma LongestBatch(limits: Limits, pending: seq<Entry>)
    requires limits.Valid() && pending != []
    ensures
      var r := BatchLength(limits, pending, 0, 0);
      && 0 < r <= limits.batchItems
      && (r == |pending| || r == limits.batchItems || limits.batchBytes < Bytes(pending[..r + 1]))
  {
    LongestFrom(limits, pending, 0, 0);
  }

  lemma {:induction false} LongestFrom(limits: Limits, pending: seq<Entry>, n: nat, bytes: nat)
    requires n <= |pending| && bytes == Bytes(pending[..n]) && n <= limits.batchItems
    ensures
      var r := BatchLength(limits, pending, n, bytes);
      && r <= limits.batchItems && (n == 0 && n < limits.batchItems && n < |pending| ==> 0 < r)
      && (r == |pending| || r == limits.batchItems || limits.batchBytes < Bytes(pending[..r + 1]))
    decreases |pending| - n
  {
    if n < |pending| {
      BytesSnoc(pending[..n], pending[n]);
      assert pending[..n] + [pending[n]] == pending[..n + 1];
      if n < limits.batchItems && !(0 < n && limits.batchBytes < bytes + |pending[n].data|) {
        LongestFrom(limits, pending, n + 1, bytes + |pending[n].data|);
      }
    }
  }

  predicate Exceeds(limits: Limits, log: seq<Entry>) {
    limits.retainedItems < |log| || limits.retainedBytes < Bytes(log)
  }

  /** Entries were dropped from the front, and no more than had to be. */
  predicate LeastDropped(limits: Limits, before: seq<Entry>, after: seq<Entry>) {
    var dropped := |before| - |after|;
    && 0 <= dropped && after == before[dropped..] && !Exceeds(limits, after)
    && (0 < dropped ==> Exceeds(limits, before[dropped - 1..]))
  }

  lemma DropFirst(limits: Limits, before: seq<Entry>, after: seq<Entry>)
    requires before != [] && Exceeds(limits, before) && LeastDropped(limits, before[1..], after)
    ensures LeastDropped(limits, before, after)
  {
    hide Exceeds;
    var dropped := |before| - |after|;
    assert before[1..][dropped - 1..] == before[dropped..];
    if dropped > 1 {
      assert before[1..][dropped - 2..] == before[dropped - 1..];
    } else {
      assert before[0..] == before;
    }
  }

  lemma {:induction false} TrimLeast(limits: Limits, source: Source)
    requires source.logBytes == Bytes(source.log)
    ensures LeastDropped(limits, source.log, Trim(limits, source).log)
    decreases |source.log|
  {
    hide LeastDropped;
    if source.log == [] || (|source.log| <= limits.retainedItems && source.logBytes <= limits.retainedBytes) {
      NoneDropped(limits, source.log);
    } else {
      BytesRest(source.log);
      hide Bytes;
      var first := |source.log[0].data|;
      var rest := source.(log := source.log[1..], logBytes := source.logBytes - first, truncated := true);
      TrimLeast(limits, rest);
      DropFirst(limits, source.log, Trim(limits, rest).log);
    }
  }

  lemma NoneDropped(limits: Limits, log: seq<Entry>)
    requires log == [] || !Exceeds(limits, log)
    ensures LeastDropped(limits, log, log)
  {
    assert log[0..] == log;
  }

  /** What a source retains after an emission is the longest end of its log within both bounds. */
  lemma AppendKeepsMost(limits: Limits, source: Source, entry: Entry)
    requires Suffix(limits, source)
    ensures LeastDropped(limits, source.log + [entry], Append(limits, source, entry).log)
  {
    hide *;
    BytesSnoc(source.log, entry);
    CountedBytes(limits, source);
    AppendTrims(limits, source, entry);
    TrimLeast(limits, Appended(source, entry));
  }

  function Appended(source: Source, entry: Entry): (r: Source)
    ensures r.log == source.log + [entry] && r.logBytes == source.logBytes + |entry.data|
  {
    source.(history := source.history + [entry],
            log := source.log + [entry],
            logBytes := source.logBytes + |entry.data|)
  }

  lemma AppendTrims(limits: Limits, source: Source, entry: Entry)
    ensures Append(limits, source, entry) == Trim(limits, Appended(source, entry))
  {
    hide Trim;
  }

  lemma CountedBytes(limits: Limits, source: Source)
    requires Suffix(limits, source)
    ensures source.logBytes == Bytes(source.log)
  {
    hide Bytes, Tail;
  }
}
