/** The worker's own objects: queues and logs updated in place, proved against the functions of `Broker`. */
module BrokerWorker {
  import opened Prelude
  import opened Broker
  import opened BrokerInvariants

  lemma BatchLengthSteps(limits: Limits, queue: seq<Entry>, n: nat, bytes: nat)
    requires n <= |queue|
    ensures limits.batchItems <= n || n == |queue| || (0 < n && limits.batchBytes < bytes + |queue[n].data|)
        ==> BatchLength(limits, queue, n, bytes) == n
    ensures !(limits.batchItems <= n || n == |queue| || (0 < n && limits.batchBytes < bytes + |queue[n].data|))
        ==> BatchLength(limits, queue, n, bytes) == BatchLength(limits, queue, n + 1, bytes + |queue[n].data|)
  {
  }

  lemma Whole(queue: seq<Entry>)
    ensures queue[..0] == [] && queue[0..] == queue && Bytes([]) == 0
  {
  }

  lemma Shifted(queue: seq<Entry>, n: nat)
    requires n < |queue|
    ensures queue[n..][0] == queue[n] && queue[n..][1..] == queue[n + 1..] && queue[..n] + [queue[n]] == queue[..n + 1]
  {
  }

  lemma AppendGrows(limits: Limits, source: Source, entry: Entry)
    requires Suffix(limits, source)
    ensures Append(limits, source, entry)
         == Trim(limits, Source(source.contract, source.history + [entry], source.log + [entry],
                                source.logBytes + |entry.data|, source.truncated))
    ensures source.logBytes + |entry.data| == Bytes(source.log + [entry])
  {
    BytesSnoc(source.log, entry);
    assert source.logBytes == Bytes(source.log);
    hide Suffix, Trim, Bytes;
  }

  lemma TrimStops(limits: Limits, source: Source)
    requires source.log == [] || (|source.log| <= limits.retainedItems && source.logBytes <= limits.retainedBytes)
    ensures Trim(limits, source) == source
  {
  }

  /** One attached subscription. `posted` lists the batches handed to the tab's port. */
  class HostSubscription {
    const client: nat
    const id: nat
    const source: nat
    ghost const start: nat
    var pending: seq<Entry>
    var pendingBytes: nat
    var inflight: Option<Batch>
    var nextBatchId: nat
    var lastCursor: Option<Cursor>
    var resumeRequired: bool
    var posted: seq<seq<Entry>>

    constructor (client: nat, id: nat, source: nat, resumeAfter: Option<Cursor>, ghost start: nat)
      ensures View() == NewSubscription(client, id, source, resumeAfter, start) && Valid()
    {
      this.client, this.id, this.source, this.start := client, id, source, start;
      pending, pendingBytes, inflight, nextBatchId := [], 0, None, 1;
      lastCursor, resumeRequired, posted := resumeAfter, false, [];
    }

    ghost function View(): Subscription
      reads this
    {
      Subscription(client, id, source, pending, pendingBytes, inflight, nextBatchId, lastCursor, resumeRequired,
                   start, posted)
    }

    ghost predicate Valid()
      reads this
    {
      pendingBytes == Bytes(pending)
    }

    /** Moves the next batch out of the queue. */
    method TakeBatch(limits: Limits) returns (entries: seq<Entry>, bytes: nat)
      requires Valid()
      modifies this`pending, this`pendingBytes
      ensures Valid() && bytes == Bytes(entries)
      ensures |entries| == BatchLength(limits, old(pending), 0, 0) && entries == old(pending)[..|entries|]
      ensures pending == old(pending)[|entries|..]
    {
      ghost var queue := pending;
      entries, bytes := [], 0;
      hide *;
      Whole(queue);
      while |entries| < limits.batchItems && pending != []
        invariant |entries| <= |queue| && entries == queue[..|entries|] && pending == queue[|entries|..]
        invariant bytes == Bytes(entries) && pendingBytes == Bytes(pending)
        invariant BatchLength(limits, queue, 0, 0) == BatchLength(limits, queue, |entries|, bytes)
        decreases |pending|
      {
        var next := pending[0];
        Shifted(queue, |entries|);
        BatchLengthSteps(limits, queue, |entries|, bytes);
        if entries != [] && limits.batchBytes < bytes + |next.data| {
          break;
        }
        BytesRest(pending);
        BytesSnoc(entries, next);
        pending := pending[1..];
        pendingBytes := pendingBytes - |next.data|;
        entries := entries + [next];
        bytes := bytes + |next.data|;
      }
      BatchLengthSteps(limits, queue, |entries|, bytes);
    }

    method Flush(limits: Limits)
      requires Valid()
      modifies this
      ensures Valid() && View() == Broker.Flush(limits, old(View()))
    {
      if resumeRequired || inflight.Some? || pending == [] {
        return;
      }
      hide Bytes, BatchLength;
      var entries, bytes := TakeBatch(limits);
      var cursor := if entries == [] then None else entries[|entries| - 1].cursor;
      inflight := Some(Batch(nextBatchId, entries, bytes, cursor));
      nextBatchId := nextBatchId + 1;
      posted := posted + [entries];
    }

    method RequireResume()
      modifies this
      ensures Valid() && View() == Broker.RequireResume(old(View()))
    {
      resumeRequired, pending, pendingBytes, inflight := true, [], 0, None;
    }

    method Enqueue(limits: Limits, usage: Usage, entry: Entry)
      requires Valid()
      modifies this
      ensures Valid() && View() == Broker.Enqueue(limits, old(View()), usage, entry)
    {
      if resumeRequired {
        return;
      }
      if limits.batchBytes < |entry.data| || limits.tabItems < usage.items + 1
         || limits.tabBytes < usage.bytes + |entry.data|
      {
        RequireResume();
        return;
      }
      BytesSnoc(pending, entry);
      pending := pending + [entry];
      pendingBytes := pendingBytes + |entry.data|;
      Flush(limits);
    }

    /** A refused acknowledgement changes nothing. */
    method Acknowledge(limits: Limits, batch: nat, cursor: Option<Cursor>) returns (reply: Reply)
      requires Valid()
      modifies this
      ensures Valid()
      ensures reply == (if old(inflight).None? || old(inflight).value.id != batch then NotInFlight
                        else if old(inflight).value.cursor != cursor then CursorMismatch
                        else Accepted)
      ensures View() == if reply.Accepted? then Broker.Acknowledge(limits, old(View()), cursor) else old(View())
    {
      if inflight.None? || inflight.value.id != batch {
        return NotInFlight;
      }
      if inflight.value.cursor != cursor {
        return CursorMismatch;
      }
      lastCursor, inflight := cursor, None;
      Flush(limits);
      return Accepted;
    }
  }

  /** One physical source with the log it retains. */
  class PhysicalSource {
    const contract: nat
    ghost var history: seq<Entry>
    var log: seq<Entry>
    var logBytes: nat
    var truncated: bool

    constructor (contract: nat)
      ensures View() == Source(contract, [], [], 0, false)
    {
      this.contract := contract;
      history, log, logBytes, truncated := [], [], 0, false;
    }

    ghost function View(): Source
      reads this
    {
      Source(contract, history, log, logBytes, truncated)
    }

    method Append(limits: Limits, entry: Entry)
      requires Suffix(limits, View())
      modifies this
      ensures Suffix(limits, View()) && View() == Broker.Append(limits, old(View()), entry)
    {
      hide Bytes, Suffix, Trim, Broker.Append;
      AppendSuffix(limits, View(), entry);
      AppendGrows(limits, View(), entry);
      history := history + [entry];
      log := log + [entry];
      logBytes := logBytes + |entry.data|;
      TrimLog(limits);
    }

    method TrimLog(limits: Limits)
      requires logBytes == Bytes(log)
      modifies this
      ensures View() == Trim(limits, old(View()))
    {
      hide Trim, Bytes;
      while limits.retainedItems < |log| || limits.retainedBytes < logBytes
        invariant logBytes == Bytes(log) && Trim(limits, View()) == Trim(limits, old(View()))
        decreases |log|
      {
        if log == [] {
          break;
        }
        BytesRest(log);
        TrimShifts(limits, View());
        var removed := log[0];
        log := log[1..];
        logBytes := logBytes - |removed.data|;
        truncated := true;
      }
      TrimStops(limits, View());
    }
  }

  /** A tab's view of the whole worker needs only the subscriptions and the log that is being appended to. */
  class Worker {
    const limits: Limits
    var subscriptions: seq<HostSubscription>

    constructor (limits: Limits)
      ensures this.limits == limits && subscriptions == []
    {
      this.limits, subscriptions := limits, [];
    }

    ghost function Views(): (r: seq<Subscription>)
      reads this, subscriptions
    {
      seq(|subscriptions|, i requires 0 <= i < |subscriptions| reads this, subscriptions => subscriptions[i].View())
    }

    /** Objects are not shared, and each counts its queue correctly. */
    ghost predicate Valid()
      reads this, subscriptions
    {
      && (forall i, j :: 0 <= i < j < |subscriptions| ==> subscriptions[i] != subscriptions[j])
      && (forall i :: 0 <= i < |subscriptions| ==> subscriptions[i].Valid())
    }

    method ClientUsage(client: nat) returns (usage: Usage)
      requires Valid()
      ensures usage == TabUsage(Views(), client)
    {
      var items: nat, bytes: nat := 0, 0;
      var i := 0;
      while i < |subscriptions|
        invariant 0 <= i <= |subscriptions|
        invariant Usage(items, bytes) == TabUsage(Views()[..i], client)
      {
        var sub := subscriptions[i];
        UsageSnoc(Views()[..i], sub.View(), client);
        assert Views()[..i + 1] == Views()[..i] + [sub.View()];
        if sub.client == client {
          items := items + |sub.pending| + (if sub.inflight.Some? then |sub.inflight.value.entries| else 0);
          bytes := bytes + sub.pendingBytes + (if sub.inflight.Some? then sub.inflight.value.bytes else 0);
        }
        i := i + 1;
      }
      assert Views()[..i] == Views();
      return Usage(items, bytes);
    }

    method EnqueueOne(k: nat, entry: Entry)
      requires Valid() && k < |subscriptions|
      modifies subscriptions[k]
      ensures Valid() && Views() == EnqueueAt(limits, old(Views()), k, entry)
    {
      var usage := ClientUsage(subscriptions[k].client);
      subscriptions[k].Enqueue(limits, usage, entry);
    }

    /** Appends a delivery to the source's log, then offers it to every subscription of that source. */
    method Deliver(source: PhysicalSource, key: nat, entry: Entry)
      requires Valid() && Suffix(limits, source.View())
      modifies source, subscriptions
      ensures Valid() && source.View() == Broker.Append(limits, old(source.View()), entry)
      ensures Views() == Multicast(limits, old(Views()), key, entry, |old(Views())|)
    {
      hide Suffix, Broker.Append, EnqueueAt;
      source.Append(limits, entry);
      var i := 0;
      while i < |subscriptions|
        invariant 0 <= i <= |subscriptions| == |old(subscriptions)|
        invariant Valid() && subscriptions == old(subscriptions)
        invariant source.View() == Broker.Append(limits, old(source.View()), entry)
        invariant Views() == Multicast(limits, old(Views()), key, entry, i)
      {
        if subscriptions[i].source == key {
          EnqueueOne(i, entry);
        }
        i := i + 1;
      }
    }

    /** Fills the queue of the last subscription from the log, or tells it to resume. */
    method EnqueueRetained(source: PhysicalSource, resumeAfter: Option<Cursor>)
      requires Valid() && subscriptions != []
      modifies subscriptions
      ensures Valid() && subscriptions == old(subscriptions)
      ensures source.View() == old(source.View())
      ensures
        var last := |subscriptions| - 1;
        match Retained(source.View(), resumeAfter)
        case None => Views() == old(Views())[last := Broker.RequireResume(old(Views())[last])]
        case Some(entries) => Views() == EnqueueLast(limits, old(Views()), entries)
    {
      var last := |subscriptions| - 1;
      var from := 0;
      if resumeAfter.None? {
        if source.truncated {
          subscriptions[last].RequireResume();
          return;
        }
      } else {
        var index := FindCursor(source.log, resumeAfter.value);
        if index.None? {
          subscriptions[last].RequireResume();
          return;
        }
        from := index.value + 1;
      }
      var entries := source.log[from..];
      assert Retained(source.View(), resumeAfter) == Some(entries);
      hide *;
      Refill(entries);
    }

    /** Offers entries one after the other to the last subscription. */
    method Refill(entries: seq<Entry>)
      requires Valid() && subscriptions != []
      modifies subscriptions
      ensures Valid() && subscriptions == old(subscriptions)
      ensures Views() == EnqueueLast(limits, old(Views()), entries)
    {
      hide EnqueueAt;
      var i := 0;
      while i < |entries|
        invariant 0 <= i <= |entries|
        invariant Valid() && subscriptions == old(subscriptions)
        invariant Views() == EnqueueLast(limits, old(Views()), entries[..i])
      {
        assert entries[..i + 1][..i] == entries[..i];
        EnqueueOne(|subscriptions| - 1, entries[i]);
        i := i + 1;
      }
      assert entries[..i] == entries;
    }
  }
}
