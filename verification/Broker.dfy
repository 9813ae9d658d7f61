/**
 The browser broker's worker: one retained log per physical source, and per attached subscription a queue with
 at most one batch in flight. Tabs share nothing but the log, and a tab that falls behind is told to resume.
 */
module Broker {
  import opened Prelude

  type Byte = b: nat | b < 256

  datatype Cursor = Cursor(stream: string, epoch: Option<string>, sequence: nat)

  datatype Entry = Entry(data: seq<Byte>, cursor: Option<Cursor>)

  datatype Limits = Limits(
    tabItems: nat, tabBytes: nat, retainedItems: nat, retainedBytes: nat, batchItems: nat, batchBytes: nat)
  {
    predicate Valid() {
      0 < tabItems && 0 < tabBytes && 0 < retainedItems && 0 < retainedBytes && 0 < batchItems && 0 < batchBytes
    }
  }

  datatype Batch = Batch(id: nat, entries: seq<Entry>, bytes: nat, cursor: Option<Cursor>)

  /**
   A subscription, with two histories: `start` is the number of entries its source had emitted before the first
   one due to it, and `sent` lists the batches posted to the tab.
   */
  datatype Subscription = Subscription(
    client: nat,
    id: nat,
    source: nat,
    pending: seq<Entry>,
    pendingBytes: nat,
    inflight: Option<Batch>,
    nextBatchId: nat,
    lastCursor: Option<Cursor>,
    resumeRequired: bool,
    start: nat,
    sent: seq<seq<Entry>>)

  /** A physical source: what it emitted, and the end of that which the worker still retains. */
  datatype Source = Source(contract: nat, history: seq<Entry>, log: seq<Entry>, logBytes: nat, truncated: bool)

  datatype Host = Host(sources: map<nat, Source>, subscriptions: seq<Subscription>)

  function Bytes(entries: seq<Entry>): nat {
    if entries == [] then 0 else Bytes(entries[..|entries| - 1]) + |entries[|entries| - 1].data|
  }

  // ---------------------------------------------------------------------------------------------
  // The retained log
  // ---------------------------------------------------------------------------------------------

  /** Drops from the front until both retention bounds hold. */
  function Trim(limits: Limits, source: Source): Source
    decreases |source.log|
  {
    if source.log == [] || (|source.log| <= limits.retainedItems && source.logBytes <= limits.retainedBytes) then source
    else
      var first := |source.log[0].data|;
      Trim(limits, source.(log := source.log[1..],
                           logBytes := if first <= source.logBytes then source.logBytes - first else 0,
                           truncated := true))
  }

  function Append(limits: Limits, source: Source, entry: Entry): Source {
    Trim(limits, source.(history := source.history + [entry],
                         log := source.log + [entry],
                         logBytes := source.logBytes + |entry.data|))
  }

  // ---------------------------------------------------------------------------------------------
  // One subscription
  // ---------------------------------------------------------------------------------------------

  /** How many pending entries the next batch takes, once it has taken `n` of `bytes` bytes. */
  function BatchLength(limits: Limits, pending: seq<Entry>, n: nat, bytes: nat): (r: nat)
    requires n <= |pending|
    ensures n <= r <= |pending|
    decreases |pending| - n
  {
    if limits.batchItems <= n || n == |pending| || (0 < n && limits.batchBytes < bytes + |pending[n].data|) then n
    else BatchLength(limits, pending, n + 1, bytes + |pending[n].data|)
  }

  /** Posts the next batch when none is in flight. */
  function Flush(limits: Limits, sub: Subscription): Subscription {
    if sub.resumeRequired || sub.inflight.Some? || sub.pending == [] then sub
    else
      var n := BatchLength(limits, sub.pending, 0, 0);
      var entries, rest := sub.pending[..n], sub.pending[n..];
      var cursor := if entries == [] then None else entries[|entries| - 1].cursor;
      sub.(pending := rest,
           pendingBytes := Bytes(rest),
           inflight := Some(Batch(sub.nextBatchId, entries, Bytes(entries), cursor)),
           nextBatchId := sub.nextBatchId + 1,
           sent := sub.sent + [entries])
  }

  function RequireResume(sub: Subscription): Subscription {
    sub.(resumeRequired := true, pending := [], pendingBytes := 0, inflight := None)
  }

  datatype Usage = Usage(items: nat, bytes: nat)

  predicate Fits(limits: Limits, usage: Usage, entry: Entry) {
    && |entry.data| <= limits.batchBytes
    && usage.items + 1 <= limits.tabItems
    && usage.bytes + |entry.data| <= limits.tabBytes
  }

  function Enqueue(limits: Limits, sub: Subscription, usage: Usage, entry: Entry): Subscription {
    if sub.resumeRequired then sub
    else if !Fits(limits, usage, entry) then RequireResume(sub)
    else Flush(limits, sub.(pending := sub.pending + [entry], pendingBytes := sub.pendingBytes + |entry.data|))
  }

  function Outstanding(sub: Subscription): Usage {
    match sub.inflight
    case None => Usage(|sub.pending|, sub.pendingBytes)
    case Some(batch) => Usage(|sub.pending| + |batch.entries|, sub.pendingBytes + batch.bytes)
  }

  /** Everything outstanding for one tab, over all its subscriptions. */
  function TabUsage(subs: seq<Subscription>, client: nat): Usage {
    if subs == [] then Usage(0, 0)
    else
      var front, last := TabUsage(subs[..|subs| - 1], client), subs[|subs| - 1];
      if last.client != client then front
      else Usage(front.items + Outstanding(last).items, front.bytes + Outstanding(last).bytes)
  }

  // ---------------------------------------------------------------------------------------------
  // The host
  // ---------------------------------------------------------------------------------------------

  function EnqueueAt(limits: Limits, subs: seq<Subscription>, k: nat, entry: Entry): seq<Subscription>
    requires k < |subs|
  {
    subs[k := Enqueue(limits, subs[k], TabUsage(subs, subs[k].client), entry)]
  }

  /** Offers an entry to the first `k` subscriptions of a source, in the order in which they attached. */
  function Multicast(limits: Limits, subs: seq<Subscription>, source: nat, entry: Entry, k: nat): (r: seq<Subscription>)
    requires k <= |subs|
    ensures |r| == |subs|
  {
    if k == 0 then subs
    else
      var before := Multicast(limits, subs, source, entry, k - 1);
      if before[k - 1].source == source then EnqueueAt(limits, before, k - 1, entry) else before
  }

  function Emit(limits: Limits, host: Host, key: nat, entry: Entry): Host {
    if key !in host.sources then host
    else Host(host.sources[key := Append(limits, host.sources[key], entry)],
              Multicast(limits, host.subscriptions, key, entry, |host.subscriptions|))
  }

  /** The first index in the log whose entry carries the cursor. */
  function FindCursor(log: seq<Entry>, cursor: Cursor): (r: Option<nat>)
    ensures r.Some? ==> r.value < |log| && log[r.value].cursor == Some(cursor)
    ensures r.None? ==> forall i :: 0 <= i < |log| ==> log[i].cursor != Some(cursor)
    ensures r.Some? ==> forall i :: 0 <= i < r.value ==> log[i].cursor != Some(cursor)
  {
    if log == [] then None
    else if log[0].cursor == Some(cursor) then Some(0)
    else
      match FindCursor(log[1..], cursor)
      case None => None
      case Some(i) => Some(i + 1)
  }

  /** How much of the log is due to a reattaching tab, or nothing when its position is no longer retained. */
  function Retained(source: Source, resumeAfter: Option<Cursor>): Option<seq<Entry>> {
    match resumeAfter
    case None => if source.truncated then None else Some(source.log)
    case Some(cursor) =>
      match FindCursor(source.log, cursor)
      case None => None
      case Some(i) => Some(source.log[i + 1..])
  }

  /** Offers entries one after the other to the last subscription. */
  function EnqueueLast(limits: Limits, subs: seq<Subscription>, entries: seq<Entry>): (r: seq<Subscription>)
    requires subs != []
    ensures |r| == |subs|
  {
    if entries == [] then subs
    else
      var before := EnqueueLast(limits, subs, entries[..|entries| - 1]);
      EnqueueAt(limits, before, |before| - 1, entries[|entries| - 1])
  }

  function Find(subs: seq<Subscription>, client: nat, id: nat): (r: Option<nat>)
    ensures r.Some? ==> r.value < |subs| && subs[r.value].client == client && subs[r.value].id == id
    ensures r.None? ==> forall i :: 0 <= i < |subs| ==> subs[i].client != client || subs[i].id != id
  {
    if subs == [] then None
    else
      var last := |subs| - 1;
      if subs[last].client == client && subs[last].id == id then Some(last) else Find(subs[..last], client, id)
  }

  datatype Command =
    | Emits(source: nat, entry: Entry)
      /** `first` is the value the session already holds when this attachment has to open the source. */
    | Attaches(client: nat, id: nat, source: nat, contract: nat, resumeAfter: Option<Cursor>, reattach: bool,
               first: Option<Entry>)
    | Acks(client: nat, id: nat, batch: nat, cursor: Option<Cursor>)
    | Detaches(client: nat, id: nat)
    | TearsDown(source: nat)

  datatype Reply = Accepted | SubscriptionExists | ContractMismatch | SubscriptionMissing | NotInFlight | CursorMismatch

  function Answer(host: Host, command: Command): Reply {
    match command
    case Attaches(client, id, source, contract, _, _, _) =>
      if Find(host.subscriptions, client, id).Some? then SubscriptionExists
      else if source in host.sources && host.sources[source].contract != contract then ContractMismatch
      else Accepted
    case Acks(client, id, batch, cursor) =>
      (match Find(host.subscriptions, client, id)
       case None => SubscriptionMissing
       case Some(k) =>
         var inflight := host.subscriptions[k].inflight;
         if inflight.None? || inflight.value.id != batch then NotInFlight
         else if inflight.value.cursor != cursor then CursorMismatch
         else Accepted)
    case Detaches(client, id) =>
      if Find(host.subscriptions, client, id).None? then SubscriptionMissing else Accepted
    case _ => Accepted
  }

  function OpenSource(limits: Limits, contract: nat, first: Option<Entry>): Source {
    var empty := Source(contract, [], [], 0, false);
    if first.Some? then Append(limits, empty, first.value) else empty
  }

  function NewSubscription(client: nat, id: nat, source: nat, resumeAfter: Option<Cursor>, start: nat): Subscription {
    Subscription(client, id, source, [], 0, None, 1, resumeAfter, false, start, [])
  }

  function Attach(limits: Limits, host: Host, client: nat, id: nat, key: nat, contract: nat,
                  resumeAfter: Option<Cursor>, reattach: bool, first: Option<Entry>): Host
  {
    if key !in host.sources then
      var source := OpenSource(limits, contract, first);
      Host(host.sources[key := source],
           host.subscriptions + [NewSubscription(client, id, key, resumeAfter, |source.history|)])
    else
      var source := host.sources[key];
      var emitted := |source.history|;
      if !reattach then
        host.(subscriptions := host.subscriptions + [NewSubscription(client, id, key, resumeAfter, emitted)])
      else
        match Retained(source, resumeAfter)
        case None =>
          var joined := NewSubscription(client, id, key, resumeAfter, emitted);
          host.(subscriptions := host.subscriptions + [RequireResume(joined)])
        case Some(entries) =>
          var start := if |entries| <= emitted then emitted - |entries| else 0;
          host.(subscriptions :=
            EnqueueLast(limits, host.subscriptions + [NewSubscription(client, id, key, resumeAfter, start)], entries))
  }

  function Acknowledge(limits: Limits, sub: Subscription, cursor: Option<Cursor>): Subscription {
    Flush(limits, sub.(lastCursor := cursor, inflight := None))
  }

  predicate HasSubscriber(subs: seq<Subscription>, source: nat) {
    exists i :: 0 <= i < |subs| && subs[i].source == source
  }

  function Execute(limits: Limits, host: Host, command: Command): Host {
    if !Answer(host, command).Accepted? then host
    else
      match command
      case Emits(source, entry) => Emit(limits, host, source, entry)
      case Attaches(client, id, source, contract, resumeAfter, reattach, first) =>
        Attach(limits, host, client, id, source, contract, resumeAfter, reattach, first)
      case Acks(client, id, _, cursor) =>
        var k := Find(host.subscriptions, client, id).value;
        host.(subscriptions := host.subscriptions[k := Acknowledge(limits, host.subscriptions[k], cursor)])
      case Detaches(client, id) =>
        var k := Find(host.subscriptions, client, id).value;
        host.(subscriptions := host.subscriptions[..k] + host.subscriptions[k + 1..])
      case TearsDown(source) =>
        if HasSubscriber(host.subscriptions, source) then host else host.(sources := host.sources - {source})
  }

  function Run(limits: Limits, host: Host, commands: seq<Command>): Host {
    if commands == [] then host
    else Execute(limits, Run(limits, host, commands[..|commands| - 1]), commands[|commands| - 1])
  }
}
