/** What holds of the worker in every reachable state: exact queues, bounded tabs, and a log that is a suffix. */
module BrokerInvariants {
  import opened Prelude
  import opened Broker

  // ---------------------------------------------------------------------------------------------
  // Definitions
  // ---------------------------------------------------------------------------------------------

  /** The last emissions, none missing. */
  predicate Tail(entries: seq<Entry>, history: seq<Entry>) {
    |entries| <= |history| && entries == history[|history| - |entries|..]
  }

  /** The log is the end of what was emitted, inside both retention bounds. */
  ghost predicate Suffix(limits: Limits, source: Source) {
    && Tail(source.log, source.history)
    && source.logBytes == Bytes(source.log)
    && |source.log| <= limits.retainedItems
    && source.logBytes <= limits.retainedBytes
    && (source.truncated <==> |source.log| < |source.history|)
  }

  ghost predicate BatchFits(limits: Limits, entries: seq<Entry>) {
    entries != [] && |entries| <= limits.batchItems && Bytes(entries) <= limits.batchBytes
  }

  /** The batch in flight is the last one posted, under the last identifier. */
  ghost predicate InFlight(sub: Subscription) {
    && sub.nextBatchId == |sub.sent| + 1
    && (sub.inflight.Some? ==>
          && sub.sent != []
          && sub.inflight.value.id == |sub.sent|
          && sub.inflight.value.entries == sub.sent[|sub.sent| - 1]
          && sub.inflight.value.bytes == Bytes(sub.inflight.value.entries)
          && (sub.inflight.value.entries != [] ==>
                sub.inflight.value.cursor == sub.inflight.value.entries[|sub.inflight.value.entries| - 1].cursor))
  }

  ghost predicate Small(limits: Limits, entries: seq<Entry>) {
    forall i :: 0 <= i < |entries| ==> |entries[i].data| <= limits.batchBytes
  }

  /** Everything posted and everything queued, in order. */
  function Due(sub: Subscription): seq<Entry> {
    Flatten(sub.sent) + sub.pending
  }

  /** What was posted and what is queued are the consecutive emissions since the starting point. */
  ghost predicate Exact(history: seq<Entry>, sub: Subscription) {
    && sub.start <= |history|
    && if sub.resumeRequired
       then sub.pending == [] && sub.inflight.None? && Flatten(sub.sent) <= history[sub.start..]
       else Due(sub) == history[sub.start..]
  }

  ghost predicate Bounded(limits: Limits, sub: Subscription) {
    && sub.pendingBytes == Bytes(sub.pending)
    && Small(limits, sub.pending)
    && (sub.pending != [] ==> sub.inflight.Some?)
    && forall i :: 0 <= i < |sub.sent| ==> BatchFits(limits, sub.sent[i])
  }

  ghost predicate SubscriptionInv(limits: Limits, history: seq<Entry>, sub: Subscription) {
    InFlight(sub) && Exact(history, sub) && Bounded(limits, sub)
  }

  // ---------------------------------------------------------------------------------------------
  // The retained log
  // ---------------------------------------------------------------------------------------------

  lemma {:induction false} BytesRest(entries: seq<Entry>)
    requires entries != []
    ensures Bytes(entries) == |entries[0].data| + Bytes(entries[1..])
    decreases |entries|
  {
    if |entries| > 1 {
      var front := entries[..|entries| - 1];
      BytesRest(front);
      assert entries[1..][..|entries| - 2] == front[1..];
    }
  }

  lemma BytesSnoc(entries: seq<Entry>, entry: Entry)
    ensures Bytes(entries + [entry]) == Bytes(entries) + |entry.data|
  {
    assert (entries + [entry])[..|entries|] == entries;
  }

  lemma {:induction false} BytesConcat(a: seq<Entry>, b: seq<Entry>)
    ensures Bytes(a + b) == Bytes(a) + Bytes(b)
    decreases |b|
  {
    if b == [] {
      assert a + b == a;
    } else {
      assert a + b == (a + b[..|b| - 1]) + [b[|b| - 1]];
      BytesSnoc(a + b[..|b| - 1], b[|b| - 1]);
      BytesConcat(a, b[..|b| - 1]);
    }
  }

  /** A log that is a suffix but perhaps too long. */
  ghost predicate Long(source: Source) {
    && Tail(source.log, source.history)
    && source.logBytes == Bytes(source.log)
    && (source.truncated <==> |source.log| < |source.history|)
  }

  lemma TailDrop(log: seq<Entry>, history: seq<Entry>, n: nat)
    requires Tail(log, history) && n <= |log|
    ensures Tail(log[n..], history)
    ensures n > 0 ==> history[|history| - |log[n..]| - 1] == log[n - 1]
  {
    var rest, from := log[n..], |history| - |log| + n;
    assert |rest| == |history[from..]|;
    assert forall i :: 0 <= i < |rest| ==> rest[i] == log[n + i] && log[n + i] == history[from + i];
    assert rest == history[from..];
  }

  lemma TailWhole(log: seq<Entry>, history: seq<Entry>)
    requires Tail(log, history)
    ensures |log| == |history| ==> log == history
  {
  }

  lemma TailLength(log: seq<Entry>, history: seq<Entry>)
    requires Tail(log, history)
    ensures |log| <= |history|
  {
  }

  lemma TailSnoc(log: seq<Entry>, history: seq<Entry>, entry: Entry)
    requires Tail(log, history)
    ensures Tail(log + [entry], history + [entry])
  {
    DropSnoc(history, |history| - |log|, entry);
  }

  lemma DropSnoc(history: seq<Entry>, n: nat, entry: Entry)
    requires n <= |history|
    ensures (history + [entry])[n..] == history[n..] + [entry]
  {
  }

  /** The log without its first entry. */
  function Shift(source: Source): Source
    requires source.log != []
  {
    source.(log := source.log[1..], logBytes := Bytes(source.log[1..]), truncated := true)
  }

  lemma TrimShifts(limits: Limits, source: Source)
    requires source.log != [] && source.logBytes == Bytes(source.log)
    requires limits.retainedItems < |source.log| || limits.retainedBytes < source.logBytes
    ensures Trim(limits, source) == Trim(limits, Shift(source))
  {
    BytesRest(source.log);
    hide Bytes;
  }

  lemma ShiftLong(source: Source)
    requires source.log != [] && Long(source)
    ensures Long(Shift(source))
  {
    hide Tail, Bytes;
    TailDrop(source.log, source.history, 1);
    TailLength(source.log, source.history);
  }

  lemma {:induction false} TrimSuffix(limits: Limits, source: Source)
    requires Long(source)
    ensures Suffix(limits, Trim(limits, source))
    ensures Trim(limits, source).history == source.history && Trim(limits, source).contract == source.contract
    decreases |source.log|
  {
    hide Bytes, Tail;
    if source.log == [] || (|source.log| <= limits.retainedItems && source.logBytes <= limits.retainedBytes) {
      hide *;
      TrimRests(limits, source);
    } else {
      TrimShifts(limits, source);
      ShiftLong(source);
      assert |Shift(source).log| < |source.log| && Shift(source).history == source.history;
      assert Shift(source).contract == source.contract;
      hide *;
      TrimSuffix(limits, Shift(source));
    }
  }

  lemma TrimRests(limits: Limits, source: Source)
    requires Long(source)
    requires source.log == [] || (|source.log| <= limits.retainedItems && source.logBytes <= limits.retainedBytes)
    ensures Trim(limits, source) == source && Suffix(limits, source)
  {
  }

  lemma AppendSuffix(limits: Limits, source: Source, entry: Entry)
    requires Suffix(limits, source)
    ensures Suffix(limits, Append(limits, source, entry))
    ensures Append(limits, source, entry).history == source.history + [entry]
    ensures Append(limits, source, entry).contract == source.contract
  {
    hide Trim, Bytes, Tail;
    var grown := source.(history := source.history + [entry],
                         log := source.log + [entry],
                         logBytes := source.logBytes + |entry.data|);
    assert Tail(source.log, source.history);
    assert Append(limits, source, entry) == Trim(limits, grown);
    assert Long(grown) by {
      BytesSnoc(source.log, entry);
      TailSnoc(source.log, source.history, entry);
    }
    hide Suffix, Append, Long;
    TrimSuffix(limits, grown);
  }

  // ---------------------------------------------------------------------------------------------
  // One subscription
  // ---------------------------------------------------------------------------------------------

  lemma {:induction false} BatchLengthFits(limits: Limits, pending: seq<Entry>, n: nat, bytes: nat)
    requires limits.Valid() && n <= |pending| && n <= limits.batchItems && bytes == Bytes(pending[..n])
    requires Small(limits, pending) && bytes <= limits.batchBytes && pending != []
    ensures var r := BatchLength(limits, pending, n, bytes);
      0 < r <= limits.batchItems && Bytes(pending[..r]) <= limits.batchBytes
    decreases |pending| - n
  {
    if n < limits.batchItems && n < |pending| && !(0 < n && limits.batchBytes < bytes + |pending[n].data|) {
      BytesSnoc(pending[..n], pending[n]);
      assert pending[..n + 1] == pending[..n] + [pending[n]];
      BatchLengthFits(limits, pending, n + 1, bytes + |pending[n].data|);
    }
  }

  /** A subscription whose queue may still have to be flushed. */
  ghost predicate Queued(limits: Limits, history: seq<Entry>, sub: Subscription) {
    && InFlight(sub) && Exact(history, sub)
    && sub.pendingBytes == Bytes(sub.pending)
    && Small(limits, sub.pending)
    && forall i :: 0 <= i < |sub.sent| ==> BatchFits(limits, sub.sent[i])
  }

  /** Moving a prefix of the queue into a posted batch changes nothing that is due. */
  lemma PostKeepsDue(sent: seq<seq<Entry>>, entries: seq<Entry>, rest: seq<Entry>)
    ensures Flatten(sent + [entries]) + rest == Flatten(sent) + (entries + rest)
  {
    FlattenSnoc(sent, entries);
  }

  /** The subscription once `n` pending entries have been posted. */
  function Post(sub: Subscription, n: nat): Subscription
    requires n <= |sub.pending|
  {
    var entries, rest := sub.pending[..n], sub.pending[n..];
    var cursor := if entries == [] then None else entries[|entries| - 1].cursor;
    sub.(pending := rest,
         pendingBytes := Bytes(rest),
         inflight := Some(Batch(sub.nextBatchId, entries, Bytes(entries), cursor)),
         nextBatchId := sub.nextBatchId + 1,
         sent := sub.sent + [entries])
  }

  lemma PostExact(history: seq<Entry>, sub: Subscription, n: nat)
    requires n <= |sub.pending| && !sub.resumeRequired && Exact(history, sub)
    ensures Exact(history, Post(sub, n))
  {
    var entries, rest := sub.pending[..n], sub.pending[n..];
    assert sub.pending == entries + rest;
    hide Bytes, Flatten;
    PostKeepsDue(sub.sent, entries, rest);
  }

  lemma PostBounded(limits: Limits, history: seq<Entry>, sub: Subscription, n: nat)
    requires Queued(limits, history, sub) && n <= |sub.pending| && BatchFits(limits, sub.pending[..n])
    ensures Bounded(limits, Post(sub, n)) && InFlight(Post(sub, n))
  {
    hide Bytes, BatchFits, Exact;
    assert forall i :: 0 <= i < |sub.pending| - n ==> sub.pending[n..][i] == sub.pending[n + i];
  }

  lemma FlushInv(limits: Limits, history: seq<Entry>, sub: Subscription)
    requires limits.Valid() && Queued(limits, history, sub)
    ensures SubscriptionInv(limits, history, Flush(limits, sub))
    ensures Outstanding(Flush(limits, sub)) == Outstanding(sub)
  {
    if !sub.resumeRequired && sub.inflight.None? && sub.pending != [] {
      var n := BatchLength(limits, sub.pending, 0, 0);
      BatchLengthFits(limits, sub.pending, 0, 0);
      assert Flush(limits, sub) == Post(sub, n);
      assert sub.pending == sub.pending[..n] + sub.pending[n..];
      BytesConcat(sub.pending[..n], sub.pending[n..]);
      hide Bytes, Flatten, Flush, Queued, Small, Due, Bounded, InFlight, Exact;
      assert Outstanding(Post(sub, n)) == Outstanding(sub);
      hide Post, Outstanding;
      PostExact(history, sub, n);
      PostBounded(limits, history, sub, n);
    }
  }

  lemma RequireResumeInv(limits: Limits, history: seq<Entry>, sub: Subscription)
    requires SubscriptionInv(limits, history, sub)
    ensures SubscriptionInv(limits, history, RequireResume(sub))
  {
  }

  lemma EmittedMore(limits: Limits, history: seq<Entry>, sub: Subscription, entry: Entry)
    requires SubscriptionInv(limits, history, sub) && sub.resumeRequired
    ensures SubscriptionInv(limits, history + [entry], sub)
  {
    assert (history + [entry])[sub.start..] == history[sub.start..] + [entry];
  }

  lemma PushQueued(limits: Limits, history: seq<Entry>, sub: Subscription, entry: Entry)
    requires SubscriptionInv(limits, history, sub) && !sub.resumeRequired && |entry.data| <= limits.batchBytes
    ensures Queued(limits, history + [entry],
                   sub.(pending := sub.pending + [entry], pendingBytes := sub.pendingBytes + |entry.data|))
  {
    BytesSnoc(sub.pending, entry);
    assert (history + [entry])[sub.start..] == history[sub.start..] + [entry];
    assert Flatten(sub.sent) + (sub.pending + [entry]) == (Flatten(sub.sent) + sub.pending) + [entry];
  }

  /** An offered entry extends what is due, or ends the subscription; it never leaves a gap. */
  lemma EnqueueInv(limits: Limits, history: seq<Entry>, sub: Subscription, usage: Usage, entry: Entry)
    requires limits.Valid() && SubscriptionInv(limits, history, sub)
    ensures SubscriptionInv(limits, history + [entry], Enqueue(limits, sub, usage, entry))
  {
    if sub.resumeRequired {
      EmittedMore(limits, history, sub, entry);
    } else if !Fits(limits, usage, entry) {
      RequireResumeInv(limits, history, sub);
      EmittedMore(limits, history, RequireResume(sub), entry);
    } else {
      PushQueued(limits, history, sub, entry);
      FlushInv(limits, history + [entry],
               sub.(pending := sub.pending + [entry], pendingBytes := sub.pendingBytes + |entry.data|));
    }
  }

  lemma AcknowledgeInv(limits: Limits, history: seq<Entry>, sub: Subscription, cursor: Option<Cursor>)
    requires limits.Valid() && SubscriptionInv(limits, history, sub)
    ensures SubscriptionInv(limits, history, Acknowledge(limits, sub, cursor))
  {
    FlushInv(limits, history, sub.(lastCursor := cursor, inflight := None));
  }

  /** What a tab has outstanding after an offer: one entry more, or nothing any longer. */
  lemma EnqueueOutstanding(limits: Limits, history: seq<Entry>, sub: Subscription, usage: Usage, entry: Entry)
    requires limits.Valid() && SubscriptionInv(limits, history, sub)
    ensures var before, after := Outstanding(sub), Outstanding(Enqueue(limits, sub, usage, entry));
      if !sub.resumeRequired && Fits(limits, usage, entry)
      then after == Usage(before.items + 1, before.bytes + |entry.data|)
      else after.items <= before.items && after.bytes <= before.bytes
  {
    if !sub.resumeRequired && Fits(limits, usage, entry) {
      PushQueued(limits, history, sub, entry);
      FlushInv(limits, history + [entry],
               sub.(pending := sub.pending + [entry], pendingBytes := sub.pendingBytes + |entry.data|));
    }
  }

  // ---------------------------------------------------------------------------------------------
  // Usage of a tab
  // ---------------------------------------------------------------------------------------------

  /** A subscription keeps its identity and its starting point. */
  predicate SameIdentity(a: Subscription, b: Subscription) {
    a.client == b.client && a.id == b.id && a.source == b.source && a.start == b.start
  }

  lemma EnqueueIdentity(limits: Limits, sub: Subscription, usage: Usage, entry: Entry)
    ensures SameIdentity(sub, Enqueue(limits, sub, usage, entry))
  {
  }

  lemma UsageSnoc(subs: seq<Subscription>, sub: Subscription, client: nat)
    ensures TabUsage(subs + [sub], client)
         == if sub.client != client then TabUsage(subs, client)
            else Usage(TabUsage(subs, client).items + Outstanding(sub).items,
                       TabUsage(subs, client).bytes + Outstanding(sub).bytes)
  {
    assert (subs + [sub])[..|subs|] == subs;
  }

  lemma {:induction false} UsageUpdate(subs: seq<Subscription>, k: nat, sub: Subscription, client: nat)
    requires k < |subs| && sub.client == subs[k].client
    ensures var before, after := TabUsage(subs, client), TabUsage(subs[k := sub], client);
      && (client != sub.client ==> after == before)
      && (client == sub.client ==>
            && after.items == before.items - Outstanding(subs[k]).items + Outstanding(sub).items
            && after.bytes == before.bytes - Outstanding(subs[k]).bytes + Outstanding(sub).bytes)
    decreases |subs|
  {
    hide Outstanding;
    var front, last := subs[..|subs| - 1], subs[|subs| - 1];
    if k == |subs| - 1 {
      assert subs[k := sub] == front + [sub];
      UsageSnoc(front, sub, client);
    } else {
      assert subs[k := sub] == front[k := sub] + [last];
      UsageSnoc(front[k := sub], last, client);
      UsageUpdate(front, k, sub, client);
    }
    assert subs == front + [last];
    UsageSnoc(front, last, client);
  }

  lemma {:induction false} UsageRemove(subs: seq<Subscription>, k: nat, client: nat)
    requires k < |subs|
    ensures
      var before, after := TabUsage(subs, client), TabUsage(subs[..k] + subs[k + 1..], client);
      var gone := if subs[k].client == client then Outstanding(subs[k]) else Usage(0, 0);
      before == Usage(after.items + gone.items, after.bytes + gone.bytes)
    decreases |subs|
  {
    hide Outstanding;
    var front, last := subs[..|subs| - 1], subs[|subs| - 1];
    if k == |subs| - 1 {
      assert subs[..k] + subs[k + 1..] == front;
    } else {
      assert subs[..k] + subs[k + 1..] == (front[..k] + front[k + 1..]) + [last];
      UsageSnoc(front[..k] + front[k + 1..], last, client);
      UsageRemove(front, k, client);
    }
    assert subs == front + [last];
    UsageSnoc(front, last, client);
  }

  predicate Under(limits: Limits, usage: Usage) {
    usage.items <= limits.tabItems && usage.bytes <= limits.tabBytes
  }

  predicate TabBounded(limits: Limits, subs: seq<Subscription>, client: nat) {
    Under(limits, TabUsage(subs, client))
  }

  /** No tab has more outstanding, over all its subscriptions, than its limits allow. */
  ghost predicate TabsBounded(limits: Limits, subs: seq<Subscription>) {
    forall client: nat :: TabBounded(limits, subs, client)
  }

  lemma EnqueueAtBounded(limits: Limits, history: seq<Entry>, subs: seq<Subscription>, k: nat, entry: Entry)
    requires limits.Valid() && k < |subs| && TabsBounded(limits, subs)
    requires SubscriptionInv(limits, history, subs[k])
    ensures TabsBounded(limits, EnqueueAt(limits, subs, k, entry))
    ensures SubscriptionInv(limits, history + [entry], EnqueueAt(limits, subs, k, entry)[k])
    ensures SameIdentity(subs[k], EnqueueAt(limits, subs, k, entry)[k])
  {
    var usage := TabUsage(subs, subs[k].client);
    var sub := Enqueue(limits, subs[k], usage, entry);
    assert TabBounded(limits, subs, subs[k].client);
    hide SubscriptionInv, Outstanding, TabUsage, Enqueue;
    EnqueueInv(limits, history, subs[k], usage, entry);
    EnqueueIdentity(limits, subs[k], usage, entry);
    EnqueueOutstanding(limits, history, subs[k], usage, entry);
    var updated := subs[k := sub];
    forall client: nat
      ensures TabBounded(limits, updated, client)
    {
      UsageUpdate(subs, k, sub, client);
      assert TabBounded(limits, subs, client);
    }
  }

  // ---------------------------------------------------------------------------------------------
  // Offering one entry to every subscription, and several to one
  // ---------------------------------------------------------------------------------------------

  lemma {:induction false} MulticastInv(
    limits: Limits, history: seq<Entry>, subs: seq<Subscription>, key: nat, entry: Entry, k: nat)
    requires limits.Valid() && k <= |subs| && TabsBounded(limits, subs)
    requires forall i :: 0 <= i < |subs| && subs[i].source == key ==> SubscriptionInv(limits, history, subs[i])
    ensures var r := Multicast(limits, subs, key, entry, k);
      && TabsBounded(limits, r)
      && (forall i :: 0 <= i < |subs| ==> SameIdentity(subs[i], r[i]))
      && (forall i :: 0 <= i < k && subs[i].source == key ==> SubscriptionInv(limits, history + [entry], r[i]))
      && (forall i :: 0 <= i < |subs| && (k <= i || subs[i].source != key) ==> r[i] == subs[i])
  {
    hide SubscriptionInv, TabsBounded, TabUsage, Enqueue;
    if k > 0 {
      MulticastInv(limits, history, subs, key, entry, k - 1);
      var before := Multicast(limits, subs, key, entry, k - 1);
      if before[k - 1].source == key {
        EnqueueAtBounded(limits, history, before, k - 1, entry);
      }
    }
  }

  lemma {:induction false} EnqueueLastInv(
    limits: Limits, history: seq<Entry>, subs: seq<Subscription>, entries: seq<Entry>)
    requires limits.Valid() && subs != [] && TabsBounded(limits, subs)
    requires SubscriptionInv(limits, history, subs[|subs| - 1])
    ensures var r := EnqueueLast(limits, subs, entries);
      && TabsBounded(limits, r)
      && SubscriptionInv(limits, history + entries, r[|subs| - 1])
      && SameIdentity(subs[|subs| - 1], r[|subs| - 1])
      && r[..|subs| - 1] == subs[..|subs| - 1]
    decreases |entries|
  {
    hide SubscriptionInv, TabsBounded, TabUsage, Enqueue;
    if entries == [] {
      assert history + [] == history;
    } else {
      var front, last := entries[..|entries| - 1], entries[|entries| - 1];
      EnqueueLastInv(limits, history, subs, front);
      EnqueueAtBounded(limits, history + front, EnqueueLast(limits, subs, front), |subs| - 1, last);
      assert history + entries == (history + front) + [last];
    }
  }

  // ---------------------------------------------------------------------------------------------
  // Every reachable host
  // ---------------------------------------------------------------------------------------------

  ghost predicate Served(limits: Limits, sources: map<nat, Source>, sub: Subscription) {
    sub.source in sources && SubscriptionInv(limits, sources[sub.source].history, sub)
  }

  ghost predicate LogsBounded(limits: Limits, sources: map<nat, Source>) {
    forall key :: key in sources ==> Suffix(limits, sources[key])
  }

  ghost predicate AllServed(limits: Limits, sources: map<nat, Source>, subs: seq<Subscription>) {
    forall i :: 0 <= i < |subs| ==> Served(limits, sources, subs[i])
  }

  /** A tab's subscriptions carry different names. */
  ghost predicate Distinct(subs: seq<Subscription>) {
    forall i, j :: 0 <= i < j < |subs| ==> subs[i].client != subs[j].client || subs[i].id != subs[j].id
  }

  ghost predicate HostInv(limits: Limits, host: Host) {
    && limits.Valid()
    && LogsBounded(limits, host.sources)
    && AllServed(limits, host.sources, host.subscriptions)
    && Distinct(host.subscriptions)
    && TabsBounded(limits, host.subscriptions)
  }

  /** The same subscriptions, with other queues. */
  predicate SameNames(subs: seq<Subscription>, r: seq<Subscription>) {
    |r| == |subs| && forall i :: 0 <= i < |subs| ==> SameIdentity(subs[i], r[i])
  }

  lemma SameNamesDistinct(subs: seq<Subscription>, r: seq<Subscription>)
    requires Distinct(subs) && SameNames(subs, r)
    ensures Distinct(r)
  {
    forall i, j | 0 <= i < j < |r|
      ensures r[i].client != r[j].client || r[i].id != r[j].id
    {
      assert SameIdentity(subs[i], r[i]) && SameIdentity(subs[j], r[j]);
    }
  }

  lemma EmitServed(limits: Limits, sources: map<nat, Source>, subs: seq<Subscription>, key: nat, entry: Entry)
    requires limits.Valid() && LogsBounded(limits, sources) && AllServed(limits, sources, subs) && key in sources
    requires TabsBounded(limits, subs)
    ensures var grown := Append(limits, sources[key], entry);
      var r := Multicast(limits, subs, key, entry, |subs|);
      && Suffix(limits, grown)
      && AllServed(limits, sources[key := grown], r) && SameNames(subs, r) && TabsBounded(limits, r)
  {
    hide SubscriptionInv, Suffix, TabsBounded, Append, Multicast;
    var source := sources[key];
    var grown, r := Append(limits, source, entry), Multicast(limits, subs, key, entry, |subs|);
    AppendSuffix(limits, source, entry);
    forall i | 0 <= i < |subs| && subs[i].source == key
      ensures SubscriptionInv(limits, source.history, subs[i])
    {
      assert Served(limits, sources, subs[i]);
    }
    MulticastInv(limits, source.history, subs, key, entry, |subs|);
    forall i | 0 <= i < |r|
      ensures Served(limits, sources[key := grown], r[i])
    {
      assert Served(limits, sources, subs[i]) && SameIdentity(subs[i], r[i]);
    }
  }

  lemma EmitInv(limits: Limits, host: Host, key: nat, entry: Entry)
    requires HostInv(limits, host)
    ensures HostInv(limits, Emit(limits, host, key, entry))
  {
    hide SubscriptionInv, Suffix, TabsBounded, Append, Multicast, AllServed, Distinct, SameNames;
    if key in host.sources {
      EmitServed(limits, host.sources, host.subscriptions, key, entry);
      SameNamesDistinct(host.subscriptions, Multicast(limits, host.subscriptions, key, entry, |host.subscriptions|));
    }
  }

  lemma OpenSourceInv(limits: Limits, contract: nat, first: Option<Entry>)
    requires limits.Valid()
    ensures Suffix(limits, OpenSource(limits, contract, first))
  {
    var empty := Source(contract, [], [], 0, false);
    assert Suffix(limits, empty);
    if first.Some? {
      AppendSuffix(limits, empty, first.value);
    }
  }

  /** A subscription that starts where the history ends has nothing due yet. */
  lemma NewSubscriptionInv(limits: Limits, history: seq<Entry>, sub: Subscription)
    requires limits.Valid()
    requires sub == NewSubscription(sub.client, sub.id, sub.source, sub.lastCursor, |history|)
    ensures SubscriptionInv(limits, history, sub) && SubscriptionInv(limits, history, RequireResume(sub))
    ensures Outstanding(sub) == Usage(0, 0) && Outstanding(RequireResume(sub)) == Usage(0, 0)
  {
    assert history[|history|..] == [];
  }

  lemma IdleBounded(limits: Limits, subs: seq<Subscription>, sub: Subscription)
    requires TabsBounded(limits, subs) && Outstanding(sub) == Usage(0, 0)
    ensures TabsBounded(limits, subs + [sub])
  {
    hide TabUsage, Outstanding;
    var more := subs + [sub];
    forall client: nat
      ensures TabBounded(limits, more, client)
    {
      UsageSnoc(subs, sub, client);
      assert TabBounded(limits, subs, client);
    }
  }

  /** What a reattaching tab is given is the end of everything its source emitted. */
  lemma RetainedSuffix(limits: Limits, source: Source, resumeAfter: Option<Cursor>)
    requires Suffix(limits, source) && Retained(source, resumeAfter).Some?
    ensures var entries := Retained(source, resumeAfter).value;
      && Tail(entries, source.history)
      && (resumeAfter.None? ==> entries == source.history)
      && (resumeAfter.Some? ==>
            && |entries| < |source.history|
            && source.history[|source.history| - |entries| - 1].cursor == resumeAfter)
  {
    if resumeAfter.Some? {
      var i := FindCursor(source.log, resumeAfter.value).value;
      assert Tail(source.log, source.history) && source.log[i].cursor == resumeAfter;
      hide *;
      TailDrop(source.log, source.history, i + 1);
      TailLength(source.log[i + 1..], source.history);
      assert source.history[|source.history| - |source.log[i + 1..]| - 1] == source.log[i];
    } else {
      TailWhole(source.log, source.history);
    }
  }

  /** Adding one served subscription under a new name. */
  lemma AddNames(subs: seq<Subscription>, more: seq<Subscription>, client: nat, id: nat)
    requires Distinct(subs) && |more| == |subs| + 1 && more[..|subs|] == subs
    requires more[|subs|].client == client && more[|subs|].id == id && Find(subs, client, id).None?
    ensures Distinct(more)
  {
    assert forall i :: 0 <= i < |subs| ==> more[i] == subs[i];
  }

  lemma AddServed(limits: Limits, sources: map<nat, Source>, subs: seq<Subscription>, more: seq<Subscription>)
    requires AllServed(limits, sources, subs) && |more| == |subs| + 1 && more[..|subs|] == subs
    requires Served(limits, sources, more[|subs|])
    ensures AllServed(limits, sources, more)
  {
    hide Served;
    assert forall i :: 0 <= i < |subs| ==> more[i] == subs[i];
  }

  lemma AddInv(limits: Limits, host: Host, more: seq<Subscription>, client: nat, id: nat)
    requires HostInv(limits, host) && |more| == |host.subscriptions| + 1
    requires more[..|host.subscriptions|] == host.subscriptions
    requires Served(limits, host.sources, more[|host.subscriptions|]) && TabsBounded(limits, more)
    requires more[|host.subscriptions|].client == client && more[|host.subscriptions|].id == id
    requires Find(host.subscriptions, client, id).None?
    ensures HostInv(limits, host.(subscriptions := more))
  {
    hide Served, TabsBounded, AllServed, Distinct, LogsBounded;
    AddServed(limits, host.sources, host.subscriptions, more);
    AddNames(host.subscriptions, more, client, id);
  }

  lemma OpenInv(limits: Limits, host: Host, key: nat, source: Source)
    requires HostInv(limits, host) && key !in host.sources && Suffix(limits, source)
    ensures HostInv(limits, host.(sources := host.sources[key := source]))
  {
    hide SubscriptionInv, Suffix, TabsBounded, Distinct;
    var sources := host.sources[key := source];
    forall i | 0 <= i < |host.subscriptions|
      ensures Served(limits, sources, host.subscriptions[i])
    {
      assert Served(limits, host.sources, host.subscriptions[i]);
    }
  }

  /** A subscription that has nothing outstanding joins. */
  lemma JoinInv(limits: Limits, host: Host, sub: Subscription)
    requires HostInv(limits, host) && Served(limits, host.sources, sub) && Outstanding(sub) == Usage(0, 0)
    requires Find(host.subscriptions, sub.client, sub.id).None?
    ensures HostInv(limits, host.(subscriptions := host.subscriptions + [sub]))
  {
    var subs := host.subscriptions;
    assert TabsBounded(limits, subs);
    hide Served, TabsBounded, HostInv, Outstanding;
    IdleBounded(limits, subs, sub);
    assert (subs + [sub])[..|subs|] == subs;
    AddInv(limits, host, subs + [sub], sub.client, sub.id);
  }

  /** A reattached queue, filled from the log, is exact. */
  lemma ReattachQueue(
    limits: Limits, history: seq<Entry>, subs: seq<Subscription>, joined: Subscription, entries: seq<Entry>)
    requires limits.Valid() && TabsBounded(limits, subs) && Tail(entries, history)
    requires joined
          == NewSubscription(joined.client, joined.id, joined.source, joined.lastCursor, |history| - |entries|)
    ensures var r := EnqueueLast(limits, subs + [joined], entries);
      && TabsBounded(limits, r) && r[..|subs|] == subs
      && SubscriptionInv(limits, history, r[|subs|]) && SameIdentity(joined, r[|subs|])
  {
    var before := TailSplit(entries, history);
    assert |history| - |entries| == |before|;
    hide *;
    NewSubscriptionInv(limits, before, joined);
    IdleBounded(limits, subs, joined);
    LastOfMore(subs, joined);
    EnqueueLastInv(limits, before, subs + [joined], entries);
  }

  lemma TailSplit(entries: seq<Entry>, history: seq<Entry>) returns (before: seq<Entry>)
    requires Tail(entries, history)
    ensures before + entries == history && |entries| <= |history|
  {
    before := history[..|history| - |entries|];
  }

  lemma LastOfMore(subs: seq<Subscription>, sub: Subscription)
    ensures (subs + [sub])[|subs| + 1 - 1] == sub && (subs + [sub])[..|subs|] == subs && |subs + [sub]| == |subs| + 1
  {
  }

  lemma ReattachInv(limits: Limits, host: Host, key: nat, joined: Subscription, entries: seq<Entry>)
    requires HostInv(limits, host) && key in host.sources && joined.source == key
    requires Find(host.subscriptions, joined.client, joined.id).None?
    requires Tail(entries, host.sources[key].history)
    requires joined == NewSubscription(joined.client, joined.id, joined.source, joined.lastCursor,
                                       |host.sources[key].history| - |entries|)
    ensures HostInv(limits, host.(subscriptions := EnqueueLast(limits, host.subscriptions + [joined], entries)))
  {
    var source, subs := host.sources[key], host.subscriptions;
    var r := EnqueueLast(limits, subs + [joined], entries);
    assert limits.Valid() && TabsBounded(limits, subs);
    hide SubscriptionInv, TabsBounded, HostInv, EnqueueLast, Find;
    ReattachQueue(limits, source.history, subs, joined, entries);
    assert Served(limits, host.sources, r[|subs|]);
    hide NewSubscription;
    AddInv(limits, host, r, joined.client, joined.id);
  }

  lemma AttachInv(limits: Limits, host: Host, client: nat, id: nat, key: nat, contract: nat,
                  resumeAfter: Option<Cursor>, reattach: bool, first: Option<Entry>)
    requires HostInv(limits, host) && Find(host.subscriptions, client, id).None?
    ensures HostInv(limits, Attach(limits, host, client, id, key, contract, resumeAfter, reattach, first))
  {
    if key !in host.sources {
      OpenAttachInv(limits, host, client, id, key, contract, resumeAfter, first);
    } else {
      JoinAttachInv(limits, host, client, id, key, resumeAfter, reattach);
    }
  }

  lemma OpenAttachInv(limits: Limits, host: Host, client: nat, id: nat, key: nat, contract: nat,
                      resumeAfter: Option<Cursor>, first: Option<Entry>)
    requires HostInv(limits, host) && Find(host.subscriptions, client, id).None? && key !in host.sources
    ensures var source := OpenSource(limits, contract, first);
      HostInv(limits, Host(host.sources[key := source],
                           host.subscriptions + [NewSubscription(client, id, key, resumeAfter, |source.history|)]))
  {
    var source := OpenSource(limits, contract, first);
    var joined := NewSubscription(client, id, key, resumeAfter, |source.history|);
    var open := host.(sources := host.sources[key := source]);
    assert limits.Valid();
    NewSubscriptionInv(limits, source.history, joined);
    hide HostInv, Suffix, SubscriptionInv, Outstanding, OpenSource, Find;
    OpenSourceInv(limits, contract, first);
    OpenInv(limits, host, key, source);
    JoinInv(limits, open, joined);
  }

  lemma JoinAttachInv(limits: Limits, host: Host, client: nat, id: nat, key: nat,
                      resumeAfter: Option<Cursor>, reattach: bool)
    requires HostInv(limits, host) && Find(host.subscriptions, client, id).None? && key in host.sources
    ensures
      var contract := host.sources[key].contract;
      HostInv(limits, Attach(limits, host, client, id, key, contract, resumeAfter, reattach, None))
  {
    hide *;
    if reattach && Retained(host.sources[key], resumeAfter).Some? {
      RetainedTail(limits, host, key, resumeAfter);
      FillInv(limits, host, client, id, key, resumeAfter, Retained(host.sources[key], resumeAfter).value);
    } else {
      JoinIdleInv(limits, host, client, id, key, resumeAfter);
    }
    AttachByCase(limits, host, client, id, key, resumeAfter, reattach);
  }

  lemma AttachByCase(limits: Limits, host: Host, client: nat, id: nat, key: nat,
                     resumeAfter: Option<Cursor>, reattach: bool)
    requires key in host.sources
    ensures
      var subs, source := host.subscriptions, host.sources[key];
      var emitted, retained := |source.history|, Retained(source, resumeAfter);
      var joined := NewSubscription(client, id, key, resumeAfter, emitted);
      var start := if retained.Some? && |retained.value| <= emitted then emitted - |retained.value| else 0;
      Attach(limits, host, client, id, key, source.contract, resumeAfter, reattach, None)
      == host.(subscriptions :=
           if !reattach then subs + [joined]
           else if retained.None? then subs + [RequireResume(joined)]
           else EnqueueLast(limits, subs + [NewSubscription(client, id, key, resumeAfter, start)], retained.value))
  {
    hide Retained, EnqueueLast, NewSubscription, RequireResume, OpenSource;
  }

  lemma RetainedTail(limits: Limits, host: Host, key: nat, resumeAfter: Option<Cursor>)
    requires HostInv(limits, host) && key in host.sources && Retained(host.sources[key], resumeAfter).Some?
    ensures Tail(Retained(host.sources[key], resumeAfter).value, host.sources[key].history)
  {
    assert Suffix(limits, host.sources[key]);
    hide *;
    RetainedSuffix(limits, host.sources[key], resumeAfter);
  }

  /** A tab that joins at the end, or with nothing at all. */
  lemma JoinIdleInv(limits: Limits, host: Host, client: nat, id: nat, key: nat, resumeAfter: Option<Cursor>)
    requires HostInv(limits, host) && Find(host.subscriptions, client, id).None? && key in host.sources
    ensures var joined := NewSubscription(client, id, key, resumeAfter, |host.sources[key].history|);
      && HostInv(limits, host.(subscriptions := host.subscriptions + [joined]))
      && HostInv(limits, host.(subscriptions := host.subscriptions + [RequireResume(joined)]))
  {
    var joined := NewSubscription(client, id, key, resumeAfter, |host.sources[key].history|);
    hide Suffix, SubscriptionInv, Outstanding, Find;
    NewSubscriptionInv(limits, host.sources[key].history, joined);
    JoinInv(limits, host, joined);
    JoinInv(limits, host, RequireResume(joined));
  }

  lemma FillInv(limits: Limits, host: Host, client: nat, id: nat, key: nat,
                resumeAfter: Option<Cursor>, entries: seq<Entry>)
    requires HostInv(limits, host) && Find(host.subscriptions, client, id).None? && key in host.sources
    requires Tail(entries, host.sources[key].history)
    ensures
      var emitted := |host.sources[key].history|;
      var start := if |entries| <= emitted then emitted - |entries| else 0;
      HostInv(limits, host.(subscriptions :=
        EnqueueLast(limits, host.subscriptions + [NewSubscription(client, id, key, resumeAfter, start)], entries)))
  {
    TailLength(entries, host.sources[key].history);
    hide HostInv, Find, EnqueueLast, Tail;
    var due := NewSubscription(client, id, key, resumeAfter, |host.sources[key].history| - |entries|);
    ReattachInv(limits, host, key, due, entries);
  }

  lemma AcknowledgeOutstanding(limits: Limits, history: seq<Entry>, sub: Subscription, cursor: Option<Cursor>)
    requires limits.Valid() && SubscriptionInv(limits, history, sub)
    ensures var before, after := Outstanding(sub), Outstanding(Acknowledge(limits, sub, cursor));
      after.items <= before.items && after.bytes <= before.bytes
  {
    hide Bytes, Flatten;
    FlushInv(limits, history, sub.(lastCursor := cursor, inflight := None));
  }

  lemma ShrinkBounded(limits: Limits, subs: seq<Subscription>, k: nat, sub: Subscription)
    requires k < |subs| && TabsBounded(limits, subs) && sub.client == subs[k].client
    requires Outstanding(sub).items <= Outstanding(subs[k]).items
    requires Outstanding(sub).bytes <= Outstanding(subs[k]).bytes
    ensures TabsBounded(limits, subs[k := sub])
  {
    hide TabUsage, Outstanding;
    var updated := subs[k := sub];
    forall client: nat
      ensures TabBounded(limits, updated, client)
    {
      UsageUpdate(subs, k, sub, client);
      assert TabBounded(limits, subs, client);
    }
  }

  lemma UpdateServed(limits: Limits, sources: map<nat, Source>, subs: seq<Subscription>, k: nat, sub: Subscription)
    requires k < |subs| && AllServed(limits, sources, subs) && Served(limits, sources, sub)
    requires SameIdentity(subs[k], sub)
    ensures AllServed(limits, sources, subs[k := sub]) && SameNames(subs, subs[k := sub])
  {
    hide Served;
  }

  lemma AckInv(limits: Limits, host: Host, k: nat, cursor: Option<Cursor>)
    requires HostInv(limits, host) && k < |host.subscriptions|
    ensures HostInv(limits,
      host.(subscriptions := host.subscriptions[k := Acknowledge(limits, host.subscriptions[k], cursor)]))
  {
    hide SubscriptionInv, Suffix, TabsBounded, Distinct, Outstanding;
    var subs := host.subscriptions;
    var sub := Acknowledge(limits, subs[k], cursor);
    assert SameIdentity(subs[k], sub);
    hide Acknowledge;
    assert Served(limits, host.sources, subs[k]);
    var history := host.sources[subs[k].source].history;
    AcknowledgeInv(limits, history, subs[k], cursor);
    AcknowledgeOutstanding(limits, history, subs[k], cursor);
    assert Served(limits, host.sources, sub);
    hide AllServed, SameNames, Served, LogsBounded;
    UpdateServed(limits, host.sources, subs, k, sub);
    SameNamesDistinct(subs, subs[k := sub]);
    ShrinkBounded(limits, subs, k, sub);
  }

  lemma DetachBounded(limits: Limits, subs: seq<Subscription>, k: nat)
    requires k < |subs| && TabsBounded(limits, subs)
    ensures TabsBounded(limits, subs[..k] + subs[k + 1..])
  {
    hide TabUsage;
    var r := subs[..k] + subs[k + 1..];
    forall client: nat
      ensures TabBounded(limits, r, client)
    {
      UsageRemove(subs, k, client);
      assert TabBounded(limits, subs, client);
    }
  }

  lemma DetachServed(limits: Limits, sources: map<nat, Source>, subs: seq<Subscription>, k: nat)
    requires k < |subs| && AllServed(limits, sources, subs) && Distinct(subs)
    ensures AllServed(limits, sources, subs[..k] + subs[k + 1..]) && Distinct(subs[..k] + subs[k + 1..])
  {
    hide Served;
    var r := subs[..k] + subs[k + 1..];
    assert forall i :: 0 <= i < |r| ==> r[i] == subs[if i < k then i else i + 1];
  }

  lemma DetachInv(limits: Limits, host: Host, k: nat)
    requires HostInv(limits, host) && k < |host.subscriptions|
    ensures HostInv(limits, host.(subscriptions := host.subscriptions[..k] + host.subscriptions[k + 1..]))
  {
    hide LogsBounded, TabsBounded, AllServed, Distinct;
    DetachBounded(limits, host.subscriptions, k);
    DetachServed(limits, host.sources, host.subscriptions, k);
  }

  lemma TearDownInv(limits: Limits, host: Host, source: nat)
    requires HostInv(limits, host) && !HasSubscriber(host.subscriptions, source)
    ensures HostInv(limits, host.(sources := host.sources - {source}))
  {
    hide SubscriptionInv, Suffix, TabsBounded, Distinct;
    var sources := host.sources - {source};
    forall i | 0 <= i < |host.subscriptions|
      ensures Served(limits, sources, host.subscriptions[i])
    {
      assert Served(limits, host.sources, host.subscriptions[i]);
      assert host.subscriptions[i].source != source;
    }
  }

  lemma ExecuteInv(limits: Limits, host: Host, command: Command)
    requires HostInv(limits, host)
    ensures HostInv(limits, Execute(limits, host, command))
  {
    hide HostInv, Attach, Emit, Acknowledge, HasSubscriber;
    if Answer(host, command).Accepted? {
      match command {
        case Emits(source, entry) => EmitInv(limits, host, source, entry);
        case Attaches(client, id, source, contract, resumeAfter, reattach, first) =>
          AttachInv(limits, host, client, id, source, contract, resumeAfter, reattach, first);
        case Acks(client, id, _, cursor) => AckInv(limits, host, Find(host.subscriptions, client, id).value, cursor);
        case Detaches(client, id) => DetachInv(limits, host, Find(host.subscriptions, client, id).value);
        case TearsDown(source) =>
          if !HasSubscriber(host.subscriptions, source) {
            TearDownInv(limits, host, source);
          }
      }
    }
  }

  const NoHost := Host(map[], [])

  /** Every reachable worker: exact queues, bounded tabs, bounded logs. */
  lemma {:induction false} RunInv(limits: Limits, commands: seq<Command>)
    requires limits.Valid()
    ensures HostInv(limits, Broker.Run(limits, NoHost, commands))
    decreases |commands|
  {
    if commands == [] {
      assert forall client: nat :: TabBounded(limits, NoHost.subscriptions, client);
    } else {
      RunInv(limits, commands[..|commands| - 1]);
      ExecuteInv(limits, Broker.Run(limits, NoHost, commands[..|commands| - 1]), commands[|commands| - 1]);
    }
  }
}
