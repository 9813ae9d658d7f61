/** What one tab is sent does not depend on whether, or when, the other tabs acknowledge. */
module BrokerIsolation {
  import opened Prelude
  import opened Broker
  import opened BrokerInvariants
  import opened BrokerPromises

  /** The subscriptions of one tab, in the order in which they attached. */
  function Of(subs: seq<Subscription>, client: nat): seq<Subscription> {
    if subs == [] then []
    else Of(subs[..|subs| - 1], client) + (if subs[|subs| - 1].client == client then [subs[|subs| - 1]] else [])
  }

  /** Where the k-th subscription stands among those of its tab. */
  function Rank(subs: seq<Subscription>, client: nat, k: nat): nat
    requires k <= |subs|
  {
    |Of(subs[..k], client)|
  }

  lemma OfSnoc(subs: seq<Subscription>, sub: Subscription, client: nat)
    ensures Of(subs + [sub], client) == Of(subs, client) + (if sub.client == client then [sub] else [])
  {
    assert (subs + [sub])[..|subs|] == subs;
  }

  /** The same tabs and names, whatever is queued. */
  predicate Alike(a: seq<Subscription>, b: seq<Subscription>) {
    |a| == |b| && forall i :: 0 <= i < |a| ==> Named(a[i], b[i])
  }

  predicate Named(a: Subscription, b: Subscription) {
    a.client == b.client && a.id == b.id && a.source == b.source
  }

  lemma {:induction false} RankAlike(a: seq<Subscription>, b: seq<Subscription>, client: nat, k: nat)
    requires Alike(a, b) && k <= |a|
    ensures Rank(a, client, k) == Rank(b, client, k)
    decreases k
  {
    if k > 0 {
      RankAlike(a, b, client, k - 1);
      assert a[..k] == a[..k - 1] + [a[k - 1]] && b[..k] == b[..k - 1] + [b[k - 1]];
      OfSnoc(a[..k - 1], a[k - 1], client);
      OfSnoc(b[..k - 1], b[k - 1], client);
    }
  }

  lemma RankStep(subs: seq<Subscription>, client: nat, k: nat)
    requires k < |subs|
    ensures Rank(subs, client, k + 1) == Rank(subs, client, k) + (if subs[k].client == client then 1 else 0)
  {
    assert subs[..k + 1] == subs[..k] + [subs[k]];
    OfSnoc(subs[..k], subs[k], client);
  }

  /** Replacing a subscription replaces it within its own tab and nowhere else. */
  lemma {:induction false} OfUpdate(subs: seq<Subscription>, k: nat, sub: Subscription, client: nat)
    requires k < |subs| && sub.client == subs[k].client
    ensures sub.client != client ==> Of(subs[k := sub], client) == Of(subs, client)
    ensures sub.client == client ==>
      && Rank(subs, client, k) < |Of(subs, client)|
      && Of(subs, client)[Rank(subs, client, k)] == subs[k]
      && Of(subs[k := sub], client) == Of(subs, client)[Rank(subs, client, k) := sub]
    decreases |subs|
  {
    var front, last := subs[..|subs| - 1], subs[|subs| - 1];
    assert subs == front + [last];
    OfSnoc(front, last, client);
    if k == |subs| - 1 {
      assert subs[k := sub] == front + [sub] && subs[..k] == front;
      OfSnoc(front, sub, client);
    } else {
      assert subs[k := sub] == front[k := sub] + [last] && subs[..k] == front[..k];
      OfSnoc(front[k := sub], last, client);
      OfUpdate(front, k, sub, client);
    }
  }

  lemma {:induction false} OfUsage(subs: seq<Subscription>, client: nat)
    ensures TabUsage(Of(subs, client), client) == TabUsage(subs, client)
    decreases |subs|
  {
    hide Outstanding;
    if subs != [] {
      var front, last := subs[..|subs| - 1], subs[|subs| - 1];
      OfUsage(front, client);
      if last.client == client {
        UsageSnoc(Of(front, client), last, client);
      } else {
        assert Of(front, client) + [] == Of(front, client);
      }
    }
  }

  /** An offer to a tab's subscription is decided by that tab alone. */
  lemma OfEnqueueAt(limits: Limits, subs: seq<Subscription>, k: nat, entry: Entry, client: nat)
    requires k < |subs|
    ensures subs[k].client != client ==> Of(EnqueueAt(limits, subs, k, entry), client) == Of(subs, client)
    ensures subs[k].client == client ==>
      && Rank(subs, client, k) < |Of(subs, client)|
      && Of(subs, client)[Rank(subs, client, k)] == subs[k]
      && Of(EnqueueAt(limits, subs, k, entry), client)
         == EnqueueAt(limits, Of(subs, client), Rank(subs, client, k), entry)
  {
    var sub := Enqueue(limits, subs[k], TabUsage(subs, subs[k].client), entry);
    EnqueueIdentity(limits, subs[k], TabUsage(subs, subs[k].client), entry);
    hide Enqueue, TabUsage, Of;
    OfUpdate(subs, k, sub, client);
    OfUsage(subs, client);
  }

  lemma AlikeReflexive(subs: seq<Subscription>)
    ensures Alike(subs, subs)
  {
  }

  lemma AlikeTransitive(a: seq<Subscription>, b: seq<Subscription>, c: seq<Subscription>)
    requires Alike(a, b) && Alike(b, c)
    ensures Alike(a, c)
  {
    forall i | 0 <= i < |a|
      ensures Named(a[i], c[i])
    {
      assert Named(a[i], b[i]) && Named(b[i], c[i]);
    }
  }

  lemma AlikeSymmetric(a: seq<Subscription>, b: seq<Subscription>)
    requires Alike(a, b)
    ensures Alike(b, a)
  {
    forall i | 0 <= i < |b|
      ensures Named(b[i], a[i])
    {
      assert Named(a[i], b[i]);
    }
  }

  lemma LaterAlike(a: seq<Subscription>, b: seq<Subscription>)
    requires AllLater(a, b) && |a| == |b|
    ensures Alike(a, b)
  {
    forall i | 0 <= i < |a|
      ensures Named(a[i], b[i])
    {
      assert Later(a[i], b[i]);
    }
  }

  /** What a tab gets from an emission depends on that tab alone. */
  lemma {:induction false} OfMulticast(
    limits: Limits, subs: seq<Subscription>, source: nat, entry: Entry, k: nat, client: nat)
    requires k <= |subs|
    ensures Rank(subs, client, k) <= |Of(subs, client)|
    ensures Of(Multicast(limits, subs, source, entry, k), client)
         == Multicast(limits, Of(subs, client), source, entry, Rank(subs, client, k))
    decreases k
  {
    hide *;
    if k == 0 {
      NoneRanked(limits, subs, source, entry, client);
    } else {
      OfMulticast(limits, subs, source, entry, k - 1, client);
      MulticastLater(limits, subs, source, entry, k - 1);
      var before := Multicast(limits, subs, source, entry, k - 1);
      LaterAlike(subs, before);
      AlikeAt(subs, before, k - 1);
      RankStep(subs, client, k - 1);
      RankAlike(subs, before, client, k - 1);
      MulticastStep(limits, subs, source, entry, k - 1);
      OfEnqueueAt(limits, before, k - 1, entry, client);
      if subs[k - 1].client == client {
        OfPick(subs, client, k - 1);
        OfPick(before, client, k - 1);
        MulticastStep(limits, Of(subs, client), source, entry, Rank(subs, client, k - 1));
      }
    }
  }

  lemma NoneRanked(limits: Limits, subs: seq<Subscription>, source: nat, entry: Entry, client: nat)
    ensures Rank(subs, client, 0) == 0
    ensures Multicast(limits, subs, source, entry, 0) == subs
    ensures Multicast(limits, Of(subs, client), source, entry, 0) == Of(subs, client)
  {
    assert subs[..0] == [];
  }

  lemma AlikeAt(a: seq<Subscription>, b: seq<Subscription>, k: nat)
    requires Alike(a, b) && k < |a|
    ensures a[k].client == b[k].client && a[k].id == b[k].id && a[k].source == b[k].source
  {
  }

  lemma MulticastStep(limits: Limits, subs: seq<Subscription>, source: nat, entry: Entry, k: nat)
    requires k < |subs|
    ensures
      var before := Multicast(limits, subs, source, entry, k);
      Multicast(limits, subs, source, entry, k + 1)
      == if before[k].source == source then EnqueueAt(limits, before, k, entry) else before
  {
    hide EnqueueAt;
  }

  /** A tab's subscription at its rank. */
  lemma OfPick(subs: seq<Subscription>, client: nat, k: nat)
    requires k < |subs| && subs[k].client == client
    ensures Rank(subs, client, k) < |Of(subs, client)| && Of(subs, client)[Rank(subs, client, k)] == subs[k]
  {
    OfUpdate(subs, k, subs[k], client);
  }

  // ---------------------------------------------------------------------------------------------
  // Two workers that differ only in what other tabs have acknowledged
  // ---------------------------------------------------------------------------------------------

  /** The same sources and names, and the same queues for one tab. */
  predicate Same(a: Host, b: Host, client: nat) {
    && a.sources == b.sources
    && Alike(a.subscriptions, b.subscriptions)
    && Of(a.subscriptions, client) == Of(b.subscriptions, client)
  }

  lemma {:induction false} FindAlike(a: seq<Subscription>, b: seq<Subscription>, client: nat, id: nat)
    requires Alike(a, b)
    ensures Find(a, client, id) == Find(b, client, id)
    decreases |a|
  {
    if a != [] {
      AlikeAt(a, b, |a| - 1);
      FindAlike(a[..|a| - 1], b[..|b| - 1], client, id);
    }
  }

  lemma TwinAt(a: seq<Subscription>, b: seq<Subscription>, client: nat, k: nat)
    requires Alike(a, b) && Of(a, client) == Of(b, client) && k < |a| && a[k].client == client
    ensures a[k] == b[k]
  {
    hide Of, Rank;
    AlikeAt(a, b, k);
    RankAlike(a, b, client, k);
    OfPick(a, client, k);
    OfPick(b, client, k);
  }

  lemma EmitSame(limits: Limits, a: Host, b: Host, source: nat, entry: Entry, client: nat)
    requires Same(a, b, client)
    ensures Same(Emit(limits, a, source, entry), Emit(limits, b, source, entry), client)
  {
    if source in a.sources {
      MulticastSame(limits, a.subscriptions, b.subscriptions, source, entry, client);
    }
    hide Multicast, Append, Of, Alike;
  }

  lemma MulticastSame(limits: Limits, a: seq<Subscription>, b: seq<Subscription>, source: nat, entry: Entry,
                      client: nat)
    requires Alike(a, b) && Of(a, client) == Of(b, client)
    ensures
      var x, y := Multicast(limits, a, source, entry, |a|), Multicast(limits, b, source, entry, |b|);
      Alike(x, y) && Of(x, client) == Of(y, client)
  {
    AlikeLength(a, b);
    hide *;
    MulticastLater(limits, a, source, entry, |a|);
    MulticastLater(limits, b, source, entry, |b|);
    var x, y := Multicast(limits, a, source, entry, |a|), Multicast(limits, b, source, entry, |b|);
    LaterAlike(a, x);
    LaterAlike(b, y);
    AlikeSymmetric(a, x);
    AlikeTransitive(x, a, b);
    AlikeTransitive(x, b, y);
    OfMulticast(limits, a, source, entry, |a|, client);
    OfMulticast(limits, b, source, entry, |b|, client);
    RankAlike(a, b, client, |a|);
  }

  lemma AlikeLength(a: seq<Subscription>, b: seq<Subscription>)
    requires Alike(a, b)
    ensures |a| == |b|
  {
  }

  lemma AlikeSnoc(a: seq<Subscription>, b: seq<Subscription>, sub: Subscription)
    requires Alike(a, b)
    ensures Alike(a + [sub], b + [sub])
  {
  }

  /** Filling the queue of a subscription that has just joined concerns its own tab alone. */
  lemma {:induction false} OfEnqueueLast(
    limits: Limits, subs: seq<Subscription>, sub: Subscription, entries: seq<Entry>, client: nat)
    ensures Of(EnqueueLast(limits, subs + [sub], entries), client)
         == if sub.client == client then EnqueueLast(limits, Of(subs, client) + [sub], entries) else Of(subs, client)
    decreases |entries|
  {
    hide *;
    EnqueueLastStep(limits, subs + [sub], entries);
    EnqueueLastStep(limits, Of(subs, client) + [sub], entries);
    OfSnoc(subs, sub, client);
    NoMore(Of(subs, client));
    if entries != [] {
      var front, last := entries[..|entries| - 1], entries[|entries| - 1];
      OfEnqueueLast(limits, subs, sub, front, client);
      EnqueueLastLater(limits, subs + [sub], front);
      var before := EnqueueLast(limits, subs + [sub], front);
      LaterAlike(subs + [sub], before);
      AlikeAt(subs + [sub], before, |subs|);
      RankAlike(subs + [sub], before, client, |subs|);
      RankOfJoined(subs, sub, client);
      OfEnqueueAt(limits, before, |subs|, last, client);
    }
  }

  lemma RankOfJoined(subs: seq<Subscription>, sub: Subscription, client: nat)
    ensures Rank(subs + [sub], client, |subs|) == |Of(subs, client)|
  {
    assert (subs + [sub])[..|subs|] == subs;
  }

  lemma NoMore(subs: seq<Subscription>)
    ensures subs + [] == subs
  {
  }

  lemma EnqueueLastStep(limits: Limits, subs: seq<Subscription>, entries: seq<Entry>)
    requires subs != []
    ensures entries == [] ==> EnqueueLast(limits, subs, entries) == subs
    ensures entries != [] ==>
      EnqueueLast(limits, subs, entries)
      == EnqueueAt(limits, EnqueueLast(limits, subs, entries[..|entries| - 1]), |subs| - 1, entries[|entries| - 1])
  {
    hide EnqueueAt;
  }

  lemma FillSame(limits: Limits, a: seq<Subscription>, b: seq<Subscription>, sub: Subscription, entries: seq<Entry>,
                 client: nat)
    requires Alike(a, b) && Of(a, client) == Of(b, client)
    ensures
      var x, y := EnqueueLast(limits, a + [sub], entries), EnqueueLast(limits, b + [sub], entries);
      Alike(x, y) && Of(x, client) == Of(y, client)
  {
    hide *;
    var x, y := EnqueueLast(limits, a + [sub], entries), EnqueueLast(limits, b + [sub], entries);
    AlikeSnoc(a, b, sub);
    EnqueueLastLater(limits, a + [sub], entries);
    EnqueueLastLater(limits, b + [sub], entries);
    LaterAlike(a + [sub], x);
    LaterAlike(b + [sub], y);
    AlikeSymmetric(a + [sub], x);
    AlikeTransitive(x, a + [sub], b + [sub]);
    AlikeTransitive(x, b + [sub], y);
    OfEnqueueLast(limits, a, sub, entries, client);
    OfEnqueueLast(limits, b, sub, entries, client);
  }

  lemma JoinSame(a: seq<Subscription>, b: seq<Subscription>, sub: Subscription, client: nat)
    requires Alike(a, b) && Of(a, client) == Of(b, client)
    ensures Alike(a + [sub], b + [sub]) && Of(a + [sub], client) == Of(b + [sub], client)
  {
    hide *;
    AlikeSnoc(a, b, sub);
    OfSnoc(a, sub, client);
    OfSnoc(b, sub, client);
  }

  lemma AttachSame(limits: Limits, a: Host, b: Host, who: nat, id: nat, key: nat, contract: nat,
                   resumeAfter: Option<Cursor>, reattach: bool, first: Option<Entry>, client: nat)
    requires Same(a, b, client)
    ensures Same(Attach(limits, a, who, id, key, contract, resumeAfter, reattach, first),
                 Attach(limits, b, who, id, key, contract, resumeAfter, reattach, first), client)
  {
    hide Of, Alike, EnqueueLast, Retained, OpenSource, NewSubscription, RequireResume;
    var x, y := a.subscriptions, b.subscriptions;
    if key !in a.sources {
      JoinSame(x, y, NewSubscription(who, id, key, resumeAfter, |OpenSource(limits, contract, first).history|), client);
    } else {
      var emitted := |a.sources[key].history|;
      var joined := NewSubscription(who, id, key, resumeAfter, emitted);
      JoinSame(x, y, joined, client);
      JoinSame(x, y, RequireResume(joined), client);
      if reattach && Retained(a.sources[key], resumeAfter).Some? {
        var entries := Retained(a.sources[key], resumeAfter).value;
        var start := if |entries| <= emitted then emitted - |entries| else 0;
        FillSame(limits, x, y, NewSubscription(who, id, key, resumeAfter, start), entries, client);
      }
    }
  }

  lemma {:induction false} OfConcat(a: seq<Subscription>, b: seq<Subscription>, client: nat)
    ensures Of(a + b, client) == Of(a, client) + Of(b, client)
    decreases |b|
  {
    if b == [] {
      assert a + b == a;
    } else {
      assert a + b == (a + b[..|b| - 1]) + [b[|b| - 1]];
      OfSnoc(a + b[..|b| - 1], b[|b| - 1], client);
      OfConcat(a, b[..|b| - 1], client);
    }
  }

  lemma SplitAt(subs: seq<Subscription>, k: nat, client: nat)
    requires k < |subs|
    ensures Of(subs, client)
         == Of(subs[..k], client) + ((if subs[k].client == client then [subs[k]] else []) + Of(subs[k + 1..], client))
    ensures Of(subs[..k] + subs[k + 1..], client) == Of(subs[..k], client) + Of(subs[k + 1..], client)
  {
    assert subs == subs[..k] + ([subs[k]] + subs[k + 1..]);
    OfConcat(subs[..k], [subs[k]] + subs[k + 1..], client);
    OfConcat([subs[k]], subs[k + 1..], client);
    OfConcat(subs[..k], subs[k + 1..], client);
    assert Of([subs[k]], client) == (if subs[k].client == client then [subs[k]] else []) by {
      OfSnoc([], subs[k], client);
      assert [] + [subs[k]] == [subs[k]];
    }
    hide Of;
  }

  lemma SameParts<T>(a: seq<T>, b: seq<T>, c: seq<T>, d: seq<T>)
    requires a + b == c + d && |a| == |c|
    ensures a == c && b == d
  {
    assert a == (a + b)[..|a|] && c == (c + d)[..|c|];
    assert b == (a + b)[|a|..] && d == (c + d)[|c|..];
  }

  lemma RemoveSame(a: seq<Subscription>, b: seq<Subscription>, k: nat, client: nat)
    requires Alike(a, b) && Of(a, client) == Of(b, client) && k < |a|
    ensures |a| == |b|
    ensures Alike(a[..k] + a[k + 1..], b[..k] + b[k + 1..])
    ensures Of(a[..k] + a[k + 1..], client) == Of(b[..k] + b[k + 1..], client)
  {
    AlikeLength(a, b);
    SplitAt(a, k, client);
    SplitAt(b, k, client);
    RankAlike(a, b, client, k);
    AlikeAt(a, b, k);
    hide Of;
    var p, q := if a[k].client == client then [a[k]] else [], if b[k].client == client then [b[k]] else [];
    SameParts(Of(a[..k], client), p + Of(a[k + 1..], client), Of(b[..k], client), q + Of(b[k + 1..], client));
    SameParts(p, Of(a[k + 1..], client), q, Of(b[k + 1..], client));
    RemoveAlike(a, b, k);
  }

  lemma RemoveAlike(a: seq<Subscription>, b: seq<Subscription>, k: nat)
    requires Alike(a, b) && k < |a|
    ensures Alike(a[..k] + a[k + 1..], b[..k] + b[k + 1..])
  {
    var x, y := a[..k] + a[k + 1..], b[..k] + b[k + 1..];
    forall i | 0 <= i < |x|
      ensures Named(x[i], y[i])
    {
      assert Named(a[if i < k then i else i + 1], b[if i < k then i else i + 1]);
    }
  }

  lemma UpdateAlike(subs: seq<Subscription>, k: nat, sub: Subscription)
    requires k < |subs| && Named(subs[k], sub)
    ensures Alike(subs, subs[k := sub])
  {
  }

  lemma AcknowledgeNamed(limits: Limits, sub: Subscription, cursor: Option<Cursor>)
    ensures Named(sub, Acknowledge(limits, sub, cursor))
  {
    hide Bytes, BatchLength;
  }

  /** Another tab's acknowledgement leaves this tab's queues as they are. */
  lemma OthersAck(limits: Limits, host: Host, command: Command, client: nat)
    requires command.Acks? && command.client != client
    ensures Same(host, Execute(limits, host, command), client)
  {
    AlikeReflexive(host.subscriptions);
    if Answer(host, command).Accepted? {
      var k := Find(host.subscriptions, command.client, command.id).value;
      var next := Acknowledge(limits, host.subscriptions[k], command.cursor);
      hide Alike, Of, Acknowledge, Find;
      AcknowledgeNamed(limits, host.subscriptions[k], command.cursor);
      UpdateAlike(host.subscriptions, k, next);
      OfUpdate(host.subscriptions, k, next, client);
    }
  }

  /** This tab's own acknowledgement meets the same answer and has the same effect in both. */
  lemma OwnAck(limits: Limits, a: Host, b: Host, command: Command, client: nat)
    requires Same(a, b, client) && command.Acks? && command.client == client
    ensures Same(Execute(limits, a, command), Execute(limits, b, command), client)
  {
    var x, y := a.subscriptions, b.subscriptions;
    FindAlike(x, y, client, command.id);
    if Find(x, client, command.id).Some? {
      var k := Find(x, client, command.id).value;
      TwinAt(x, y, client, k);
      var next := Acknowledge(limits, x[k], command.cursor);
      AlikeLength(x, y);
      hide Alike, Of, Acknowledge, Find, Rank;
      AcknowledgeNamed(limits, x[k], command.cursor);
      UpdateAlike(x, k, next);
      UpdateAlike(y, k, next);
      AlikeSymmetric(x, x[k := next]);
      AlikeTransitive(x[k := next], x, y);
      AlikeTransitive(x[k := next], y, y[k := next]);
      OfUpdate(x, k, next, client);
      OfUpdate(y, k, next, client);
      RankAlike(x, y, client, k);
    }
  }

  lemma AnswerSame(a: Host, b: Host, command: Command, client: nat)
    requires Same(a, b, client) && !command.Acks?
    ensures Answer(a, command) == Answer(b, command)
  {
    match command {
      case Attaches(who, id, _, _, _, _, _) => FindAlike(a.subscriptions, b.subscriptions, who, id);
      case Detaches(who, id) => FindAlike(a.subscriptions, b.subscriptions, who, id);
      case _ =>
    }
    hide Find, Of, Alike;
  }

  lemma SubscriberAlike(a: seq<Subscription>, b: seq<Subscription>, source: nat)
    requires Alike(a, b)
    ensures HasSubscriber(a, source) == HasSubscriber(b, source)
  {
    if HasSubscriber(a, source) {
      var i :| 0 <= i < |a| && a[i].source == source;
      AlikeAt(a, b, i);
      assert b[i].source == source;
    }
    if HasSubscriber(b, source) {
      var i :| 0 <= i < |b| && b[i].source == source;
      AlikeAt(a, b, i);
      assert a[i].source == source;
    }
  }

  lemma StepSame(limits: Limits, a: Host, b: Host, command: Command, client: nat)
    requires Same(a, b, client) && (command.Acks? ==> command.client == client)
    ensures Same(Execute(limits, a, command), Execute(limits, b, command), client)
  {
    hide Of, Alike, Emit, Attach, Acknowledge, Find, HasSubscriber;
    if command.Acks? {
      OwnAck(limits, a, b, command, client);
    } else {
      AnswerSame(a, b, command, client);
      if Answer(a, command).Accepted? {
        match command {
          case Emits(source, entry) => EmitSame(limits, a, b, source, entry, client);
          case Attaches(who, id, source, contract, resumeAfter, reattach, first) =>
            AttachSame(limits, a, b, who, id, source, contract, resumeAfter, reattach, first, client);
          case Detaches(who, id) =>
            FindAlike(a.subscriptions, b.subscriptions, who, id);
            RemoveSame(a.subscriptions, b.subscriptions, Find(a.subscriptions, who, id).value, client);
          case TearsDown(source) => SubscriberAlike(a.subscriptions, b.subscriptions, source);
        }
      }
    }
  }

  /** The commands without the acknowledgements of other tabs. */
  function WithoutOthersAcks(commands: seq<Command>, client: nat): seq<Command> {
    if commands == [] then []
    else
      var last := commands[|commands| - 1];
      WithoutOthersAcks(commands[..|commands| - 1], client)
      + (if last.Acks? && last.client != client then [] else [last])
  }

  lemma SameTransitive(a: Host, b: Host, c: Host, client: nat)
    requires Same(a, b, client) && Same(b, c, client)
    ensures Same(a, c, client)
  {
    AlikeTransitive(a.subscriptions, b.subscriptions, c.subscriptions);
    hide Of, Alike;
  }

  lemma SameSymmetric(a: Host, b: Host, client: nat)
    requires Same(a, b, client)
    ensures Same(b, a, client)
  {
    AlikeSymmetric(a.subscriptions, b.subscriptions);
    hide Of, Alike;
  }

  lemma SameReflexive(a: Host, client: nat)
    ensures Same(a, a, client)
  {
    AlikeReflexive(a.subscriptions);
    hide Of, Alike;
  }

  lemma RunSnoc(limits: Limits, host: Host, commands: seq<Command>, last: Command)
    ensures Broker.Run(limits, host, commands + [last]) == Execute(limits, Broker.Run(limits, host, commands), last)
  {
    assert (commands + [last])[..|commands|] == commands;
    hide Execute;
  }

  lemma {:induction false} AcksOfOthersAreHarmless(limits: Limits, host: Host, commands: seq<Command>, client: nat)
    ensures Same(Broker.Run(limits, host, commands),
                 Broker.Run(limits, host, WithoutOthersAcks(commands, client)), client)
    decreases |commands|
  {
    hide Same, Execute;
    if commands == [] {
      SameReflexive(host, client);
    } else {
      var front, last := commands[..|commands| - 1], commands[|commands| - 1];
      AcksOfOthersAreHarmless(limits, host, front, client);
      var a, b := Broker.Run(limits, host, front), Broker.Run(limits, host, WithoutOthersAcks(front, client));
      if last.Acks? && last.client != client {
        OthersAck(limits, a, last, client);
        SameSymmetric(a, Execute(limits, a, last), client);
        SameTransitive(Execute(limits, a, last), a, b, client);
        assert WithoutOthersAcks(front, client) + [] == WithoutOthersAcks(front, client);
      } else {
        StepSame(limits, a, b, last, client);
        RunSnoc(limits, host, WithoutOthersAcks(front, client), last);
      }
    }
  }

  /**
   A slow tab harms only itself: over every run, what a tab was sent, has queued and has in flight is what it would
   be if no other tab had acknowledged anything.
   */
  lemma OtherTabsContinue(limits: Limits, commands: seq<Command>, client: nat)
    ensures Of(Broker.Run(limits, NoHost, commands).subscriptions, client)
         == Of(Broker.Run(limits, NoHost, WithoutOthersAcks(commands, client)).subscriptions, client)
  {
    AcksOfOthersAreHarmless(limits, NoHost, commands, client);
    hide Broker.Run, Of, Alike;
  }
}
