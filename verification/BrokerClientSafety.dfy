/** What every run of a lease keeps: nothing is skipped, and no acknowledgement is refused while it is live. */
module BrokerClientSafety {
  import opened Prelude
  import opened Broker
  import opened BrokerInvariants
  import opened BrokerClient

  // ---------------------------------------------------------------------------------------------
  // What is on its way
  // ---------------------------------------------------------------------------------------------

  /** A batch that the tab still has to acknowledge. */
  datatype Token = Token(id: nat, cursor: Option<Cursor>)

  function Ticket(batch: Batch): Token {
    Token(batch.id, LastCursor(batch.entries))
  }

  function DownEntries(down: seq<Down>): seq<Entry> {
    if down == [] then []
    else (if down[0].BatchDown? then down[0].batch.entries else []) + DownEntries(down[1..])
  }

  function DownTokens(down: seq<Down>): seq<Token> {
    if down == [] then []
    else (if down[0].BatchDown? then [Ticket(down[0].batch)] else []) + DownTokens(down[1..])
  }

  function Replies(down: seq<Down>): nat {
    if down == [] then 0 else (if down[0].ReplyDown? then 1 else 0) + Replies(down[1..])
  }

  /** No refusal ahead of the demand to resume. */
  predicate SafeDown(down: seq<Down>) {
    down == [] || down[0] == ResumeDown || (down[0] != ReplyDown(false) && SafeDown(down[1..]))
  }

  function ChainEntries(chain: seq<Received>, generation: nat): seq<Entry> {
    if chain == [] then []
    else
      (if chain[0].generation == generation then chain[0].batch.entries else [])
      + ChainEntries(chain[1..], generation)
  }

  function ChainTokens(chain: seq<Received>, generation: nat): seq<Token> {
    if chain == [] then []
    else
      (if chain[0].generation == generation then [Ticket(chain[0].batch)] else [])
      + ChainTokens(chain[1..], generation)
  }

  predicate Accepting(running: Option<Running>, generation: nat) {
    running.Some? && running.value.generation == generation && !running.value.acking
  }

  function RunEntries(running: Option<Running>, generation: nat): seq<Entry> {
    if Accepting(running, generation) && running.value.handed <= |running.value.batch.entries|
    then running.value.batch.entries[running.value.handed..]
    else []
  }

  function RunTokens(running: Option<Running>, generation: nat): seq<Token> {
    if Accepting(running, generation) then [Ticket(running.value.batch)] else []
  }

  function UpTokens(up: seq<Up>): seq<Token> {
    if up == [] then [] else (if up[0].AckUp? then [Token(up[0].id, up[0].cursor)] else []) + UpTokens(up[1..])
  }

  /** What was posted in this generation and has not been handed to the handler. */
  function Transit(link: Link): seq<Entry> {
    RunEntries(link.running, link.generation) + (ChainEntries(link.chain, link.generation) + DownEntries(link.down))
  }

  /** The batches of this generation that the worker still waits for, in order. */
  function Tokens(link: Link): seq<Token> {
    RunTokens(link.running, link.generation)
    + (ChainTokens(link.chain, link.generation) + (DownTokens(link.down) + UpTokens(link.up)))
  }

  // ---------------------------------------------------------------------------------------------
  // The invariant
  // ---------------------------------------------------------------------------------------------

  predicate WellFormed(link: Link) {
    && (link.running.Some? ==>
          && 0 < link.running.value.handed <= |link.running.value.batch.entries|
          && link.running.value.generation <= link.generation
          && (link.running.value.acking ==> link.running.value.generation == link.generation))
    && (forall i :: 0 <= i < |link.chain| ==>
          link.chain[i].batch.entries != [] && link.chain[i].generation <= link.generation)
    && (forall i :: 0 <= i < |link.down| ==> link.down[i].BatchDown? ==> link.down[i].batch.entries != [])
  }

  /** What is on its way, and what the worker still queues, is what comes next in the history. */
  predicate Carried(history: seq<Entry>, link: Link)
    requires link.sub.Some?
  {
    && link.next <= |history|
    && if link.sub.value.resumeRequired then Transit(link) <= history[link.next..]
       else Transit(link) + link.sub.value.pending == history[link.next..]
  }

  /** Unless the worker gave up on the tab, it waits for exactly the batch it has in flight. */
  predicate Matched(link: Link)
    requires link.sub.Some?
  {
    var sub := link.sub.value;
    !sub.resumeRequired ==>
      Tokens(link) == if sub.inflight.Some? then [Token(sub.inflight.value.id, sub.inflight.value.cursor)] else []
  }

  /** A tab that must resume has been told, or will be, before any refusal reaches it. */
  predicate Signalled(link: Link)
    requires link.sub.Some?
  {
    (link.sub.value.resumeRequired == (ResumeDown in link.down)) && SafeDown(link.down)
  }

  /** An acknowledgement, or the reply to it, is under way exactly while the head of the chain waits for it. */
  predicate Replying(link: Link) {
    && (forall i :: 0 <= i < |link.up| ==> link.up[i].AckUp?)
    && |link.up| + Replies(link.down) == if link.running.Some? && link.running.value.acking then 1 else 0
  }

  /** The item that the handler is busy with is the latest one it was given. */
  predicate Latest(link: Link) {
    Accepting(link.running, link.generation) && 0 < link.running.value.handed <= |link.running.value.batch.entries| ==>
      && 0 < link.next && link.handed != []
      && link.handed[|link.handed| - 1]
         == Handed(link.next - 1, link.running.value.batch.entries[link.running.value.handed - 1])
  }

  ghost predicate Attached(limits: Limits, history: seq<Entry>, link: Link) {
    && link.sub.Some?
    && SubscriptionInv(limits, history, link.sub.value)
    && WellFormed(link)
    && Latest(link)
    && Carried(history, link)
    && Matched(link)
    && Signalled(link)
    && Replying(link)
  }

  /** Between a new port and its attachment nothing of this generation is under way but the request to attach. */
  predicate Detached(link: Link) {
    && link.sub.None?
    && WellFormed(link)
    && link.down == []
    && (link.up == [AttachUp(true, link.lastCursor)]
        || (link.up == [AttachUp(false, link.lastCursor)] && link.first.None?))
    && (forall i :: 0 <= i < |link.chain| ==> link.chain[i].generation < link.generation)
    && (link.running.Some? ==> link.running.value.generation < link.generation)
  }

  /** One past the highest position handed over so far. */
  function High(handed: seq<Handed>, first: nat): (r: nat)
    ensures first <= r
  {
    if handed == [] then first
    else
      var before, last := High(handed[..|handed| - 1], first), handed[|handed| - 1].position;
      if before <= last then last + 1 else before
  }

  /** Every item handed over is at most one past the highest before it: repeats happen, skips do not. */
  ghost predicate GapFree(handed: seq<Handed>, first: nat) {
    forall k :: 0 <= k < |handed| ==> handed[k].position <= High(handed[..k], first)
  }

  /** What the handler was given is what the source emitted at those positions. */
  ghost predicate Truthful(handed: seq<Handed>, history: seq<Entry>) {
    forall k :: 0 <= k < |handed| ==>
      handed[k].position < |history| && handed[k].entry == history[handed[k].position]
  }

  ghost predicate Resumable(link: Link, high: nat) {
    link.lastCursor.Some? ==>
      exists p :: 0 <= p < high && p < |link.source.history| && link.source.history[p].cursor == link.lastCursor
  }

  ghost predicate Covered(link: Link) {
    && Truthful(link.handed, link.source.history)
    && (link.first.None? ==> link.handed == [] && link.lastCursor.None?)
    && (link.first.Some? ==>
          && link.first.value <= |link.source.history|
          && (link.end == Open ==> link.next <= High(link.handed, link.first.value))
          && GapFree(link.handed, link.first.value)
          && Resumable(link, High(link.handed, link.first.value)))
    && (link.sub.Some? ==> link.first.Some?)
  }

  ghost predicate LinkInv(limits: Limits, link: Link) {
    && limits.Valid()
    && Suffix(limits, link.source)
    && Covered(link)
    && (link.end == Open ==>
          if link.sub.Some? then Attached(limits, link.source.history, link) else Detached(link))
  }

  // ---------------------------------------------------------------------------------------------
  // Sequences of messages
  // ---------------------------------------------------------------------------------------------

  lemma {:induction false} DownSnoc(down: seq<Down>, message: Down)
    ensures DownEntries(down + [message])
         == DownEntries(down) + (if message.BatchDown? then message.batch.entries else [])
    ensures DownTokens(down + [message])
         == DownTokens(down) + (if message.BatchDown? then [Ticket(message.batch)] else [])
    ensures Replies(down + [message]) == Replies(down) + (if message.ReplyDown? then 1 else 0)
    ensures SafeDown(down) && (message == ReplyDown(false) ==> ResumeDown in down) ==> SafeDown(down + [message])
    decreases |down|
  {
    var all := down + [message];
    if down != [] {
      assert all[0] == down[0] && all[1..] == down[1..] + [message];
      DownSnoc(down[1..], message);
    } else {
      assert all[1..] == [];
    }
  }

  lemma {:induction false} ChainSnoc(chain: seq<Received>, last: Received, generation: nat)
    ensures ChainEntries(chain + [last], generation)
         == ChainEntries(chain, generation) + (if last.generation == generation then last.batch.entries else [])
    ensures ChainTokens(chain + [last], generation)
         == ChainTokens(chain, generation) + (if last.generation == generation then [Ticket(last.batch)] else [])
    decreases |chain|
  {
    var all := chain + [last];
    if chain != [] {
      assert all[0] == chain[0] && all[1..] == chain[1..] + [last];
      ChainSnoc(chain[1..], last, generation);
    } else {
      assert all[1..] == [];
    }
  }

  lemma {:induction false} UpSnoc(up: seq<Up>, id: nat, cursor: Option<Cursor>)
    ensures UpTokens(up + [AckUp(id, cursor)]) == UpTokens(up) + [Token(id, cursor)]
    decreases |up|
  {
    var all := up + [AckUp(id, cursor)];
    if up != [] {
      assert all[0] == up[0] && all[1..] == up[1..] + [AckUp(id, cursor)];
      UpSnoc(up[1..], id, cursor);
    } else {
      assert all[1..] == [];
    }
  }

  lemma {:induction false} ChainStale(chain: seq<Received>, generation: nat)
    requires forall i :: 0 <= i < |chain| ==> chain[i].generation < generation
    ensures ChainEntries(chain, generation) == [] && ChainTokens(chain, generation) == []
    decreases |chain|
  {
    if chain != [] {
      ChainStale(chain[1..], generation);
    }
  }

  // ---------------------------------------------------------------------------------------------
  // What the worker does with an offer and with an acknowledgement
  // ---------------------------------------------------------------------------------------------

  /** An offered entry is posted at once, queued behind the batch in flight, or ends the subscription. */
  lemma OfferShape(limits: Limits, history: seq<Entry>, sub: Subscription, usage: Usage, entry: Entry)
    requires limits.Valid() && SubscriptionInv(limits, history, sub)
    ensures
      var after := Enqueue(limits, sub, usage, entry);
      var posted := Posted(sub, after);
      if sub.resumeRequired then after == sub && posted == []
      else if !Fits(limits, usage, entry) then after == RequireResume(sub) && posted == [ResumeDown]
      else if sub.inflight.Some? then
        after == sub.(pending := sub.pending + [entry], pendingBytes := sub.pendingBytes + |entry.data|) && posted == []
      else
        && !after.resumeRequired && after.pending == [] && sub.pending == []
        && after.inflight == Some(Batch(sub.nextBatchId, [entry], Bytes([entry]), entry.cursor))
        && posted == [BatchDown(after.inflight.value)]
  {
    Idle(limits, history, sub);
    hide SubscriptionInv, Bytes, BatchLength, Flush;
    if !sub.resumeRequired && Fits(limits, usage, entry) {
      var queued := sub.(pending := sub.pending + [entry], pendingBytes := sub.pendingBytes + |entry.data|);
      assert Enqueue(limits, sub, usage, entry) == Flush(limits, queued);
      hide Enqueue, Fits;
      if sub.inflight.None? {
        FlushOne(limits, queued, entry);
      } else {
        FlushBusy(limits, queued);
      }
    }
  }

  lemma Idle(limits: Limits, history: seq<Entry>, sub: Subscription)
    requires SubscriptionInv(limits, history, sub)
    ensures sub.resumeRequired ==> sub.inflight.None? && sub.pending == []
    ensures sub.inflight.None? ==> sub.pending == []
  {
    hide Flatten, Bytes, InFlight, Small;
  }

  lemma FlushBusy(limits: Limits, sub: Subscription)
    requires sub.inflight.Some?
    ensures Flush(limits, sub) == sub
  {
  }

  lemma FlushOne(limits: Limits, sub: Subscription, entry: Entry)
    requires limits.Valid() && !sub.resumeRequired && sub.inflight.None? && sub.pending == [entry]
    ensures
      Flush(limits, sub)
      == sub.(pending := [], pendingBytes := 0,
              inflight := Some(Batch(sub.nextBatchId, [entry], Bytes([entry]), entry.cursor)),
              nextBatchId := sub.nextBatchId + 1, sent := sub.sent + [[entry]])
  {
    assert BatchLength(limits, sub.pending, 0, 0) == 1 by {
      assert BatchLength(limits, sub.pending, 1, |entry.data|) == 1;
    }
    assert sub.pending[..1] == [entry] && sub.pending[1..] == [] && Bytes([]) == 0;
    hide Bytes, BatchLength;
  }

  /** An accepted acknowledgement posts the front of the queue, if there is any. */
  lemma AckShape(limits: Limits, history: seq<Entry>, sub: Subscription, cursor: Option<Cursor>)
    requires limits.Valid() && SubscriptionInv(limits, history, sub) && sub.inflight.Some?
    ensures !sub.resumeRequired
    ensures
      var after := Acknowledge(limits, sub, cursor);
      var posted := Posted(sub, after);
      && !after.resumeRequired
      && if sub.pending == [] then after.pending == [] && after.inflight.None? && posted == []
         else
           && after.inflight.Some?
           && var batch := after.inflight.value;
              && batch.entries != [] && sub.pending == batch.entries + after.pending
              && batch.cursor == LastCursor(batch.entries)
              && posted == [BatchDown(batch)]
  {
    hide Flatten, Bytes;
    if sub.pending != [] {
      var n := BatchLength(limits, sub.pending, 0, 0);
      BatchTakes(limits, sub.pending);
      assert sub.pending == sub.pending[..n] + sub.pending[n..];
      hide BatchLength;
    }
  }

  lemma BatchTakes(limits: Limits, pending: seq<Entry>)
    requires limits.Valid() && pending != []
    ensures 0 < BatchLength(limits, pending, 0, 0)
  {
    assert BatchLength(limits, pending, 0, 0) == BatchLength(limits, pending, 1, |pending[0].data|);
  }

  // ---------------------------------------------------------------------------------------------
  // An offer keeps the link
  // ---------------------------------------------------------------------------------------------

  function Send(link: Link, message: Down): Link {
    link.(down := link.down + [message])
  }

  lemma SendTransit(link: Link, message: Down)
    ensures Transit(Send(link, message)) == Transit(link) + (if message.BatchDown? then message.batch.entries else [])
    ensures !message.BatchDown? ==> Tokens(Send(link, message)) == Tokens(link)
    ensures message.BatchDown? && Tokens(link) == [] ==> Tokens(Send(link, message)) == [Ticket(message.batch)]
  {
    DownSnoc(link.down, message);
    hide DownEntries, DownTokens, ChainEntries, ChainTokens, RunEntries, RunTokens, UpTokens, Ticket;
  }

  lemma SendKeeps(link: Link, message: Down)
    requires WellFormed(link) && Replying(link) && Latest(link) && !message.ReplyDown?
    requires message.BatchDown? ==> message.batch.entries != []
    ensures WellFormed(Send(link, message)) && Replying(Send(link, message)) && Latest(Send(link, message))
    ensures SafeDown(link.down) ==> SafeDown(Send(link, message).down)
    ensures (ResumeDown in Send(link, message).down) == (ResumeDown in link.down || message == ResumeDown)
  {
    DownSnoc(link.down, message);
    hide SafeDown, Replies, DownEntries, DownTokens;
  }

  lemma HistoryMore(history: seq<Entry>, next: nat, entry: Entry, transit: seq<Entry>)
    requires next <= |history|
    ensures (history + [entry])[next..] == history[next..] + [entry]
    ensures transit <= history[next..] ==> transit <= (history + [entry])[next..]
  {
  }

  /** The parts of the link that an offer cannot disturb. */
  lemma SubKeeps(link: Link, sub: Subscription)
    requires WellFormed(link) && Replying(link) && Latest(link)
    ensures var r := link.(sub := Some(sub));
      && WellFormed(r) && Replying(r) && Latest(r) && Transit(r) == Transit(link) && Tokens(r) == Tokens(link)
  {
    hide Transit, Tokens;
    assert Transit(link.(sub := Some(sub))) == Transit(link) && Tokens(link.(sub := Some(sub))) == Tokens(link) by {
      TransitOf(link, link.(sub := Some(sub)));
    }
  }

  lemma TransitOf(a: Link, b: Link)
    requires a.running == b.running && a.generation == b.generation && a.chain == b.chain && a.down == b.down
    ensures Transit(a) == Transit(b)
    ensures a.up == b.up ==> Tokens(a) == Tokens(b)
  {
  }

  lemma OfferLagging(limits: Limits, history: seq<Entry>, link: Link, entry: Entry)
    requires Attached(limits, history, link) && link.sub.value.resumeRequired
    requires SubscriptionInv(limits, history + [entry], link.sub.value)
    ensures Attached(limits, history + [entry], link)
  {
    hide SubscriptionInv, WellFormed, Latest, Matched, Signalled, Replying, Transit;
    HistoryMore(history, link.next, entry, Transit(link));
  }

  lemma OfferQueued(limits: Limits, history: seq<Entry>, link: Link, entry: Entry, after: Subscription)
    requires Attached(limits, history, link) && !link.sub.value.resumeRequired && link.sub.value.inflight.Some?
    requires after == link.sub.value.(pending := link.sub.value.pending + [entry], pendingBytes := after.pendingBytes)
    requires SubscriptionInv(limits, history + [entry], after)
    ensures Attached(limits, history + [entry], link.(sub := Some(after)))
  {
    hide SubscriptionInv, WellFormed, Latest, Replying, Transit, Tokens, SafeDown;
    SubKeeps(link, after);
    HistoryMore(history, link.next, entry, Transit(link));
    assert Transit(link) + (link.sub.value.pending + [entry]) == (Transit(link) + link.sub.value.pending) + [entry];
  }

  lemma OfferRefused(limits: Limits, history: seq<Entry>, link: Link, entry: Entry)
    requires Attached(limits, history, link) && !link.sub.value.resumeRequired
    requires SubscriptionInv(limits, history + [entry], RequireResume(link.sub.value))
    ensures Attached(limits, history + [entry], Send(link.(sub := Some(RequireResume(link.sub.value))), ResumeDown))
  {
    hide SubscriptionInv, WellFormed, Latest, Replying, Transit, Tokens, SafeDown;
    SubKeeps(link, RequireResume(link.sub.value));
    var told := link.(sub := Some(RequireResume(link.sub.value)));
    SendKeeps(told, ResumeDown);
    SendTransit(told, ResumeDown);
    HistoryMore(history, link.next, entry, Transit(link));
  }

  lemma OfferPosted(limits: Limits, history: seq<Entry>, link: Link, entry: Entry, after: Subscription, batch: Batch)
    requires Attached(limits, history, link) && !link.sub.value.resumeRequired && link.sub.value.inflight.None?
    requires link.sub.value.pending == [] && after.pending == [] && !after.resumeRequired
    requires after.inflight == Some(batch) && batch.entries == [entry] && batch.cursor == entry.cursor
    requires SubscriptionInv(limits, history + [entry], after)
    ensures Attached(limits, history + [entry], Send(link.(sub := Some(after)), BatchDown(batch)))
  {
    hide SubscriptionInv, WellFormed, Latest, Replying, Transit, Tokens, SafeDown;
    SubKeeps(link, after);
    var next := link.(sub := Some(after));
    SendKeeps(next, BatchDown(batch));
    SendTransit(next, BatchDown(batch));
    HistoryMore(history, link.next, entry, Transit(link));
    assert Transit(link) + [] == Transit(link);
  }

  lemma OfferAttached(limits: Limits, history: seq<Entry>, link: Link, other: Usage, entry: Entry)
    requires limits.Valid() && Attached(limits, history, link)
    ensures Attached(limits, history + [entry], Offer(limits, link, other, entry))
  {
    var sub := link.sub.value;
    var usage := Plus(other, Outstanding(sub));
    var after := Enqueue(limits, sub, usage, entry);
    assert Offer(limits, link, other, entry) == link.(sub := Some(after), down := link.down + Posted(sub, after));
    hide Attached, SubscriptionInv, Enqueue, Offer, Outstanding, Posted, Fits;
    AttachedSub(limits, history, link);
    EnqueueInv(limits, history, sub, usage, entry);
    OfferShape(limits, history, sub, usage, entry);
    if sub.resumeRequired {
      assert link.down + [] == link.down;
      OfferLagging(limits, history, link, entry);
    } else if !Fits(limits, usage, entry) {
      OfferRefused(limits, history, link, entry);
    } else if sub.inflight.Some? {
      assert link.down + [] == link.down;
      OfferQueued(limits, history, link, entry, after);
    } else {
      OfferPosted(limits, history, link, entry, after, after.inflight.value);
    }
  }

  lemma AttachedSub(limits: Limits, history: seq<Entry>, link: Link)
    requires Attached(limits, history, link)
    ensures SubscriptionInv(limits, history, link.sub.value)
  {
  }

  lemma {:induction false} FillAttached(limits: Limits, history: seq<Entry>, link: Link, other: Usage,
                                        entries: seq<Entry>)
    requires limits.Valid() && link.sub.Some? && Attached(limits, history, link)
    ensures Attached(limits, history + entries, Fill(limits, link, other, entries))
    decreases |entries|
  {
    hide *;
    FillSteps(limits, link, other, entries);
    if entries == [] {
      assert history + [] == history;
    } else {
      var front, last := entries[..|entries| - 1], entries[|entries| - 1];
      FillAttached(limits, history, link, other, front);
      assert history + entries == (history + front) + [last];
      OfferAttached(limits, history + front, Fill(limits, link, other, front), other, last);
    }
  }

  lemma FillSteps(limits: Limits, link: Link, other: Usage, entries: seq<Entry>)
    requires link.sub.Some?
    ensures entries == [] ==> Fill(limits, link, other, entries) == link
    ensures entries != [] ==>
      Fill(limits, link, other, entries)
      == Offer(limits, Fill(limits, link, other, entries[..|entries| - 1]), other, entries[|entries| - 1])
  {
    hide Offer;
  }
}
