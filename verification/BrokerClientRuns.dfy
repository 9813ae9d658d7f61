/** Every run of a lease: delivery without gaps across reconnects, and a quiet live lease that has everything. */
module BrokerClientRuns {
  import opened Prelude
  import opened Broker
  import opened BrokerInvariants
  import opened BrokerPromises
  import opened BrokerClient
  import opened BrokerClientSafety

  // ---------------------------------------------------------------------------------------------
  // The worker reads
  // ---------------------------------------------------------------------------------------------

  /** A live tab's acknowledgement names the batch in flight, unless the worker has already given up on the tab. */
  lemma AckMatches(limits: Limits, history: seq<Entry>, link: Link)
    requires Attached(limits, history, link) && link.up != []
    ensures link.up[0].AckUp? && link.up[1..] == [] && Replies(link.down) == 0
    ensures link.running.Some? && link.running.value.acking
    ensures !link.sub.value.resumeRequired ==>
      && link.sub.value.inflight.Some?
      && link.sub.value.inflight.value.id == link.up[0].id
      && link.sub.value.inflight.value.cursor == link.up[0].cursor
      && Tokens(link.(up := [])) == []
  {
    hide SubscriptionInv, WellFormed, Latest, Signalled, Carried, DownTokens, ChainTokens, RunTokens;
    assert UpTokens(link.up) == [Token(link.up[0].id, link.up[0].cursor)] by {
      assert UpTokens(link.up[1..]) == [];
    }
    hide UpTokens;
    if !link.sub.value.resumeRequired {
      assert |Tokens(link)| == 1;
      assert Tokens(link)[0] == UpTokens(link.up)[0];
      hide Replying;
      NoUpTokens();
    }
  }

  lemma NoUpTokens()
    ensures UpTokens([]) == []
  {
  }

  function Answered(link: Link, ok: bool): Link {
    link.(down := link.down + [ReplyDown(ok)])
  }

  /** The reply to the acknowledgement that was just taken off the line. */
  lemma AnswerKeeps(link: Link, ok: bool)
    requires WellFormed(link) && Latest(link)
    requires link.up == [] && Replies(link.down) == 0 && link.running.Some? && link.running.value.acking
    requires SafeDown(link.down) && (!ok ==> ResumeDown in link.down)
    ensures var r := Answered(link, ok);
      && WellFormed(r) && Latest(r) && Replying(r) && SafeDown(r.down)
      && Transit(r) == Transit(link) && Tokens(r) == Tokens(link)
      && ((ResumeDown in r.down) == (ResumeDown in link.down))
  {
    DownSnoc(link.down, ReplyDown(ok));
    hide SafeDown, Replies, DownEntries, DownTokens, ChainEntries, ChainTokens, UpTokens, RunEntries, RunTokens;
    assert DownEntries(link.down) + [] == DownEntries(link.down);
    assert DownTokens(link.down) + [] == DownTokens(link.down);
  }

  lemma RefuseAttached(limits: Limits, history: seq<Entry>, link: Link)
    requires Attached(limits, history, link) && link.up != [] && link.sub.value.resumeRequired
    ensures Attached(limits, history, Answered(link.(up := link.up[1..]), false))
  {
    AckMatches(limits, history, link);
    var rest := link.(up := []);
    hide SubscriptionInv, WellFormed, Latest, Replying, Transit, Tokens, SafeDown, Replies;
    PopUp(link);
    AnswerKeeps(rest, false);
  }

  lemma PopUp(link: Link)
    requires WellFormed(link) && Latest(link)
    ensures WellFormed(link.(up := [])) && Latest(link.(up := [])) && Transit(link.(up := [])) == Transit(link)
  {
    TransitOf(link, link.(up := []));
    hide Transit;
  }

  /** The acknowledgement is taken and nothing was queued. */
  lemma TakeIdle(limits: Limits, history: seq<Entry>, link: Link, after: Subscription)
    requires Attached(limits, history, link) && link.up != [] && !link.sub.value.resumeRequired
    requires SubscriptionInv(limits, history, after) && !after.resumeRequired
    requires link.sub.value.pending == [] && after.pending == [] && after.inflight.None?
    ensures Attached(limits, history, Answered(link.(up := [], sub := Some(after)), true))
  {
    AckMatches(limits, history, link);
    hide SubscriptionInv, WellFormed, Latest, Replying, Transit, Tokens, SafeDown, Replies;
    PopUp(link);
    var taken := link.(up := [], sub := Some(after));
    SubOnly(link.(up := []), after);
    AnswerKeeps(taken, true);
  }

  lemma SubOnly(link: Link, sub: Subscription)
    ensures var r := link.(sub := Some(sub));
      && WellFormed(r) == WellFormed(link) && Latest(r) == Latest(link)
      && Transit(r) == Transit(link) && Tokens(r) == Tokens(link)
  {
    TransitOf(link, link.(sub := Some(sub)));
    hide Transit, Tokens;
  }

  /** The acknowledgement is taken and the next batch goes out ahead of the reply. */
  lemma TakePosted(limits: Limits, history: seq<Entry>, link: Link, after: Subscription, batch: Batch)
    requires Attached(limits, history, link) && link.up != [] && !link.sub.value.resumeRequired
    requires SubscriptionInv(limits, history, after) && !after.resumeRequired && after.inflight == Some(batch)
    requires batch.entries != [] && link.sub.value.pending == batch.entries + after.pending
    requires batch.cursor == LastCursor(batch.entries)
    ensures Attached(limits, history,
                     Answered(Send(link.(up := [], sub := Some(after)), BatchDown(batch)), true))
  {
    AckMatches(limits, history, link);
    var quiet, taken := link.(up := []), link.(up := [], sub := Some(after));
    var posted := Send(taken, BatchDown(batch));
    hide SubscriptionInv, WellFormed, Latest, Transit, Tokens, SafeDown, Replies;
    assert Replies(link.down) == 0 && SafeDown(link.down) && WellFormed(link) && Latest(link);
    assert ResumeDown !in link.down && Transit(link) + link.sub.value.pending == history[link.next..];
    hide Replying, Signalled, Matched, Carried;
    PopUp(link);
    SubOnly(quiet, after);
    BatchOut(taken, batch);
    SendTransit(taken, BatchDown(batch));
    AnswerKeeps(posted, true);
    TakenCarried(history, link.next, Transit(link), batch.entries, after.pending);
    Assemble(limits, history, Answered(posted, true));
  }

  lemma TakenCarried(history: seq<Entry>, next: nat, transit: seq<Entry>, entries: seq<Entry>, pending: seq<Entry>)
    requires next <= |history| && transit + (entries + pending) == history[next..]
    ensures (transit + entries) + pending == history[next..]
  {
    assert (transit + entries) + pending == transit + (entries + pending);
  }

  /** A link that is not told to resume, with a batch in flight. */
  lemma Assemble(limits: Limits, history: seq<Entry>, link: Link)
    requires link.sub.Some? && SubscriptionInv(limits, history, link.sub.value) && !link.sub.value.resumeRequired
    requires WellFormed(link) && Latest(link) && Replying(link) && SafeDown(link.down) && ResumeDown !in link.down
    requires link.next <= |history| && Transit(link) + link.sub.value.pending == history[link.next..]
    requires link.sub.value.inflight.Some?
    requires Tokens(link) == [Token(link.sub.value.inflight.value.id, link.sub.value.inflight.value.cursor)]
    ensures Attached(limits, history, link)
  {
    hide SubscriptionInv, WellFormed, Latest, Transit, Tokens, SafeDown, Replying;
  }

  lemma BatchOut(link: Link, batch: Batch)
    requires WellFormed(link) && Latest(link) && batch.entries != []
    ensures var r := Send(link, BatchDown(batch));
      && WellFormed(r) && Latest(r) && Replies(r.down) == Replies(link.down)
      && (SafeDown(link.down) ==> SafeDown(r.down))
      && ((ResumeDown in r.down) == (ResumeDown in link.down))
  {
    DownSnoc(link.down, BatchDown(batch));
    hide SafeDown, Replies, DownEntries, DownTokens;
  }

  lemma AckAttached(limits: Limits, history: seq<Entry>, link: Link)
    requires limits.Valid() && Attached(limits, history, link) && link.up != []
    ensures link.up[0].AckUp?
    ensures Attached(limits, history, AckTab(limits, link.(up := link.up[1..]), link.up[0].id, link.up[0].cursor))
  {
    AckMatches(limits, history, link);
    AttachedSub(limits, history, link);
    var sub, cursor := link.sub.value, link.up[0].cursor;
    if sub.resumeRequired {
      Idle(limits, history, sub);
      hide *;
      RefuseAttached(limits, history, link);
      AckRefused(limits, link.(up := []), link.up[0].id, cursor);
    } else {
      var after := Acknowledge(limits, sub, cursor);
      assert sub.inflight.value.id == link.up[0].id && sub.inflight.value.cursor == cursor;
      hide *;
      AcknowledgeInv(limits, history, sub, cursor);
      AckShape(limits, history, sub, cursor);
      AckTaken(limits, link.(up := []), link.up[0].id, cursor);
      if sub.pending == [] {
        assert link.down + [] + [ReplyDown(true)] == link.down + [ReplyDown(true)];
        TakeIdle(limits, history, link, after);
      } else {
        TakePosted(limits, history, link, after, after.inflight.value);
      }
    }
  }

  lemma AckRefused(limits: Limits, link: Link, id: nat, cursor: Option<Cursor>)
    requires link.sub.Some? && link.sub.value.inflight.None?
    ensures AckTab(limits, link, id, cursor) == Answered(link, false)
  {
  }

  lemma AckTaken(limits: Limits, link: Link, id: nat, cursor: Option<Cursor>)
    requires link.sub.Some? && link.sub.value.inflight.Some?
    requires link.sub.value.inflight.value.id == id && link.sub.value.inflight.value.cursor == cursor
    ensures
      var after := Acknowledge(limits, link.sub.value, cursor);
      AckTab(limits, link, id, cursor)
      == link.(sub := Some(after), down := link.down + Posted(link.sub.value, after) + [ReplyDown(true)])
    ensures forall s: Subscription, d: seq<Down> ::
      Answered(link.(sub := Some(s), down := d), true) == link.(sub := Some(s), down := d + [ReplyDown(true)])
  {
    hide Acknowledge, Posted;
  }

  // ---------------------------------------------------------------------------------------------
  // The tab reads
  // ---------------------------------------------------------------------------------------------

  lemma PopDown(down: seq<Down>)
    requires down != []
    ensures DownEntries(down) == (if down[0].BatchDown? then down[0].batch.entries else []) + DownEntries(down[1..])
    ensures DownTokens(down) == (if down[0].BatchDown? then [Ticket(down[0].batch)] else []) + DownTokens(down[1..])
    ensures Replies(down) == (if down[0].ReplyDown? then 1 else 0) + Replies(down[1..])
    ensures SafeDown(down) && down[0] != ResumeDown ==> down[0] != ReplyDown(false) && SafeDown(down[1..])
    ensures down[0] != ResumeDown ==> ((ResumeDown in down) == (ResumeDown in down[1..]))
  {
    assert down == [down[0]] + down[1..];
  }

  lemma PopBatch(link: Link)
    requires link.down != [] && link.down[0].BatchDown? && WellFormed(link) && Latest(link)
    ensures
      var r := link.(down := link.down[1..], chain := link.chain + [Received(link.down[0].batch, link.generation)]);
      && WellFormed(r) && Latest(r) && Transit(r) == Transit(link) && Tokens(r) == Tokens(link)
      && Replies(r.down) == Replies(link.down)
  {
    var batch, g := link.down[0].batch, link.generation;
    var r := link.(down := link.down[1..], chain := link.chain + [Received(batch, g)]);
    PopDown(link.down);
    ChainSnoc(link.chain, Received(batch, g), g);
    hide DownEntries, DownTokens, ChainEntries, ChainTokens, UpTokens, RunTokens, RunEntries, Replies, SafeDown, Ticket;
    assert WellFormed(r) && Latest(r);
    hide WellFormed, Latest;
    Regroup(ChainEntries(link.chain, g), batch.entries, DownEntries(r.down));
    Regroup(ChainTokens(link.chain, g), [Ticket(batch)], DownTokens(r.down));
    Regroup(ChainTokens(link.chain, g) + [Ticket(batch)], DownTokens(r.down), UpTokens(r.up));
    Regroup(ChainTokens(link.chain, g), [Ticket(batch)] + DownTokens(r.down), UpTokens(r.up));
  }

  lemma Regroup<T>(a: seq<T>, b: seq<T>, c: seq<T>)
    ensures (a + b) + c == a + (b + c)
  {
  }

  lemma ReadBatchAttached(limits: Limits, history: seq<Entry>, link: Link)
    requires Attached(limits, history, link) && link.down != [] && link.down[0].BatchDown?
    ensures Attached(limits, history,
      link.(down := link.down[1..], chain := link.chain + [Received(link.down[0].batch, link.generation)]))
  {
    hide *;
    var r := link.(down := link.down[1..], chain := link.chain + [Received(link.down[0].batch, link.generation)]);
    AttachedSigns(limits, history, link);
    PopBatch(link);
    PopDown(link.down);
    SameReplying(link, r);
    ReplacedAttached(limits, history, link, r);
  }

  lemma AttachedSigns(limits: Limits, history: seq<Entry>, link: Link)
    requires Attached(limits, history, link)
    ensures WellFormed(link) && Latest(link) && Replying(link) && SafeDown(link.down)
  {
    hide SubscriptionInv, WellFormed, Latest, Carried, Matched, Replying, SafeDown;
  }

  lemma SameReplying(a: Link, b: Link)
    requires Replying(a) && b.up == a.up && Replies(b.down) == Replies(a.down) && b.running == a.running
    ensures Replying(b)
  {
    hide Replies;
  }

  /** A link that carries the same, with the same signs on its way down. */
  lemma ReplacedAttached(limits: Limits, history: seq<Entry>, a: Link, b: Link)
    requires Attached(limits, history, a) && WellFormed(b) && Latest(b) && Replying(b) && SafeDown(b.down)
    requires b.sub == a.sub && b.next == a.next && Transit(b) == Transit(a) && Tokens(b) == Tokens(a)
    requires (ResumeDown in b.down) == (ResumeDown in a.down)
    ensures Attached(limits, history, b)
  {
    hide SubscriptionInv, WellFormed, Latest, Transit, Tokens, SafeDown, Replying;
  }

  lemma PopReply(link: Link)
    requires link.down != [] && link.down[0].ReplyDown? && WellFormed(link) && Latest(link) && Replying(link)
    ensures link.running.Some? && link.running.value.acking
    ensures
      var r := link.(down := link.down[1..], running := None);
      && WellFormed(r) && Latest(r) && Replying(r) && Transit(r) == Transit(link) && Tokens(r) == Tokens(link)
  {
    PopDown(link.down);
    hide SafeDown, Replies, DownEntries, DownTokens, ChainEntries, ChainTokens, UpTokens;
    assert RunEntries(link.running, link.generation) == [] == RunEntries(None, link.generation);
    assert RunTokens(link.running, link.generation) == [] == RunTokens(None, link.generation);
    hide RunEntries, RunTokens;
  }

  /** A live tab is never refused: the reply it reads to an acknowledgement is an acceptance. */
  lemma ReadReplyAttached(limits: Limits, history: seq<Entry>, link: Link)
    requires Attached(limits, history, link) && link.down != [] && link.down[0].ReplyDown?
    ensures link.down[0].ok && link.running.Some? && link.running.value.acking
    ensures Attached(limits, history, link.(down := link.down[1..], running := None))
  {
    PopDown(link.down);
    PopReply(link);
    hide SubscriptionInv, SafeDown, Transit, Tokens, WellFormed, Latest, Replying, DownEntries, DownTokens, Replies;
  }

  // ---------------------------------------------------------------------------------------------
  // The tab hands items to its handler
  // ---------------------------------------------------------------------------------------------

  lemma PopChain(chain: seq<Received>, generation: nat)
    requires chain != []
    ensures ChainEntries(chain, generation)
         == (if chain[0].generation == generation then chain[0].batch.entries else [])
          + ChainEntries(chain[1..], generation)
    ensures ChainTokens(chain, generation)
         == (if chain[0].generation == generation then [Ticket(chain[0].batch)] else [])
          + ChainTokens(chain[1..], generation)
  {
  }

  lemma DropTransit(link: Link)
    requires link.chain != [] && link.chain[0].generation != link.generation
    requires WellFormed(link) && Latest(link) && Replying(link)
    ensures var r := link.(chain := link.chain[1..]);
      && WellFormed(r) && Latest(r) && Replying(r) && Transit(r) == Transit(link) && Tokens(r) == Tokens(link)
  {
    PopChain(link.chain, link.generation);
    var r := link.(chain := link.chain[1..]);
    hide Replies, DownEntries, DownTokens, ChainEntries, ChainTokens, UpTokens, RunEntries, RunTokens;
    assert WellFormed(r) && Latest(r) && Replying(r);
    hide WellFormed, Latest, Replying;
    Unprefixed(ChainEntries(r.chain, r.generation));
    Unprefixed(ChainTokens(r.chain, r.generation));
  }

  lemma Unprefixed<T>(a: seq<T>)
    ensures [] + a == a
  {
  }

  /** A stale batch leaves the chain without effect. */
  lemma DropStale(limits: Limits, history: seq<Entry>, link: Link)
    requires Attached(limits, history, link) && link.chain != [] && link.chain[0].generation != link.generation
    ensures Attached(limits, history, link.(chain := link.chain[1..]))
  {
    DropTransit(link);
    hide SubscriptionInv, SafeDown, Transit, Tokens, WellFormed, Latest, Replying;
  }

  /** Whether an item is due: its position and the rest. */
  lemma ItemIsDue(history: seq<Entry>, next: nat, entry: Entry, rest: seq<Entry>, pending: seq<Entry>)
    requires next <= |history|
    ensures [entry] + rest <= history[next..] ==>
      next < |history| && history[next] == entry && rest <= history[next + 1..]
    ensures ([entry] + rest) + pending == history[next..] ==>
      next < |history| && history[next] == entry && rest + pending == history[next + 1..]
  {
    if [entry] + rest <= history[next..] {
      assert history[next..][0] == entry && history[next..][1..] == history[next + 1..];
    }
    if ([entry] + rest) + pending == history[next..] {
      assert history[next..][0] == entry && history[next..][1..] == history[next + 1..];
      assert (([entry] + rest) + pending)[1..] == rest + pending;
    }
  }

  lemma StartTransit(link: Link)
    requires WellFormed(link) && link.running.None? && link.chain != [] && link.chain[0].generation == link.generation
    ensures link.chain[0].batch.entries != []
    ensures
      var batch := link.chain[0].batch;
      var r := link.(chain := link.chain[1..], running := Some(Running(batch, link.generation, 1, false)));
      && Transit(link) == [batch.entries[0]] + Transit(r) && Tokens(r) == Tokens(link)
      && WellFormed(r)
  {
    PopChain(link.chain, link.generation);
    hide DownEntries, DownTokens, ChainEntries, ChainTokens, UpTokens, Ticket;
    var entries := link.chain[0].batch.entries;
    assert entries == [entries[0]] + entries[1..];
  }

  lemma HandAttached(limits: Limits, history: seq<Entry>, before: Link, r: Link, entry: Entry)
    requires Attached(limits, history, before) && WellFormed(r) && Replying(r)
    requires r.sub == before.sub && r.down == before.down && r.next == before.next
    requires Transit(before) == [entry] + Transit(r) && Tokens(r) == Tokens(before)
    requires r.running.Some? && Accepting(r.running, r.generation)
    requires entry == r.running.value.batch.entries[r.running.value.handed - 1]
    ensures before.next < |history| && history[before.next] == entry
    ensures Attached(limits, history, Hand(r, entry))
  {
    hide SubscriptionInv, Transit, Tokens, SafeDown;
    ItemIsDue(history, before.next, entry, Transit(r), before.sub.value.pending);
    TransitOf(r, Hand(r, entry));
    hide WellFormed;
    assert WellFormed(Hand(r, entry)) && Replying(Hand(r, entry)) by {
      HandShape(r, entry);
    }
    assert Latest(Hand(r, entry));
    hide Replying, Latest;
  }

  lemma HandShape(link: Link, entry: Entry)
    requires WellFormed(link) && Replying(link)
    ensures WellFormed(Hand(link, entry)) && Replying(Hand(link, entry))
  {
    hide Replies;
  }

  lemma StartAttached(limits: Limits, history: seq<Entry>, link: Link)
    requires Attached(limits, history, link) && link.running.None? && link.chain != []
    requires link.chain[0].generation == link.generation
    ensures link.chain[0].batch.entries != []
    ensures
      var batch := link.chain[0].batch;
      var r := link.(chain := link.chain[1..], running := Some(Running(batch, link.generation, 1, false)));
      && link.next < |history| && history[link.next] == batch.entries[0]
      && Attached(limits, history, Hand(r, batch.entries[0]))
  {
    StartTransit(link);
    var batch := link.chain[0].batch;
    var r := link.(chain := link.chain[1..], running := Some(Running(batch, link.generation, 1, false)));
    hide SubscriptionInv, Transit, Tokens, SafeDown, Replies, WellFormed, Latest, Carried, Matched, Signalled;
    HandAttached(limits, history, link, r, batch.entries[0]);
  }

  lemma NextTransit(link: Link)
    requires WellFormed(link) && Accepting(link.running, link.generation)
    requires link.running.value.handed < |link.running.value.batch.entries|
    ensures
      var running := link.running.value;
      var r := link.(running := Some(running.(handed := running.handed + 1)));
      && Transit(link) == [running.batch.entries[running.handed]] + Transit(r) && Tokens(r) == Tokens(link)
      && WellFormed(r)
  {
    hide DownEntries, DownTokens, ChainEntries, ChainTokens, UpTokens, Ticket;
    var running := link.running.value;
    var entries := running.batch.entries;
    assert entries[running.handed..] == [entries[running.handed]] + entries[running.handed + 1..];
  }

  lemma NextAttached(limits: Limits, history: seq<Entry>, link: Link)
    requires Attached(limits, history, link) && Accepting(link.running, link.generation)
    requires link.running.value.handed < |link.running.value.batch.entries|
    ensures
      var running := link.running.value;
      var r := link.(running := Some(running.(handed := running.handed + 1)));
      && link.next < |history| && history[link.next] == running.batch.entries[running.handed]
      && Attached(limits, history, Hand(r, running.batch.entries[running.handed]))
  {
    NextTransit(link);
    var running := link.running.value;
    var r := link.(running := Some(running.(handed := running.handed + 1)));
    hide SubscriptionInv, Transit, Tokens, SafeDown, Replies, WellFormed, Latest, Carried, Matched, Signalled;
    HandAttached(limits, history, link, r, running.batch.entries[running.handed]);
  }

  lemma CompleteTransit(link: Link)
    requires WellFormed(link) && Accepting(link.running, link.generation)
    requires link.running.value.handed == |link.running.value.batch.entries|
    ensures
      var r := Complete(link, link.running.value.batch);
      && Transit(r) == Transit(link) && WellFormed(r) && (|Tokens(link)| == 1 ==> Tokens(r) == Tokens(link))
  {
    var batch := link.running.value.batch;
    UpSnoc(link.up, batch.id, LastCursor(batch.entries));
    hide DownEntries, DownTokens, ChainEntries, ChainTokens, UpTokens, LastCursor;
  }

  lemma CompleteAttached(limits: Limits, history: seq<Entry>, link: Link)
    requires Attached(limits, history, link) && Accepting(link.running, link.generation)
    requires link.running.value.handed == |link.running.value.batch.entries|
    ensures Attached(limits, history, Complete(link, link.running.value.batch))
  {
    CompleteTransit(link);
    assert !link.sub.value.resumeRequired ==> |Tokens(link)| == 1 by {
      assert RunTokens(link.running, link.generation) != [];
      hide SubscriptionInv, Carried, ChainTokens, DownTokens, UpTokens;
    }
    hide SubscriptionInv, Transit, Tokens, SafeDown, Replies, WellFormed;
  }

  lemma StopStale(limits: Limits, history: seq<Entry>, link: Link)
    requires Attached(limits, history, link) && link.running.Some? && link.running.value.generation != link.generation
    ensures Attached(limits, history, link.(running := None))
  {
    assert RunEntries(link.running, link.generation) == [] == RunEntries(None, link.generation);
    assert RunTokens(link.running, link.generation) == [] == RunTokens(None, link.generation);
    hide SubscriptionInv, SafeDown, Replies, DownEntries, DownTokens, ChainEntries, ChainTokens, UpTokens;
    hide RunEntries, RunTokens;
  }

  // ---------------------------------------------------------------------------------------------
  // What was handed over
  // ---------------------------------------------------------------------------------------------

  lemma HighSnoc(handed: seq<Handed>, last: Handed, first: nat)
    ensures High(handed + [last], first)
         == (if High(handed, first) <= last.position then last.position + 1 else High(handed, first))
  {
    assert (handed + [last])[..|handed|] == handed;
  }

  lemma GapFreeSnoc(handed: seq<Handed>, last: Handed, first: nat)
    requires GapFree(handed, first) && last.position <= High(handed, first)
    ensures GapFree(handed + [last], first)
  {
    var all := handed + [last];
    hide High;
    forall k | 0 <= k < |all|
      ensures all[k].position <= High(all[..k], first)
    {
      if k < |handed| {
        assert all[..k] == handed[..k];
      } else {
        assert all[..k] == handed;
      }
    }
  }

  /** A link that differs only in its messages and in the head of its chain. */
  predicate SameRecord(a: Link, b: Link) {
    && a.source == b.source && a.first == b.first && a.handed == b.handed && a.next == b.next
    && a.lastCursor == b.lastCursor && (b.sub.Some? ==> a.sub.Some?) && (b.end == Open ==> a.end == Open)
  }

  lemma SameCovered(a: Link, b: Link)
    requires Covered(a) && SameRecord(a, b)
    ensures Covered(b)
  {
    hide GapFree, Truthful, High;
  }

  lemma HandCovered(link: Link, entry: Entry)
    requires Covered(link) && link.first.Some? && link.end == Open
    requires link.next < |link.source.history| && link.source.history[link.next] == entry
    ensures Covered(Hand(link, entry))
  {
    var first, last := link.first.value, Handed(link.next, entry);
    GapFreeSnoc(link.handed, last, first);
    HighSnoc(link.handed, last, first);
    hide GapFree, High;
  }

  lemma CompleteCovered(link: Link, batch: Batch)
    requires Covered(link) && link.first.Some? && link.end == Open
    requires batch.entries != [] && 0 < link.next && link.handed != []
    requires link.handed[|link.handed| - 1] == Handed(link.next - 1, batch.entries[|batch.entries| - 1])
    ensures Covered(Complete(link, batch))
  {
    hide GapFree, High;
    var p := link.next - 1;
    assert p < |link.source.history| && link.source.history[p] == batch.entries[|batch.entries| - 1];
  }

  lemma GrownCovered(link: Link, source: Source)
    requires Covered(link) && link.source.history <= source.history
    ensures Covered(link.(source := source))
  {
    hide GapFree, High;
    if link.first.Some? && link.lastCursor.Some? {
      var p :| 0 <= p < High(link.handed, link.first.value) && p < |link.source.history|
        && link.source.history[p].cursor == link.lastCursor;
      assert source.history[p].cursor == link.lastCursor;
    }
  }

  lemma {:induction false} HighBounded(handed: seq<Handed>, history: seq<Entry>, first: nat)
    requires Truthful(handed, history) && first <= |history|
    ensures High(handed, first) <= |history|
    decreases |handed|
  {
    if handed != [] {
      HighBounded(handed[..|handed| - 1], history, first);
    }
  }

  // ---------------------------------------------------------------------------------------------
  // Attaching
  // ---------------------------------------------------------------------------------------------

  /** Where a reattachment starts is never past what was handed over. */
  lemma StartsInside(limits: Limits, link: Link)
    requires Suffix(limits, link.source) && UniqueCursors(link.source.history)
    requires Covered(link) && link.first.Some? && Retained(link.source, link.lastCursor).Some?
    ensures
      var entries := Retained(link.source, link.lastCursor).value;
      |entries| <= |link.source.history| && |link.source.history| - |entries| <= High(link.handed, link.first.value)
  {
    hide *;
    if link.lastCursor.Some? {
      var p := ResumePoint(link);
      StartsAfter(limits, link.source, p);
    } else {
      StartsAtOnce(limits, link.source);
    }
  }

  lemma ResumePoint(link: Link) returns (p: nat)
    requires Covered(link) && link.first.Some? && link.lastCursor.Some?
    ensures p < High(link.handed, link.first.value) && p < |link.source.history|
    ensures link.source.history[p].cursor == link.lastCursor
  {
    assert Resumable(link, High(link.handed, link.first.value));
    hide GapFree, High, Truthful, Covered;
    p :| 0 <= p < High(link.handed, link.first.value) && p < |link.source.history|
      && link.source.history[p].cursor == link.lastCursor;
  }

  lemma StartsAtOnce(limits: Limits, source: Source)
    requires Suffix(limits, source) && Retained(source, None).Some?
    ensures |Retained(source, None).value| == |source.history|
  {
    hide *;
    RetainedSuffix(limits, source, None);
  }

  lemma StartsAfter(limits: Limits, source: Source, p: nat)
    requires Suffix(limits, source) && UniqueCursors(source.history)
    requires p < |source.history| && source.history[p].cursor.Some?
    requires Retained(source, source.history[p].cursor).Some?
    ensures |Retained(source, source.history[p].cursor).value| == |source.history| - p - 1
  {
    hide *;
    RetainedSince(limits, source, p);
  }

  /** A subscription that joins with nothing under way. */
  lemma JoinedAttached(limits: Limits, link: Link, before: seq<Entry>, cursor: Option<Cursor>)
    requires limits.Valid() && Detached(link)
    ensures Attached(limits, before, Joined(link.(up := []), |before|, cursor))
  {
    var sub := NewSubscription(0, 0, 0, cursor, |before|);
    NewSubscriptionInv(limits, before, sub);
    ChainStale(link.chain, link.generation);
    hide SubscriptionInv, ChainEntries, ChainTokens;
    assert before[|before|..] == [];
  }

  lemma LaggedAttached(limits: Limits, link: Link, cursor: Option<Cursor>)
    requires limits.Valid() && Detached(link) && (link.first.Some? ==> link.next <= |link.source.history|)
    ensures Attached(limits, link.source.history, Lagged(link.(up := []), cursor))
  {
    var history := link.source.history;
    var sub := NewSubscription(0, 0, 0, cursor, |history|);
    NewSubscriptionInv(limits, history, sub);
    ChainStale(link.chain, link.generation);
    hide SubscriptionInv, ChainEntries, ChainTokens;
    DownSnoc([], ResumeDown);
    assert Transit(Lagged(link.(up := []), cursor)) == [];
  }

  lemma JoinedCovered(link: Link, start: nat, cursor: Option<Cursor>)
    requires Covered(link) && start <= |link.source.history|
    requires link.first.Some? && link.end == Open ==> start <= High(link.handed, link.first.value)
    ensures Covered(Joined(link, start, cursor))
  {
    hide GapFree, Truthful;
    assert GapFree([], start) by {
      EmptyGapFree(start);
    }
  }

  lemma EmptyGapFree(start: nat)
    ensures GapFree([], start)
  {
  }

  lemma LaggedCovered(link: Link, cursor: Option<Cursor>)
    requires Covered(link)
    ensures Covered(Lagged(link, cursor))
  {
    hide GapFree, Truthful;
    EmptyGapFree(|link.source.history|);
  }

  lemma {:induction false} FillRecord(limits: Limits, link: Link, other: Usage, entries: seq<Entry>)
    requires link.sub.Some?
    ensures SameRecord(link, Fill(limits, link, other, entries))
    ensures Fill(limits, link, other, entries).end == link.end
    decreases |entries|
  {
    hide Enqueue, Outstanding;
    if entries != [] {
      FillRecord(limits, link, other, entries[..|entries| - 1]);
    }
  }

  lemma FilledInv(limits: Limits, link: Link, other: Usage, cursor: Option<Cursor>, entries: seq<Entry>, start: nat)
    requires limits.Valid() && Detached(link) && Covered(link) && Tail(entries, link.source.history)
    requires start + |entries| == |link.source.history|
    requires link.first.Some? ==> start <= High(link.handed, link.first.value)
    ensures
      var r := Fill(limits, Joined(link.(up := []), start, cursor), other, entries);
      && Covered(r) && Attached(limits, link.source.history, r)
      && r.source == link.source && r.end == link.end
  {
    hide Detached, Covered, Attached, Fill, Tail, High;
    var quiet := link.(up := []);
    var before := TailSplit(entries, link.source.history);
    assert |before| == start;
    var joined := Joined(quiet, start, cursor);
    JoinedAttached(limits, link, before, cursor);
    FillAttached(limits, before, joined, other, entries);
    SameCovered(link, quiet);
    JoinedCovered(quiet, start, cursor);
    FillRecord(limits, joined, other, entries);
    SameCovered(joined, Fill(limits, joined, other, entries));
  }

  lemma AttachInv(limits: Limits, link: Link, other: Usage)
    requires LinkInv(limits, link) && link.end == Open && link.sub.None? && UniqueCursors(link.source.history)
    requires link.up != []
    ensures link.up[0].AttachUp? && link.up[1..] == []
    ensures LinkInv(limits, AttachTab(limits, link.(up := []), other, link.up[0].reattach, link.up[0].cursor))
  {
    assert Detached(link);
    assert link.up[0].cursor == link.lastCursor && (!link.up[0].reattach ==> link.first.None?);
    assert link.up[0].AttachUp? && link.up[1..] == [];
    UnfilledTab(limits, link.(up := []), other, link.up[0].reattach);
    hide *;
    if !link.up[0].reattach {
      AttachFresh(limits, link);
    } else if Retained(link.source, link.lastCursor).None? {
      AttachLagged(limits, link);
    } else {
      AttachFilled(limits, link, other);
    }
  }

  lemma UnfilledTab(limits: Limits, link: Link, other: Usage, reattach: bool)
    ensures !reattach ==>
      AttachTab(limits, link, other, reattach, link.lastCursor) == Joined(link, |link.source.history|, link.lastCursor)
    ensures reattach && Retained(link.source, link.lastCursor).None? ==>
      AttachTab(limits, link, other, reattach, link.lastCursor) == Lagged(link, link.lastCursor)
  {
    hide Retained, Fill, Joined, Lagged;
  }

  lemma AttachFresh(limits: Limits, link: Link)
    requires LinkInv(limits, link) && link.end == Open && link.sub.None? && link.first.None?
    ensures LinkInv(limits, Joined(link.(up := []), |link.source.history|, link.lastCursor))
  {
    hide Attached, Suffix, Covered, Detached, High;
    JoinedAttached(limits, link, link.source.history, link.lastCursor);
    SameCovered(link, link.(up := []));
    JoinedCovered(link.(up := []), |link.source.history|, link.lastCursor);
  }

  lemma AttachLagged(limits: Limits, link: Link)
    requires LinkInv(limits, link) && link.end == Open && link.sub.None?
    ensures LinkInv(limits, Lagged(link.(up := []), link.lastCursor))
  {
    hide Attached, Suffix, Detached, High, Truthful, GapFree, Resumable;
    if link.first.Some? {
      HighBounded(link.handed, link.source.history, link.first.value);
    }
    LaggedAttached(limits, link, link.lastCursor);
    hide Covered;
    SameCovered(link, link.(up := []));
    LaggedCovered(link.(up := []), link.lastCursor);
  }

  lemma AttachFilled(limits: Limits, link: Link, other: Usage)
    requires LinkInv(limits, link) && link.end == Open && link.sub.None? && UniqueCursors(link.source.history)
    requires Retained(link.source, link.lastCursor).Some?
    ensures LinkInv(limits, AttachTab(limits, link.(up := []), other, true, link.lastCursor))
  {
    hide *;
    InvParts(limits, link);
    FilledTab(limits, link.(up := []), other);
    RetainedIsTail(limits, link.source, link.lastCursor);
    var entries := Retained(link.source, link.lastCursor).value;
    TailLength(entries, link.source.history);
    if link.first.Some? {
      StartsInside(limits, link);
    }
    FilledInv(limits, link, other, link.lastCursor, entries, |link.source.history| - |entries|);
    InvFrom(limits, AttachTab(limits, link.(up := []), other, true, link.lastCursor));
  }

  lemma RetainedIsTail(limits: Limits, source: Source, cursor: Option<Cursor>)
    requires Suffix(limits, source) && Retained(source, cursor).Some?
    ensures Tail(Retained(source, cursor).value, source.history)
  {
    hide *;
    RetainedSuffix(limits, source, cursor);
  }

  lemma InvParts(limits: Limits, link: Link)
    requires LinkInv(limits, link)
    ensures limits.Valid() && Suffix(limits, link.source) && Covered(link)
    ensures link.end == Open ==>
      if link.sub.Some? then Attached(limits, link.source.history, link) else Detached(link)
  {
  }

  lemma InvFrom(limits: Limits, link: Link)
    requires limits.Valid() && Suffix(limits, link.source) && Covered(link)
    requires Attached(limits, link.source.history, link)
    ensures LinkInv(limits, link)
  {
    hide Suffix, Covered;
    assert link.sub.Some?;
  }

  lemma FilledTab(limits: Limits, link: Link, other: Usage)
    requires Retained(link.source, link.lastCursor).Some?
    ensures
      var entries, emitted := Retained(link.source, link.lastCursor).value, |link.source.history|;
      |entries| <= emitted ==>
        AttachTab(limits, link, other, true, link.lastCursor)
        == Fill(limits, Joined(link, emitted - |entries|, link.lastCursor), other, entries)
  {
    hide Retained, Fill, Joined;
  }

  // ---------------------------------------------------------------------------------------------
  // Every step
  // ---------------------------------------------------------------------------------------------

  lemma SourceOnly(limits: Limits, history: seq<Entry>, link: Link, source: Source)
    requires Attached(limits, history, link)
    ensures Attached(limits, history, link.(source := source))
  {
    TransitOf(link, link.(source := source));
    hide SubscriptionInv, Transit, Tokens, SafeDown, Replies;
  }

  lemma DetachedMore(link: Link, source: Source)
    requires Detached(link)
    ensures Detached(link.(source := source))
  {
  }

  lemma EmitKeeps(limits: Limits, link: Link, entry: Entry, other: Usage)
    requires LinkInv(limits, link)
    ensures LinkInv(limits, EmitOn(limits, link, entry, other))
    ensures EmitOn(limits, link, entry, other).source.history == link.source.history + [entry]
  {
    var source := Append(limits, link.source, entry);
    var emitted := link.(source := source);
    hide Attached, Detached, Covered, Suffix, Append, Offer;
    AppendSuffix(limits, link.source, entry);
    GrownCovered(link, source);
    if link.sub.None? {
      if link.end == Open {
        DetachedMore(link, source);
      }
    } else {
      OfferRecord(limits, emitted, other, entry);
      SameCovered(emitted, Offer(limits, emitted, other, entry));
      if link.end == Open {
        SourceOnly(limits, link.source.history, link, source);
        OfferAttached(limits, link.source.history, emitted, other, entry);
      }
    }
  }

  lemma OfferRecord(limits: Limits, link: Link, other: Usage, entry: Entry)
    requires link.sub.Some?
    ensures var r := Offer(limits, link, other, entry);
      SameRecord(link, r) && r.end == link.end && r.sub.Some?
  {
    hide Enqueue, Outstanding, Posted;
  }

  lemma WorkerReadKeeps(limits: Limits, link: Link, other: Usage)
    requires LinkInv(limits, link) && UniqueCursors(link.source.history)
    ensures LinkInv(limits, WorkerRead(limits, link, other))
    ensures WorkerRead(limits, link, other).source == link.source
  {
    WorkerReadRecord(limits, link, other);
    if link.up != [] {
      if link.end != Open {
        EndedRead(limits, link, other);
      } else if link.sub.None? {
        hide *;
        AttachInv(limits, link, other);
        ReadsAttach(limits, link, other);
      } else {
        var history := link.source.history;
        assert limits.Valid() && Attached(limits, history, link);
        AckAttached(limits, history, link);
        hide Attached, Covered, Detached, Suffix;
        var rest := link.(up := link.up[1..]);
        assert WorkerRead(limits, link, other) == AckTab(limits, rest, link.up[0].id, link.up[0].cursor);
        AckRecord(limits, rest, link.up[0].id, link.up[0].cursor);
        hide AckTab;
        SameCovered(link, WorkerRead(limits, link, other));
      }
    }
  }

  lemma ReadsAttach(limits: Limits, link: Link, other: Usage)
    requires link.up != [] && link.up[0].AttachUp? && link.up[1..] == [] && link.sub.None?
    ensures WorkerRead(limits, link, other)
         == AttachTab(limits, link.(up := []), other, link.up[0].reattach, link.up[0].cursor)
  {
    hide AttachTab;
  }

  lemma AckRecord(limits: Limits, link: Link, id: nat, cursor: Option<Cursor>)
    ensures var r := AckTab(limits, link, id, cursor);
      SameRecord(link, r) && r.end == link.end && (link.sub.Some? <==> r.sub.Some?)
  {
    hide Acknowledge, Posted;
  }

  lemma WorkerReadRecord(limits: Limits, link: Link, other: Usage)
    ensures WorkerRead(limits, link, other).source == link.source
    ensures WorkerRead(limits, link, other).end == link.end
  {
    hide Acknowledge, Posted, Enqueue, Retained, Fill;
    if link.up != [] && link.up[0].AttachUp? && link.sub.None? && link.up[0].reattach {
      var emitted, cursor, rest := |link.source.history|, link.up[0].cursor, link.(up := link.up[1..]);
      if Retained(link.source, cursor).Some? {
        var entries := Retained(link.source, cursor).value;
        var start := if |entries| <= emitted then emitted - |entries| else 0;
        FillRecord(limits, Joined(rest, start, cursor), other, entries);
      }
    }
  }

  /** The worker may go on reading after the lease has ended; the tab's record is closed. */
  lemma EndedRead(limits: Limits, link: Link, other: Usage)
    requires LinkInv(limits, link) && link.end != Open && link.up != []
    ensures LinkInv(limits, WorkerRead(limits, link, other))
  {
    hide Attached, Detached, Covered, Suffix;
    WorkerReadRecord(limits, link, other);
    if link.up[0].AckUp? {
      AckRecord(limits, link.(up := link.up[1..]), link.up[0].id, link.up[0].cursor);
      hide AckTab;
      SameCovered(link, WorkerRead(limits, link, other));
    } else if link.sub.Some? {
      SameCovered(link, link.(up := link.up[1..]));
    } else {
      EndedAttach(limits, link, other);
    }
  }

  lemma EndedAttach(limits: Limits, link: Link, other: Usage)
    requires LinkInv(limits, link) && link.end != Open && link.sub.None? && link.up != [] && link.up[0].AttachUp?
    ensures Covered(WorkerRead(limits, link, other))
  {
    hide *;
    var rest, cursor := link.(up := link.up[1..]), link.up[0].cursor;
    InvParts(limits, link);
    UpCovered(link);
    ReadsTab(limits, link, other);
    TabByCase(limits, rest, other, link.up[0].reattach, cursor);
    if !link.up[0].reattach {
      JoinedCovered(rest, |link.source.history|, cursor);
    } else if Retained(link.source, cursor).None? {
      LaggedCovered(rest, cursor);
    } else {
      var entries := Retained(link.source, cursor).value;
      var start := if |entries| <= |link.source.history| then |link.source.history| - |entries| else 0;
      JoinedCovered(rest, start, cursor);
      FillRecord(limits, Joined(rest, start, cursor), other, entries);
      SameCovered(Joined(rest, start, cursor), Fill(limits, Joined(rest, start, cursor), other, entries));
    }
  }

  lemma UpCovered(link: Link)
    requires Covered(link) && link.up != []
    ensures Covered(link.(up := link.up[1..]))
  {
    hide *;
    assert SameRecord(link, link.(up := link.up[1..])) by {
      UpRecord(link);
    }
    SameCovered(link, link.(up := link.up[1..]));
  }

  lemma UpRecord(link: Link)
    requires link.up != []
    ensures SameRecord(link, link.(up := link.up[1..]))
  {
  }

  lemma ReadsTab(limits: Limits, link: Link, other: Usage)
    requires link.up != [] && link.up[0].AttachUp? && link.sub.None?
    ensures WorkerRead(limits, link, other)
         == AttachTab(limits, link.(up := link.up[1..]), other, link.up[0].reattach, link.up[0].cursor)
  {
    hide AttachTab;
  }

  lemma TabByCase(limits: Limits, link: Link, other: Usage, reattach: bool, cursor: Option<Cursor>)
    ensures
      var emitted, retained := |link.source.history|, Retained(link.source, cursor);
      AttachTab(limits, link, other, reattach, cursor)
      == if !reattach then Joined(link, emitted, cursor)
         else if retained.None? then Lagged(link, cursor)
         else
           Fill(limits, Joined(link, if |retained.value| <= emitted then emitted - |retained.value| else 0, cursor),
                other, retained.value)
  {
    hide Retained, Fill, Joined, Lagged;
  }

  lemma EndedInv(limits: Limits, link: Link)
    requires limits.Valid() && Suffix(limits, link.source) && Covered(link) && link.end != Open
    ensures LinkInv(limits, link)
  {
    hide Suffix, Covered, Attached, Detached;
  }

  lemma TabReadKeeps(limits: Limits, link: Link)
    requires LinkInv(limits, link)
    ensures LinkInv(limits, TabRead(link))
  {
    hide Attached, Covered, Suffix;
    SameCovered(link, TabRead(link));
    if link.down != [] && link.end == Open {
      assert link.sub.Some? && Attached(limits, link.source.history, link);
      match link.down[0] {
        case BatchDown(batch) => ReadBatchAttached(limits, link.source.history, link);
        case ResumeDown => EndedInv(limits, TabRead(link));
        case ReplyDown(ok) => ReadReplyAttached(limits, link.source.history, link);
      }
    }
  }

  lemma StartKeeps(limits: Limits, link: Link)
    requires LinkInv(limits, link)
    ensures LinkInv(limits, StartNext(link))
  {
    if link.running.None? && link.chain != [] {
      var rest := link.(chain := link.chain[1..]);
      if !Live(link, link.chain[0].generation) {
        StaleStart(limits, link);
      } else {
        assert link.sub.Some? && Attached(limits, link.source.history, link) by {
          LiveAttached(limits, link);
        }
        hide Attached, Covered, Suffix;
        StartAttached(limits, link.source.history, link);
        var r := rest.(running := Some(Running(link.chain[0].batch, link.generation, 1, false)));
        SameCovered(link, r);
        FirstKnown(link);
        HandCovered(r, link.chain[0].batch.entries[0]);
      }
    }
  }

  /** A batch of the current generation can only come from an attached subscription. */
  lemma LiveAttached(limits: Limits, link: Link)
    requires LinkInv(limits, link) && link.end == Open
    requires link.chain != [] && link.chain[0].generation == link.generation
    ensures link.sub.Some? && Attached(limits, link.source.history, link)
  {
    hide Attached, Covered, Suffix;
  }

  lemma FirstKnown(link: Link)
    requires Covered(link) && link.sub.Some?
    ensures link.first.Some?
  {
  }

  lemma StaleStart(limits: Limits, link: Link)
    requires LinkInv(limits, link) && link.running.None? && link.chain != [] && !Live(link, link.chain[0].generation)
    ensures LinkInv(limits, link.(chain := link.chain[1..]))
  {
    hide Attached, Covered, Suffix;
    SameCovered(link, link.(chain := link.chain[1..]));
    if link.end == Open && link.sub.Some? {
      DropStale(limits, link.source.history, link);
    }
  }

  lemma StaleStop(limits: Limits, link: Link)
    requires LinkInv(limits, link) && link.running.Some? && !Live(link, link.running.value.generation)
    ensures LinkInv(limits, link.(running := None))
  {
    hide Attached, Covered, Suffix;
    SameCovered(link, link.(running := None));
    if link.end == Open && link.sub.Some? {
      StopStale(limits, link.source.history, link);
    }
  }

  lemma AcceptKeeps(limits: Limits, link: Link)
    requires LinkInv(limits, link)
    ensures LinkInv(limits, ItemAccepted(link))
  {
    hide LinkInv;
    if link.running.Some? && !link.running.value.acking {
      if !Live(link, link.running.value.generation) {
        StaleStop(limits, link);
      } else {
        LiveAccepting(limits, link);
        if link.running.value.handed < |link.running.value.batch.entries| {
          AcceptNext(limits, link);
        } else {
          AcceptLast(limits, link);
        }
      }
    }
  }

  lemma LiveAccepting(limits: Limits, link: Link)
    requires LinkInv(limits, link) && link.end == Open && Accepting(link.running, link.generation)
    ensures link.sub.Some? && link.first.Some? && Attached(limits, link.source.history, link)
    ensures 0 < link.running.value.handed <= |link.running.value.batch.entries|
  {
    if link.sub.Some? {
      AttachedShape(limits, link.source.history, link);
    }
    hide Attached, Suffix, GapFree, Truthful, High, Resumable;
  }

  lemma AcceptNext(limits: Limits, link: Link)
    requires LinkInv(limits, link) && link.end == Open && link.running.Some? && Accepting(link.running, link.generation)
    requires link.sub.Some? && link.first.Some? && Attached(limits, link.source.history, link)
    requires link.running.value.handed < |link.running.value.batch.entries|
    ensures
      var running := link.running.value;
      LinkInv(limits, Hand(link.(running := Some(running.(handed := running.handed + 1))),
                           running.batch.entries[running.handed]))
  {
    hide *;
    var running := link.running.value;
    var r := link.(running := Some(running.(handed := running.handed + 1)));
    var entry := running.batch.entries[running.handed];
    HandFields(r, entry);
    HeadRecord(link, r.running);
    InvParts(limits, link);
    NextAttached(limits, link.source.history, link);
    SameCovered(link, r);
    HandCovered(r, entry);
    InvFrom(limits, Hand(r, entry));
  }

  lemma HeadRecord(link: Link, running: Option<Running>)
    ensures SameRecord(link, link.(running := running))
  {
  }

  lemma HandFields(link: Link, entry: Entry)
    ensures Hand(link, entry).source == link.source
  {
  }

  lemma CompleteFields(link: Link, batch: Batch)
    ensures Complete(link, batch).source == link.source
  {
  }

  lemma AcceptLast(limits: Limits, link: Link)
    requires LinkInv(limits, link) && link.end == Open && link.running.Some? && Accepting(link.running, link.generation)
    requires link.sub.Some? && link.first.Some? && Attached(limits, link.source.history, link)
    requires link.running.value.handed == |link.running.value.batch.entries|
    ensures LinkInv(limits, Complete(link, link.running.value.batch))
  {
    hide *;
    CompleteFields(link, link.running.value.batch);
    InvParts(limits, link);
    AttachedShape(limits, link.source.history, link);
    CompleteAttached(limits, link.source.history, link);
    CompleteCovered(link, link.running.value.batch);
    InvFrom(limits, Complete(link, link.running.value.batch));
  }

  lemma AttachedShape(limits: Limits, history: seq<Entry>, link: Link)
    requires Attached(limits, history, link)
    ensures WellFormed(link) && Latest(link)
    ensures Accepting(link.running, link.generation) ==>
      var running := link.running.value;
      && 0 < running.handed <= |running.batch.entries|
      && 0 < link.next && link.handed != []
      && link.handed[|link.handed| - 1] == Handed(link.next - 1, running.batch.entries[running.handed - 1])
  {
    hide SubscriptionInv, Carried, Matched, Signalled, Replying;
  }

  lemma RejectKeeps(limits: Limits, link: Link)
    requires LinkInv(limits, link)
    ensures LinkInv(limits, ItemRejected(link))
  {
    hide LinkInv;
    if link.running.Some? && !link.running.value.acking {
      if !Live(link, link.running.value.generation) {
        StaleStop(limits, link);
      } else {
        assert SameRecord(link, ItemRejected(link)) && ItemRejected(link).end != Open;
        hide *;
        InvParts(limits, link);
        RecordSource(link, ItemRejected(link));
        SameCovered(link, ItemRejected(link));
        EndedInv(limits, ItemRejected(link));
      }
    }
  }

  lemma RecordSource(a: Link, b: Link)
    requires SameRecord(a, b)
    ensures a.source == b.source
  {
  }

  lemma ReconnectKeeps(limits: Limits, link: Link)
    requires LinkInv(limits, link)
    ensures LinkInv(limits, Reconnect(link))
  {
    hide Attached, Covered, Suffix, Detached;
    SameCovered(link, Reconnect(link));
    if link.end == Open {
      LinkWellFormed(limits, link);
      ReconnectDetached(link);
    }
  }

  lemma LinkWellFormed(limits: Limits, link: Link)
    requires LinkInv(limits, link) && link.end == Open
    ensures WellFormed(link)
  {
    hide SubscriptionInv, Latest, Carried, Matched, Signalled, Replying, Covered, Suffix;
  }

  lemma ReconnectDetached(link: Link)
    requires WellFormed(link) && link.end == Open
    ensures Detached(Reconnect(link))
  {
  }

  lemma FailKeeps(limits: Limits, link: Link, end: End)
    requires LinkInv(limits, link) && end != Open
    ensures LinkInv(limits, Ended(link, end))
  {
    hide Attached, Detached, Covered, Suffix;
    SameCovered(link, Ended(link, end));
  }

  lemma StepKeeps(limits: Limits, link: Link, event: Event)
    requires LinkInv(limits, link) && UniqueCursors(Step(limits, link, event).source.history)
    ensures LinkInv(limits, Step(limits, link, event))
    ensures link.source.history <= Step(limits, link, event).source.history
  {
    hide LinkInv, UniqueCursors, EmitOn, WorkerRead;
    match event {
      case Emits(entry, other) => EmitKeeps(limits, link, entry, other);
      case WorkerReads(other) =>
        WorkerReadRecord(limits, link, other);
        WorkerReadKeeps(limits, link, other);
      case TabReads => TabReadKeeps(limits, link);
      case Starts => StartKeeps(limits, link);
      case Accepts => AcceptKeeps(limits, link);
      case Rejects => RejectKeeps(limits, link);
      case Reconnects => ReconnectKeeps(limits, link);
      case Fails => FailKeeps(limits, link, Failed);
    }
  }

  lemma StartInv(limits: Limits, source: Source)
    requires limits.Valid() && Suffix(limits, source)
    ensures LinkInv(limits, Start(source))
  {
    hide Suffix;
  }

  lemma UniquePrefix(before: seq<Entry>, after: seq<Entry>)
    requires before <= after && UniqueCursors(after)
    ensures UniqueCursors(before)
  {
  }

  lemma StepGrows(limits: Limits, link: Link, event: Event)
    ensures link.source.history <= Step(limits, link, event).source.history
  {
    match event {
      case Emits(entry, other) =>
        hide Offer;
        AppendGrows(limits, link.source, entry);
        hide Append;
        if link.sub.Some? {
          OfferRecord(limits, link.(source := Append(limits, link.source, entry)), other, entry);
        }
      case WorkerReads(other) =>
        hide WorkerRead;
        WorkerReadRecord(limits, link, other);
      case _ =>
    }
  }

  lemma AppendGrows(limits: Limits, source: Source, entry: Entry)
    ensures Append(limits, source, entry).history == source.history + [entry]
  {
    TrimHistory(limits, source.(history := source.history + [entry],
                                log := source.log + [entry],
                                logBytes := source.logBytes + |entry.data|));
  }

  lemma {:induction false} TrimHistory(limits: Limits, source: Source)
    ensures Trim(limits, source).history == source.history
    decreases |source.log|
  {
    if source.log != [] && !(|source.log| <= limits.retainedItems && source.logBytes <= limits.retainedBytes) {
      var first := |source.log[0].data|;
      TrimHistory(limits, source.(log := source.log[1..],
                                  logBytes := if first <= source.logBytes then source.logBytes - first else 0,
                                  truncated := true));
    }
  }

  lemma {:induction false} RunKeeps(limits: Limits, source: Source, events: seq<Event>)
    requires limits.Valid() && Suffix(limits, source)
    requires UniqueCursors(BrokerClient.Run(limits, Start(source), events).source.history)
    ensures LinkInv(limits, BrokerClient.Run(limits, Start(source), events))
    decreases |events|
  {
    hide LinkInv, UniqueCursors, Suffix, Step;
    if events == [] {
      StartInv(limits, source);
    } else {
      var front, last := events[..|events| - 1], events[|events| - 1];
      var before := BrokerClient.Run(limits, Start(source), front);
      StepGrows(limits, before, last);
      UniquePrefix(before.source.history, Step(limits, before, last).source.history);
      RunKeeps(limits, source, front);
      StepKeeps(limits, before, last);
    }
  }

  // ---------------------------------------------------------------------------------------------
  // What a lease is promised
  // ---------------------------------------------------------------------------------------------

  ghost predicate WasHanded(handed: seq<Handed>, position: nat) {
    exists k :: 0 <= k < |handed| && handed[k].position == position
  }

  /** Every position up to the highest handed over, from the first attachment on, was handed over. */
  lemma {:induction false} NothingSkipped(handed: seq<Handed>, first: nat, position: nat)
    requires GapFree(handed, first) && first <= position < High(handed, first)
    ensures WasHanded(handed, position)
    decreases |handed|
  {
    var front, last := handed[..|handed| - 1], handed[|handed| - 1];
    assert last.position <= High(front, first);
    if last.position != position {
      assert GapFree(front, first) by {
        forall k | 0 <= k < |front|
          ensures front[k].position <= High(front[..k], first)
        {
          assert front[..k] == handed[..k];
        }
      }
      NothingSkipped(front, first, position);
      var k :| 0 <= k < |front| && front[k].position == position;
      assert handed[k].position == position;
    }
  }

  /**
   Over every run of emissions, deliveries, acknowledgements and reconnects: the handler is given what the source
   emitted, each time at most one past the furthest position so far, so that nothing in between is ever missing.
   */
  lemma GapFreeDelivery(limits: Limits, source: Source, events: seq<Event>)
    requires limits.Valid() && Suffix(limits, source)
    requires UniqueCursors(BrokerClient.Run(limits, Start(source), events).source.history)
    ensures
      var link := BrokerClient.Run(limits, Start(source), events);
      && Truthful(link.handed, link.source.history)
      && (link.handed != [] ==> link.first.Some?)
      && (link.first.Some? ==>
            && GapFree(link.handed, link.first.value)
            && forall p :: link.first.value <= p < High(link.handed, link.first.value) ==> WasHanded(link.handed, p))
  {
    hide *;
    RunKeeps(limits, source, events);
    LinkDelivery(limits, BrokerClient.Run(limits, Start(source), events));
  }

  lemma LinkDelivery(limits: Limits, link: Link)
    requires LinkInv(limits, link)
    ensures Truthful(link.handed, link.source.history)
    ensures link.handed != [] ==> link.first.Some?
    ensures link.first.Some? ==>
      && GapFree(link.handed, link.first.value)
      && forall p :: link.first.value <= p < High(link.handed, link.first.value) ==> WasHanded(link.handed, p)
  {
    hide Attached, Detached, Suffix, GapFree, Truthful, High, Resumable, WasHanded;
    if link.first.Some? {
      forall p | link.first.value <= p < High(link.handed, link.first.value)
        ensures WasHanded(link.handed, p)
      {
        NothingSkipped(link.handed, link.first.value, p);
      }
    }
  }

  /** The next message that a live lease reads from the worker is never a refusal. */
  lemma NeverRefused(limits: Limits, source: Source, events: seq<Event>)
    requires limits.Valid() && Suffix(limits, source)
    requires UniqueCursors(BrokerClient.Run(limits, Start(source), events).source.history)
    ensures
      var link := BrokerClient.Run(limits, Start(source), events);
      link.end == Open && link.down != [] ==> link.down[0] != ReplyDown(false)
  {
    var link := BrokerClient.Run(limits, Start(source), events);
    RunKeeps(limits, source, events);
    InvParts(limits, link);
    hide BrokerClient.Run, LinkInv, Suffix, UniqueCursors, Covered, Attached;
    if link.end == Open && link.down != [] {
      assert link.sub.Some?;
      FirstSafe(limits, link.source.history, link);
    }
  }

  lemma FirstSafe(limits: Limits, history: seq<Entry>, link: Link)
    requires Attached(limits, history, link) && link.down != []
    ensures link.down[0] != ReplyDown(false)
  {
    hide SubscriptionInv, Carried, Matched, Replying, WellFormed, Latest;
  }

  /** An acknowledgement on the line belongs to this generation: the worker takes it, unless it has given up. */
  lemma AcknowledgesCurrent(limits: Limits, source: Source, events: seq<Event>)
    requires limits.Valid() && Suffix(limits, source)
    requires UniqueCursors(BrokerClient.Run(limits, Start(source), events).source.history)
    ensures
      var link := BrokerClient.Run(limits, Start(source), events);
      link.end == Open && link.up != [] && link.up[0].AckUp? ==>
        && link.sub.Some?
        && (!link.sub.value.resumeRequired ==>
              && link.sub.value.inflight.Some?
              && link.sub.value.inflight.value.id == link.up[0].id
              && link.sub.value.inflight.value.cursor == link.up[0].cursor)
  {
    var link := BrokerClient.Run(limits, Start(source), events);
    RunKeeps(limits, source, events);
    InvParts(limits, link);
    hide BrokerClient.Run, LinkInv, Suffix, UniqueCursors, Covered, Attached;
    if link.end == Open && link.up != [] && link.up[0].AckUp? {
      assert link.sub.Some?;
      AckMatches(limits, link.source.history, link);
    }
  }

  /** A live lease with nothing left to do has been given everything emitted since it first attached. */
  lemma QuietMeansComplete(limits: Limits, source: Source, events: seq<Event>)
    requires limits.Valid() && Suffix(limits, source)
    requires UniqueCursors(BrokerClient.Run(limits, Start(source), events).source.history)
    ensures
      var link := BrokerClient.Run(limits, Start(source), events);
      link.end == Open && link.up == [] && link.down == [] && link.chain == [] && link.running.None? ==>
        && link.first.Some?
        && High(link.handed, link.first.value) == |link.source.history|
  {
    hide *;
    var link := BrokerClient.Run(limits, Start(source), events);
    RunKeeps(limits, source, events);
    if link.end == Open && link.up == [] && link.down == [] && link.chain == [] && link.running.None? {
      QuietLink(limits, link);
    }
  }

  lemma QuietLink(limits: Limits, link: Link)
    requires LinkInv(limits, link) && link.end == Open
    requires link.up == [] && link.down == [] && link.chain == [] && link.running.None?
    ensures link.first.Some? && High(link.handed, link.first.value) == |link.source.history|
  {
    hide Suffix, Attached, Truthful, GapFree, High, Resumable;
    QuietNext(limits, link.source.history, link);
    HighBounded(link.handed, link.source.history, link.first.value);
  }

  lemma QuietNext(limits: Limits, history: seq<Entry>, link: Link)
    requires Attached(limits, history, link)
    requires link.up == [] && link.down == [] && link.chain == [] && link.running.None?
    ensures link.next == |history|
  {
    var sub := link.sub.value;
    assert !sub.resumeRequired;
    assert Tokens(link) == [] && Transit(link) == [];
    assert sub.inflight.None?;
    assert sub.pending == [] by {
      Idle(limits, history, sub);
    }
    hide SubscriptionInv, Transit, Tokens;
    assert history[link.next..] == [];
  }
}
