/**
 What callers of the batch coordinator learn from their promises: each is settled at most once, none is lost,
 and one resolves exactly when the batch holding its value was applied.
 */
module BatchPromises {
  import opened Batching

  function Tickets<T>(entries: seq<Entry<T>>): (r: seq<nat>)
    ensures |r| == |entries|
  {
    seq(|entries|, i requires 0 <= i < |entries| => entries[i].ticket)
  }

  function SettledTickets(settled: seq<Settlement>): (r: seq<nat>)
    ensures |r| == |settled|
  {
    seq(|settled|, i requires 0 <= i < |settled| => settled[i].ticket)
  }

  /** Tickets of the batches still in the application chain. */
  function Queued<T>(ops: seq<Op<T>>): seq<nat> {
    if ops == [] then [] else Queued(ops[..|ops| - 1]) + OpTickets(ops[|ops| - 1])
  }

  function OpTickets<T>(op: Op<T>): seq<nat> {
    if op.Apply? then Tickets(op.batch) else []
  }

  /** The tickets of the first `n` adds, each once. */
  function Issued(n: nat): multiset<nat> {
    if n == 0 then multiset{} else Issued(n - 1) + multiset{n - 1}
  }

  /** Every add is in exactly one place: settled, queued for application, or buffered. */
  ghost predicate Accounted<T>(s: State<T>) {
    multiset(SettledTickets(s.settled)) + multiset(Queued(s.applications)) + multiset(Tickets(s.pending))
    == Issued(s.tickets)
  }

  lemma {:induction false} QueuedSnoc<T>(ops: seq<Op<T>>, op: Op<T>)
    ensures Queued(ops + [op]) == Queued(ops) + OpTickets(op)
  {
    assert (ops + [op])[..|ops|] == ops;
  }

  lemma Associative(a: seq<nat>, b: seq<nat>, c: seq<nat>)
    ensures (a + b) + c == a + (b + c)
  {
  }

  lemma {:induction false} QueuedCons<T>(op: Op<T>, ops: seq<Op<T>>)
    ensures Queued([op] + ops) == OpTickets(op) + Queued(ops)
    decreases |ops|
  {
    if ops == [] {
      assert [op] + ops == [] + [op];
      QueuedSnoc([], op);
    } else {
      var front, last := ops[..|ops| - 1], ops[|ops| - 1];
      assert [op] + ops == ([op] + front) + [last];
      QueuedSnoc([op] + front, last);
      QueuedCons(op, front);
      Associative(OpTickets(op), Queued(front), OpTickets(last));
    }
  }

  lemma SettleTickets<T>(settled: seq<Settlement>, batch: seq<Entry<T>>, resolved: bool)
    ensures SettledTickets(settled + Settle(batch, resolved)) == SettledTickets(settled) + Tickets(batch)
  {
  }

  lemma TicketsSnoc<T>(entries: seq<Entry<T>>, entry: Entry<T>)
    ensures Tickets(entries + [entry]) == Tickets(entries) + [entry.ticket]
  {
  }

  lemma MultisetSnoc(xs: seq<nat>, x: nat)
    ensures multiset(xs + [x]) == multiset(xs) + multiset{x}
  {
  }

  lemma DrainAccounted<T>(s: State<T>, reason: Reason)
    requires Accounted(s)
    ensures Accounted(Drain(s, reason))
  {
    if s.pending != [] && !s.cancelled {
      QueuedSnoc(s.applications, Apply(s.pending, reason));
      assert Tickets<T>([]) == [];
    }
  }

  lemma RefuseAccounted<T>(s: State<T>)
    requires Accounted(s)
    ensures Accounted(Refuse(s))
  {
    hide *;
    var settled, queued, buffered := SettledTickets(s.settled), Queued(s.applications), Tickets(s.pending);
    RefusedTickets(s);
    MultisetSnoc(settled, s.tickets);
    OneMore(multiset(settled), multiset(queued), multiset(buffered), s.tickets);
  }

  lemma RefusedTickets<T>(s: State<T>)
    ensures SettledTickets(Refuse(s).settled) == SettledTickets(s.settled) + [s.tickets]
    ensures Issued(s.tickets + 1) == Issued(s.tickets) + multiset{s.tickets}
    ensures Accounted(s)
       <==> multiset(SettledTickets(s.settled)) + multiset(Queued(s.applications)) + multiset(Tickets(s.pending))
            == Issued(s.tickets)
    ensures Accounted(Refuse(s))
       <==> multiset(SettledTickets(Refuse(s).settled)) + multiset(Queued(s.applications))
            + multiset(Tickets(s.pending)) == Issued(s.tickets + 1)
  {
    hide Queued, Tickets;
  }

  lemma OneMore(a: multiset<nat>, b: multiset<nat>, c: multiset<nat>, x: nat)
    ensures (a + multiset{x}) + b + c == (a + b + c) + multiset{x}
  {
  }

  lemma StoreAccounted<T>(s: State<T>, value: T, size: nat)
    requires Accounted(s)
    ensures Accounted(Store(s, value, size))
  {
    TicketsSnoc(s.pending, Entry(s.tickets, value, size));
    MultisetSnoc(Tickets(s.pending), s.tickets);
  }

  lemma CutAccounted<T>(s: State<T>)
    requires Accounted(s)
    ensures Accounted(CutOrArm(s))
  {
    if s.policy.Full(|s.pending|, s.pendingBytes) {
      DrainAccounted(s, if s.policy.CountReached(|s.pending|) then ByCount else ByBytes);
    }
  }

  lemma AddAccounted<T>(s: State<T>, value: T, measure: Measure)
    requires Accounted(s)
    ensures Accounted(Add(s, value, measure))
  {
    var admission := Admit(s.policy, measure);
    if s.cancelled || s.completed || !admission.Admitted? {
      RefuseAccounted(s);
    } else {
      var room := if s.policy.Overflows(|s.pending|, s.pendingBytes, admission.size) then Drain(s, ByBytes) else s;
      DrainAccounted(s, ByBytes);
      StoreAccounted(room, value, admission.size);
      CutAccounted(Store(room, value, admission.size));
    }
  }

  lemma CancelAccounted<T>(s: State<T>)
    requires Accounted(s)
    ensures Accounted(Cancel(s))
  {
    SettleTickets(s.settled, s.pending, false);
    assert Tickets<T>([]) == [];
  }

  lemma RunNextAccounted<T>(s: State<T>, ok: bool)
    requires Accounted(s) && s.applications != []
    ensures Accounted(RunNext(s, ok))
  {
    var head, rest := s.applications[0], s.applications[1..];
    assert s.applications == [head] + rest;
    QueuedCons(head, rest);
    if head.Apply? {
      SettleTickets(s.settled, head.batch, ok && !s.barrierFailed);
    }
  }

  lemma StepAccounted<T>(s: State<T>, event: Event<T>)
    requires Accounted(s)
    ensures Accounted(Step(s, event))
  {
    hide Accounted, Add, Drain, Cancel, Register, RunNext;
    match event {
      case Adding(value, measure) => AddAccounted(s, value, measure);
      case TimerFiring =>
        SameAccounts(s, s.(timer := false));
        DrainAccounted(s.(timer := false), ByTime);
      case Flushing => DrainAccounted(s, ByHand);
      case Completing =>
        SameAccounts(s, s.(completed := true));
        DrainAccounted(s.(completed := true), ByCompletion);
      case Cancelling => CancelAccounted(s);
      case Registering(commit) => RegisterAccounted(s, commit);
      case Running(ok) =>
        if s.applications != [] {
          RunNextAccounted(s, ok);
        } else {
          assert RunNext(s, ok) == s by {
            IdleChain(s, ok);
          }
        }
    }
  }

  lemma SameAccounts<T>(s: State<T>, t: State<T>)
    requires Accounted(s) && t == s.(timer := t.timer, completed := t.completed)
    ensures Accounted(t)
  {
    hide Queued, Issued;
  }

  lemma RegisterAccounted<T>(s: State<T>, commit: nat)
    requires Accounted(s)
    ensures Accounted(Register(s, commit))
  {
    QueuedSnoc(s.applications, Barrier(commit));
    hide Queued, Issued;
  }

  lemma IdleChain<T>(s: State<T>, ok: bool)
    requires s.applications == []
    ensures RunNext(s, ok) == s
  {
  }

  lemma {:induction false} RunAccounted<T>(policy: Policy, events: seq<Event<T>>)
    ensures Accounted(Run(Initial<T>(policy), events))
    decreases |events|
  {
    if events != [] {
      RunAccounted<T>(policy, events[..|events| - 1]);
      StepAccounted(Run(Initial<T>(policy), events[..|events| - 1]), events[|events| - 1]);
    }
  }

  lemma {:induction false} IssuedOnce(n: nat, t: nat)
    ensures Issued(n)[t] == if t < n then 1 else 0
    decreases n
  {
    if n > 0 {
      IssuedOnce(n - 1, t);
    }
  }

  lemma {:induction false} OccursTwice(xs: seq<nat>, i: nat, j: nat)
    requires i < j < |xs| && xs[i] == xs[j]
    ensures multiset(xs)[xs[i]] >= 2
  {
    var a, b := xs[..j], xs[j..];
    assert xs == a + b;
    assert a[i] in a && b[0] in b;
    assert multiset(a)[xs[i]] >= 1 && multiset(b)[xs[i]] >= 1;
  }

  /** Over every run, no promise is settled twice; once nothing is queued or buffered, all are settled. */
  lemma SettledOnce<T>(policy: Policy, events: seq<Event<T>>)
    requires policy.Valid()
    ensures var s := Run(Initial<T>(policy), events);
      && (forall i, j :: 0 <= i < j < |s.settled| ==> s.settled[i].ticket != s.settled[j].ticket)
      && (forall i :: 0 <= i < |s.settled| ==> s.settled[i].ticket < s.tickets)
      && (s.applications == [] && (s.cancelled || s.completed) ==>
            forall t: nat :: t < s.tickets ==> t in SettledTickets(s.settled))
  {
    InitialInv<T>(policy);
    RunInv(Initial<T>(policy), events);
    RunAccounted<T>(policy, events);
    var s := Run(Initial<T>(policy), events);
    var all := SettledTickets(s.settled);
    forall i, j | 0 <= i < j < |s.settled|
      ensures s.settled[i].ticket != s.settled[j].ticket
    {
      if all[i] == all[j] {
        OccursTwice(all, i, j);
        IssuedOnce(s.tickets, all[i]);
        assert false;
      }
    }
    forall i | 0 <= i < |s.settled|
      ensures s.settled[i].ticket < s.tickets
    {
      assert all[i] in all;
      IssuedOnce(s.tickets, all[i]);
      assert multiset(all)[all[i]] >= 1;
    }
    if s.applications == [] && (s.cancelled || s.completed) {
      forall t: nat | t < s.tickets
        ensures t in all
      {
        IssuedOnce(s.tickets, t);
        assert multiset(all)[t] == 1;
      }
    }
  }

  /** A promise resolves exactly when the batch holding its value was applied. */
  ghost predicate Honest<T>(s: State<T>) {
    && (forall i :: 0 <= i < |s.settled| && s.settled[i].resolved ==> InAppliedBatch(s, s.settled[i].ticket))
    && (forall k, j :: 0 <= k < |s.finished| && 0 <= j < |s.finished[k].batch| ==>
          Settlement(s.finished[k].batch[j].ticket, s.finished[k].applied) in s.settled)
  }

  ghost predicate InAppliedBatch<T>(s: State<T>, ticket: nat) {
    exists k, j :: 0 <= k < |s.finished| && s.finished[k].applied
                && 0 <= j < |s.finished[k].batch| && s.finished[k].batch[j].ticket == ticket
  }

  lemma SettleHonest<T>(s: State<T>, t: State<T>, batch: seq<Entry<T>>, applied: bool)
    requires Honest(s)
    requires t.finished == s.finished + [Outcome(batch, applied)]
    requires t.settled == s.settled + Settle(batch, applied)
    ensures Honest(t)
  {
    forall i | 0 <= i < |t.settled| && t.settled[i].resolved
      ensures InAppliedBatch(t, t.settled[i].ticket)
    {
      if i < |s.settled| {
        assert InAppliedBatch(s, s.settled[i].ticket);
        var k, j :| 0 <= k < |s.finished| && s.finished[k].applied
                 && 0 <= j < |s.finished[k].batch| && s.finished[k].batch[j].ticket == t.settled[i].ticket;
        assert t.finished[k] == s.finished[k];
      } else {
        var j, last := i - |s.settled|, t.finished[|s.finished|];
        assert t.settled[i] == Settlement(batch[j].ticket, applied);
        assert last.applied && last.batch[j].ticket == t.settled[i].ticket;
      }
    }
    forall k, j | 0 <= k < |t.finished| && 0 <= j < |t.finished[k].batch|
      ensures Settlement(t.finished[k].batch[j].ticket, t.finished[k].applied) in t.settled
    {
      if k == |s.finished| {
        assert t.settled[|s.settled| + j] == Settlement(batch[j].ticket, applied);
      }
    }
  }

  /** Only the finishing of a batch resolves promises; every other step merely rejects some. */
  lemma RejectHonest<T>(s: State<T>, t: State<T>)
    requires Honest(s) && t.finished == s.finished && s.settled <= t.settled
    requires forall i :: |s.settled| <= i < |t.settled| ==> !t.settled[i].resolved
    ensures Honest(t)
  {
    forall i | 0 <= i < |t.settled| && t.settled[i].resolved
      ensures InAppliedBatch(t, t.settled[i].ticket)
    {
      assert InAppliedBatch(s, s.settled[i].ticket);
    }
  }

  lemma StepHonest<T>(s: State<T>, event: Event<T>)
    requires Honest(s)
    ensures Honest(Step(s, event))
  {
    if event.Running? && s.applications != [] && s.applications[0].Apply? {
      SettleHonest(s, Step(s, event), s.applications[0].batch, event.ok && !s.barrierFailed);
    } else {
      RejectHonest(s, Step(s, event));
    }
  }

  lemma {:induction false} ResolvedMeansApplied<T>(policy: Policy, events: seq<Event<T>>)
    ensures Honest(Run(Initial<T>(policy), events))
    decreases |events|
  {
    if events != [] {
      ResolvedMeansApplied<T>(policy, events[..|events| - 1]);
      StepHonest(Run(Initial<T>(policy), events[..|events| - 1]), events[|events| - 1]);
    }
  }
}
