/** The batch coordinator in the form the core package gives it: one object whose fields every call updates. */
module BatchCoordinator {
  import opened Batching

  lemma RunNextCases<T>(s: State<T>, ok: bool)
    requires s.applications != []
    ensures
      RunNext(s, ok)
      == match s.applications[0]
         case Barrier(_) => s.(applications := s.applications[1..], barrierFailed := s.barrierFailed || !ok)
         case Apply(batch, _) =>
           s.(applications := s.applications[1..],
              finished := s.finished + [Outcome(batch, ok && !s.barrierFailed)],
              settled := s.settled + Settle(batch, ok && !s.barrierFailed))
  {
  }

  /** The coordinator as the source runs it: every call and every continuation updates the fields in place. */
  class Batcher<T> {
    const policy: Policy
    var pending: seq<Entry<T>>
    var pendingBytes: nat
    var timer: bool
    var applications: seq<Op<T>>
    var queuedApplications: nat
    var barrierFailure: bool
    var cancelled: bool
    var completed: bool
    var tickets: nat
    var settled: seq<Settlement>
    ghost var accepted: seq<Entry<T>>
    ghost var drained: seq<seq<Entry<T>>>
    ghost var dropped: seq<Entry<T>>
    ghost var finished: seq<Outcome<T>>

    ghost function View(): State<T>
      reads this
    {
      State(policy, pending, pendingBytes, timer, applications, barrierFailure, cancelled, completed,
            tickets, accepted, drained, dropped, finished, settled)
    }

    /** The counter of unfinished applications agrees with the chain. */
    ghost predicate Valid()
      reads this
    {
      queuedApplications == |Batches(applications)|
    }

    constructor (policy: Policy)
      requires policy.Valid()
      ensures Valid() && View() == Initial(policy)
    {
      this.policy := policy;
      pending, pendingBytes, timer, applications, queuedApplications := [], 0, false, [], 0;
      barrierFailure, cancelled, completed := false, false, false;
      tickets, settled, accepted, drained, dropped, finished := 0, [], [], [], [], [];
    }

    /** Hands the partial buffer to the application chain. */
    method DrainPending(reason: Reason)
      requires Valid()
      modifies this
      ensures View() == Drain(old(View()), reason)
      ensures Valid()
    {
      if |pending| == 0 || cancelled {
        return;
      }
      timer := false;
      var batch := pending;
      pending := [];
      pendingBytes := 0;
      queuedApplications := queuedApplications + 1;
      BatchesSnoc(applications, Apply(batch, reason));
      applications := applications + [Apply(batch, reason)];
      drained := drained + [batch];
    }

    method Reject()
      modifies this`tickets, this`settled
      ensures View() == Refuse(old(View()))
    {
      settled := settled + [Settlement(tickets, false)];
      tickets := tickets + 1;
    }

    method Add(value: T, measure: Measure) returns (ticket: nat)
      requires Valid()
      modifies this
      ensures Valid() && ticket == old(tickets)
      ensures View() == Batching.Add(old(View()), value, measure)
    {
      ticket := tickets;
      if cancelled || completed {
        Reject();
        return;
      }
      var size := 0;
      if policy.maxBytes.Some? {
        if measure.Unmeasurable? || measure.bytes < 0 || measure.bytes > policy.maxBytes.value {
          Reject();
          return;
        }
        size := measure.bytes;
      }
      if policy.maxBytes.Some? && |pending| > 0 && pendingBytes + size > policy.maxBytes.value {
        DrainPending(ByBytes);
      }
      StoreValue(value, size);
      CutOrArmTimer();
    }

    method StoreValue(value: T, size: nat)
      requires Valid()
      modifies this
      ensures Valid() && View() == Store(old(View()), value, size)
    {
      var entry := Entry(tickets, value, size);
      tickets := tickets + 1;
      pending := pending + [entry];
      accepted := accepted + [entry];
      pendingBytes := pendingBytes + size;
    }

    method CutOrArmTimer()
      requires Valid()
      modifies this
      ensures Valid() && View() == CutOrArm(old(View()))
    {
      var countReached := policy.maxItems.Some? && |pending| >= policy.maxItems.value;
      var bytesReached := policy.maxBytes.Some? && pendingBytes >= policy.maxBytes.value;
      if countReached || bytesReached {
        DrainPending(if countReached then ByCount else ByBytes);
      } else if !timer && policy.timed {
        timer := true;
      }
    }

    method FireTimer()
      requires Valid() && timer
      modifies this
      ensures Valid() && View() == TimerFires(old(View()))
    {
      timer := false;
      DrainPending(ByTime);
    }

    method Flush()
      requires Valid()
      modifies this
      ensures Valid() && View() == Drain(old(View()), ByHand)
    {
      DrainPending(ByHand);
    }

    method Complete()
      requires Valid()
      modifies this
      ensures Valid() && View() == Batching.Complete(old(View()))
    {
      if cancelled || completed {
        return;
      }
      completed := true;
      DrainPending(ByCompletion);
    }

    /** Intake has to wait exactly while some batch has not left the chain. */
    method Backpressure() returns (waiting: bool)
      requires Valid()
      ensures waiting <==> Batches(applications) != []
    {
      waiting := queuedApplications > 0;
    }

    method RegisterBarrier(commit: nat)
      requires Valid()
      modifies this
      ensures Valid() && View() == Register(old(View()), commit)
    {
      BatchesSnoc(applications, Barrier(commit));
      applications := applications + [Barrier(commit)];
    }

    /** Resolves or rejects every promise of one batch, in order. */
    method SettleBatch(batch: seq<Entry<T>>, resolved: bool)
      modifies this`settled
      ensures settled == old(settled) + Settle(batch, resolved)
    {
      for i := 0 to |batch|
        invariant settled == old(settled) + Settle(batch, resolved)[..i]
      {
        settled := settled + [Settlement(batch[i].ticket, resolved)];
      }
      assert Settle(batch, resolved)[..|batch|] == Settle(batch, resolved);
    }

    /** A batch leaves the chain and its promises are settled. */
    method FinishBatch(batch: seq<Entry<T>>, applied: bool)
      requires 0 < queuedApplications
      modifies this`settled, this`finished, this`queuedApplications
      ensures settled == old(settled) + Settle(batch, applied)
      ensures finished == old(finished) + [Outcome(batch, applied)] && queuedApplications == old(queuedApplications) - 1
    {
      SettleBatch(batch, applied);
      finished := finished + [Outcome(batch, applied)];
      queuedApplications := queuedApplications - 1;
    }

    /** One link of the chain finishes; a failed commit behind a barrier is remembered. */
    method RunHead(ok: bool)
      requires Valid() && applications != []
      modifies this
      ensures Valid() && View() == RunNext(old(View()), ok)
    {
      var head := applications[0];
      BatchesHead(applications);
      RunNextCases(View(), ok);
      hide *;
      applications := applications[1..];
      match head {
        case Barrier(_) =>
          barrierFailure := barrierFailure || !ok;
        case Apply(batch, _) =>
          var applied := ok && !barrierFailure;
          FinishBatch(batch, applied);
      }
    }

    method Cancel()
      requires Valid()
      modifies this
      ensures Valid() && View() == Batching.Cancel(old(View()))
    {
      if cancelled {
        return;
      }
      hide Batches, Settle;
      cancelled := true;
      timer := false;
      SettleBatch(pending, false);
      dropped := dropped + pending;
      pending := [];
      pendingBytes := 0;
    }
  }
}
