/** The ordered consumer and the reducing source in the form the source gives them: objects updated in place. */
module OrderedConsumer {
  import opened Prelude
  import opened Batching
  import opened BatchCoordinator
  import opened Replay

  /** One attempt: the intake loop's counters beside its batch coordinator. */
  class Subscription {
    const base: nat
    const initialEnd: nat
    const batcher: Batcher<nat>
    var pulled: nat
    var committed: nat
    var place: Intake.Place
    var applicationFailed: bool

    ghost predicate Valid()
      reads this, batcher
    {
      batcher.Valid()
    }

    ghost function View(): Intake.Lease
      reads this, batcher
    {
      Intake.Lease(base, initialEnd, pulled, committed, batcher.View(), place, applicationFailed)
    }

    constructor (policy: Policy, base: nat, end: nat)
      requires policy.Valid()
      ensures Valid() && fresh(batcher) && View() == Intake.Open(policy, base, end)
    {
      this.base, this.initialEnd := base, end;
      batcher := new Batcher(policy);
      pulled, committed, place, applicationFailed := base, base, Intake.Pulling, false;
    }

    /** One iteration of the intake loop, up to where it suspends. */
    method Deliver(measure: Measure)
      requires Valid() && Intake.CanPull(View())
      modifies this, batcher
      ensures Valid() && View() == Intake.Pull(old(View()), measure)
    {
      hide Batching.Add, Batching.Drain, Batching.Register;
      var position := pulled;
      pulled := pulled + 1;
      var ticket := batcher.Add(position, measure);
      if pulled == initialEnd {
        batcher.Flush();
        place := Intake.FlushingReplay(pulled);
      } else {
        var waiting := batcher.Backpressure();
        if waiting {
          var commit := if |batcher.pending| == 0 then pulled else position;
          batcher.RegisterBarrier(commit);
          place := Intake.Waiting(commit, true);
        }
      }
    }

    /** The loop continues after the promise it awaited has settled. */
    method Continue()
      requires Valid() && Intake.CanResume(View())
      modifies this, batcher
      ensures Valid() && View() == Intake.Resume(old(View()))
    {
      match place {
        case Waiting(_, _) =>
          if applicationFailed {
            batcher.Cancel();
            place := Intake.Unwinding(false);
          } else {
            place := Intake.Pulling;
          }
        case FlushingReplay(commit) =>
          batcher.RegisterBarrier(commit);
          place := Intake.Waiting(commit, false);
        case FlushingTail =>
          batcher.RegisterBarrier(pulled);
          place := Intake.WaitingTail;
        case WaitingTail =>
          batcher.Cancel();
          place := Intake.Unwinding(!applicationFailed);
      }
    }

    /** The commit of the next delivery, after its handler's promise settled. */
    method CommitNext()
      requires Valid() && Intake.CanCommit(View())
      modifies this
      ensures Valid() && View() == Intake.Commit(old(View()))
    {
      var resolved := Settlement(committed - base, true) in batcher.settled;
      committed := committed + 1;
      if !resolved {
        applicationFailed := true;
      }
    }

    method MessagesEnd()
      requires Valid() && place.Pulling?
      modifies this, batcher
      ensures Valid() && View() == Intake.End(old(View()))
    {
      batcher.Flush();
      place := Intake.FlushingTail;
    }

    method MessagesThrow()
      requires Valid() && Intake.CanPull(View())
      modifies this, batcher
      ensures Valid() && View() == Intake.TransportFails(old(View()))
    {
      batcher.Cancel();
      place := Intake.Unwinding(true);
    }
  }

  /** The closure variables of the reducing source. */
  class ReducingSource<S(!new), V(!new)> {
    const config: Config<S, V>
    var data: S
    var cursor: Option<nat>
    var hydrated: bool
    var replayDelivered: nat

    constructor (config: Config<S, V>)
      ensures this.config == config && data == config.initial && cursor == None && !hydrated && replayDelivered == 0
    {
      this.config := config;
      data, cursor, hydrated, replayDelivered := config.initial, None, false, 0;
    }

    /** Reduces one batch; state, cursor and count are assigned together, after the last delivery. */
    method Apply(log: seq<Delivery<V>>, batch: seq<Entry<nat>>)
      requires forall i :: 0 <= i < |batch| ==> batch[i].value < |log|
      modifies this
      ensures data == ReduceBatch(config, log, old(data), batch)
      ensures cursor == if batch == [] then old(cursor) else Some(log[batch[|batch| - 1].value].sequence)
      ensures replayDelivered == old(replayDelivered) + if hydrated then 0 else |batch|
      ensures hydrated == old(hydrated)
    {
      var nextData, nextCursor, nextReplayDelivered := data, cursor, replayDelivered;
      for i := 0 to |batch|
        invariant nextData == ReduceBatch(config, log, data, batch[..i])
        invariant nextCursor == if i == 0 then cursor else Some(log[batch[i - 1].value].sequence)
        invariant nextReplayDelivered == replayDelivered + if hydrated then 0 else i
      {
        assert batch[..i + 1][..i] == batch[..i];
        var delivery := log[batch[i].value];
        nextData := config.reduce(nextData, delivery);
        nextCursor := Some(delivery.sequence);
        if !hydrated {
          nextReplayDelivered := nextReplayDelivered + 1;
        }
      }
      assert batch[..|batch|] == batch;
      data, cursor, replayDelivered := nextData, nextCursor, nextReplayDelivered;
    }

    /** The catch-up result overwrites what snapshots show. */
    method Hydrate(caughtUp: Option<nat>, delivered: nat)
      modifies this
      ensures hydrated && replayDelivered == delivered && data == old(data)
      ensures cursor == if caughtUp.Some? then caughtUp else old(cursor)
    {
      hydrated := true;
      replayDelivered := delivered;
      if caughtUp.Some? {
        cursor := caughtUp;
      }
    }
  }
}
