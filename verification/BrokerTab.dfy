/** The tab's lease object: each promise continuation as a method, proved against the functions of `BrokerClient`. */
module BrokerTab {
  import opened Prelude
  import opened Broker
  import opened BrokerClient

  const Nowhere := Source(0, [], [], 0, false)

  class ClientLease {
    var generation: nat
    var lastCursor: Option<Cursor>
    var chain: seq<Received>
    var running: Option<Running>
    var end: End
    /** What was posted on the current port and not yet read by the worker. */
    var posted: seq<Up>
    /** What the handler was given. */
    var accepted: seq<Entry>
    ghost var next: nat
    ghost var handed: seq<Handed>

    constructor ()
      ensures View() == Start(Nowhere) && accepted == []
    {
      generation, lastCursor, chain, running, end := 1, None, [], None, Open;
      posted, accepted, next, handed := [AttachUp(false, None)], [], 0, [];
    }

    /** The lease without its worker end. */
    ghost function View(): Link
      reads this
    {
      Link(Nowhere, None, posted, [], generation, lastCursor, chain, running, end, next, None, handed)
    }

    /** The handler is called with the item that is due. */
    method Give(entry: Entry)
      modifies this`accepted, this`next, this`handed
      ensures View() == Hand(old(View()), entry) && accepted == old(accepted) + [entry]
    {
      accepted := accepted + [entry];
      handed := handed + [Handed(next, entry)];
      next := next + 1;
    }

    method CompleteBatch(batch: Batch)
      modifies this`lastCursor, this`posted, this`running
      ensures View() == Complete(old(View()), batch)
    {
      var cursor := if batch.entries == [] then None else batch.entries[|batch.entries| - 1].cursor;
      lastCursor := cursor;
      posted := posted + [AckUp(batch.id, cursor)];
      running := Some(Running(batch, generation, |batch.entries|, true));
    }

    /** The head of the accept chain begins: a batch of an older generation is dropped unseen. */
    method Begin()
      modifies this
      ensures View() == StartNext(old(View()))
    {
      if running.Some? || chain == [] {
        return;
      }
      var head := chain[0];
      chain := chain[1..];
      if end != Open || head.generation != generation {
        return;
      }
      if head.batch.entries == [] {
        CompleteBatch(head.batch);
      } else {
        running := Some(Running(head.batch, head.generation, 1, false));
        Give(head.batch.entries[0]);
      }
    }

    /** The handler's promise resolved. Only a batch accepted to its end in its own generation moves the cursor. */
    method HandlerResolved()
      modifies this
      ensures View() == ItemAccepted(old(View()))
    {
      if running.None? || running.value.acking {
        return;
      }
      var head := running.value;
      if end != Open || head.generation != generation {
        running := None;
      } else if head.handed < |head.batch.entries| {
        running := Some(head.(handed := head.handed + 1));
        Give(head.batch.entries[head.handed]);
      } else {
        CompleteBatch(head.batch);
      }
    }

    method HandlerRejected()
      modifies this
      ensures View() == ItemRejected(old(View())) && accepted == old(accepted)
    {
      if running.None? || running.value.acking {
        return;
      }
      var current := running.value.generation == generation;
      running := None;
      if current {
        Fail(Failed);
      }
    }

    method Fail(reason: End)
      modifies this`end
      ensures View() == Ended(old(View()), reason)
    {
      if end == Open {
        end := reason;
      }
    }

    /** A message from the worker on the current port. */
    method Receive(message: Down)
      modifies this
      ensures View() == TabRead(old(View()).(down := [message])) && accepted == old(accepted)
    {
      match message {
        case BatchDown(batch) =>
          if end == Open {
            chain := chain + [Received(batch, generation)];
          }
        case ResumeDown => Fail(ResumeRequired);
        case ReplyDown(ok) =>
          if running.Some? && running.value.acking {
            running := None;
            if !ok {
              Fail(Failed);
            }
          }
      }
    }

    /** A new port: pending replies are abandoned and a live lease asks for what follows its cursor. */
    method PortChanged()
      modifies this
      ensures View() == Reconnect(old(View())) && accepted == old(accepted) && lastCursor == old(lastCursor)
    {
      generation := generation + 1;
      posted := if end == Open then [AttachUp(true, lastCursor)] else [];
      if running.Some? && running.value.acking {
        running := None;
      }
    }
  }
}
