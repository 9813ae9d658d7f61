/** The controller object that reconciles a consumer through the server's interface, step by step. */
module ProcessorController {
  import opened Prelude
  import opened ProcessorConfig
  import opened ProcessorReconcile

  /** The server's consumer interface during one call: what it holds, what was asked of it, and what goes wrong. */
  class ConsumerApi {
    const server: Server
    const fault: Fault
    var consumer: Option<Info>
    var calls: seq<Call>
    var adds: nat

    constructor (server: Server, fault: Fault, consumer: Option<Info>)
      ensures this.server == server && this.fault == fault && this.consumer == consumer && calls == [] && adds == 0
    {
      this.server, this.fault, this.consumer, calls, adds := server, fault, consumer, [], 0;
    }

    /** The first attempt to add may fail, and so may the attempt to roll back. */
    predicate Refuses()
      reads this
    {
      fault == AddAndRollbackFail || (fault == AddFails && adds == 0)
    }

    method Add(config: Config) returns (info: Option<Info>)
      modifies this
      ensures calls == old(calls) + [Call.Add(config)] && adds == old(adds) + 1
      ensures info == (if old(Refuses()) then None else Some(server.create(config)))
      ensures consumer == if info.Some? then info else old(consumer)
    {
      var refused := Refuses();
      calls := calls + [Call.Add(config)];
      adds := adds + 1;
      if refused {
        return None;
      }
      info := Some(server.create(config));
      consumer := info;
    }

    /** Answers whether a consumer was deleted, or throws. */
    method Delete() returns (threw: bool, deleted: bool)
      modifies this
      ensures calls == old(calls) + [Call.Delete] && adds == old(adds)
      ensures threw == (fault == DeleteFails) && deleted == (fault != DeleteFails && fault != DeleteDeclined)
      ensures consumer == if deleted then None else old(consumer)
    {
      calls := calls + [Call.Delete];
      threw, deleted := fault == DeleteFails, fault != DeleteFails && fault != DeleteDeclined;
      if deleted {
        consumer := None;
      }
    }

    method Update(patch: Patch) returns (ok: bool)
      requires consumer.Some?
      modifies this
      ensures calls == old(calls) + [Call.Update(patch)] && adds == old(adds) && ok == (fault != UpdateFails)
      ensures consumer
           == if ok then Some(server.update(old(consumer.value), Merge(old(consumer.value).config, patch)))
              else old(consumer)
    {
      calls := calls + [Call.Update(patch)];
      ok := fault != UpdateFails;
      if ok {
        consumer := Some(server.update(consumer.value, Merge(consumer.value.config, patch)));
      }
    }
  }

  class Controller {
    const options: Options
    const resumeAfter: Option<nat>
    var active: Option<Normal>
    var effectiveStart: Option<Start>

    constructor (options: Options, resumeAfter: Option<nat>)
      ensures this.options == options && this.resumeAfter == resumeAfter
      ensures active == None && effectiveStart == None
    {
      this.options, this.resumeAfter, active, effectiveStart := options, resumeAfter, None, None;
    }

    /** The outcome that the specification gives for the state before the call. */
    twostate predicate Follows(api: ConsumerApi, status: Status, editable: seq<Editable>, immutable: seq<Immutable>)
      reads this, api
    {
      Outcome(status, editable, immutable, api.consumer, effectiveStart, api.calls)
      == Reconcile(options, resumeAfter, old(effectiveStart), old(api.consumer), api.server, api.fault)
    }

    method ReconcileWith(api: ConsumerApi)
      returns (status: Status, editable: seq<Editable>, immutable: seq<Immutable>)
      requires api.calls == [] && api.adds == 0
      modifies this, api
      ensures Follows(api, status, editable, immutable)
      ensures !status.Failed? && !status.Rejected? ==>
        api.consumer.Some? && active == Some(Active(api.consumer.value))
    {
      hide EditableDrift, ImmutableDrift, Active, Adopted, IsOwned, UpdatePatch, FullConfig, Merge, Or;
      if api.consumer.None? {
        status, immutable := CreateMissing(api);
        return status, [], immutable;
      }
      var info := api.consumer.value;
      var before := Active(info);
      active := Some(before);
      if options.mode == Owned && !IsOwned(info) {
        return Rejected(NotOwned), [], [];
      }
      effectiveStart := Adopted(options, effectiveStart, before);
      var start := Or(effectiveStart, options.start);
      editable, immutable := EditableDrift(options, before, start), ImmutableDrift(options, before, start);
      if editable == [] && immutable == [] {
        return Unchanged, [], [];
      }
      if options.mode == Bind || options.Policy() == RejectDrift {
        return Rejected(Drifted), editable, immutable;
      }
      if immutable != [] {
        if options.mode != Owned || options.Policy() != RecreateOwned {
          return Rejected(Drifted), editable, immutable;
        }
        status := RecreateAtBoundary(api, info, editable, immutable);
        return status, editable, immutable;
      }
      status := UpdateExisting(api, info, editable);
      return status, editable, [];
    }

    method CreateMissing(api: ConsumerApi) returns (status: Status, immutable: seq<Immutable>)
      requires api.calls == [] && api.adds == 0 && api.consumer.None?
      modifies this, api
      ensures Outcome(status, [], immutable, api.consumer, effectiveStart, api.calls)
           == Create(options, resumeAfter, old(effectiveStart), api.server, api.fault)
      ensures status.Created? ==> api.consumer.Some? && active == Some(Active(api.consumer.value))
      ensures !status.Created? ==> status.Failed? || status.Rejected?
    {
      if options.mode == Bind {
        return Rejected(Missing), [DurableName];
      }
      var boundary := if options.mode == Owned then resumeAfter else None;
      var first: Option<nat> := None;
      var start := options.start;
      if boundary.Some? {
        first := DeliverAfter(boundary.value);
        start := After(boundary.value);
        if first.None? {
          return Failed, [];
        }
      }
      var added := api.Add(FullConfig(options, start));
      if added.None? {
        return Failed, [];
      }
      if boundary.Some? {
        effectiveStart := Some(start);
      }
      active := Some(Active(added.value));
      return Created(first), [];
    }

    method RecreateAtBoundary(api: ConsumerApi, info: Info, ghost editable: seq<Editable>,
                              ghost immutable: seq<Immutable>)
      returns (status: Status)
      requires api.calls == [] && api.adds == 0 && api.consumer == Some(info)
      modifies this, api
      ensures Outcome(status, editable, immutable, api.consumer, effectiveStart, api.calls)
           == Recreate(options, old(effectiveStart), info, api.server, api.fault, editable, immutable)
      ensures status.Recreated? ==> api.consumer.Some? && active == Some(Active(api.consumer.value))
      ensures !status.Recreated? ==> status.Failed?
    {
      hide FullConfig, Active;
      var boundary := RecreationBoundary(info);
      if boundary.None? || DeliverAfter(boundary.value).None? {
        return Failed;
      }
      var threw, _ := api.Delete();
      if threw {
        return Failed;
      }
      var added := api.Add(FullConfig(options, After(boundary.value)));
      if added.None? {
        var restored := api.Add(RollbackConfig(info.config, boundary.value));
        if restored.Some? {
          active := Some(Active(restored.value));
          effectiveStart := Some(After(boundary.value));
        }
        return Failed;
      }
      effectiveStart := Some(After(boundary.value));
      active := Some(Active(added.value));
      return Recreated(DeliverAfter(boundary.value).value);
    }

    method UpdateExisting(api: ConsumerApi, info: Info, editable: seq<Editable>) returns (status: Status)
      requires api.calls == [] && api.consumer == Some(info)
      modifies this, api
      ensures Outcome(status, editable, [], api.consumer, effectiveStart, api.calls)
           == UpdateInPlace(options, old(effectiveStart), info, api.server, api.fault, editable)
      ensures status == Updated ==> api.consumer.Some? && active == Some(Active(api.consumer.value))
      ensures status != Updated ==> status.Failed?
    {
      hide EditableDrift, ImmutableDrift, Active, UpdatePatch, Merge, Or;
      var ok := api.Update(UpdatePatch(options, editable));
      if !ok {
        return Failed;
      }
      var after := Active(api.consumer.value);
      active := Some(after);
      var start := Or(effectiveStart, options.start);
      if EditableDrift(options, after, start) != [] || ImmutableDrift(options, after, start) != [] {
        return Failed;
      }
      return Updated;
    }

    /** Deletes an owned consumer. The start remembered from a recreation is kept. */
    method DeleteConsumer(api: ConsumerApi) returns (ok: bool)
      requires api.calls == []
      modifies this, api
      ensures
        var owned := options.mode == Owned && old(api.consumer).Some? && IsOwned(old(api.consumer).value);
        && ok == (owned && api.fault != DeleteFails && api.fault != DeleteDeclined)
        && api.calls == if owned then [Call.Delete] else []
      ensures effectiveStart == old(effectiveStart)
      ensures api.consumer == (if ok then None else old(api.consumer)) && (ok ==> active == None)
    {
      if options.mode != Owned || api.consumer.None? {
        return false;
      }
      active := Some(Active(api.consumer.value));
      if !IsOwned(api.consumer.value) {
        return false;
      }
      var _, deleted := api.Delete();
      ok := deleted;
      if ok {
        active := None;
      }
    }
  }
}
