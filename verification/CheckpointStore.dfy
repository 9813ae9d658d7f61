/** What a checkpoint store promises over any sequence of saves, whoever makes them. */
module CheckpointStore {
  import opened Prelude
  import opened Checkpointing

  /** A save is accepted exactly if it is well formed, of the same scope as what is stored, and no older. */
  lemma AcceptedIff(stored: Option<Checkpoint>, c: Checkpoint)
    ensures
      Refusal(stored, c).None?
      <==> (&& c.stream != "" && c.epoch != "" && 0 <= c.sequence <= MaxSafe && c.scope != Some("")
            && (stored.Some? ==>
                  && (stored.value.scope.Some? ==> c.scope == stored.value.scope)
                  && (stored.value.stream == c.stream && stored.value.epoch == c.epoch ==>
                        stored.value.sequence <= c.sequence)))
    ensures
      Refusal(stored, c) == Some(Regression)
      ==> stored.Some? && stored.value.stream == c.stream && stored.value.epoch == c.epoch
          && c.sequence < stored.value.sequence
    ensures Refusal(stored, c) == Some(ScopeConflict) ==> stored.Some? && stored.value.scope != c.scope
  {
  }

  /** What is stored under one key after these saves. */
  function SaveAll(stored: Option<Checkpoint>, saves: seq<Checkpoint>): Option<Checkpoint> {
    if saves == [] then stored
    else
      var before := SaveAll(stored, saves[..|saves| - 1]);
      if Refusal(before, saves[|saves| - 1]).Some? then before else Some(saves[|saves| - 1])
  }

  predicate SameStream(c: Checkpoint, saves: seq<Checkpoint>) {
    forall i :: 0 <= i < |saves| ==> saves[i].stream == c.stream && saves[i].epoch == c.epoch
  }

  /**
   Over any sequence of saves: what is stored stays, or is one of the saves and well formed; a scope once stored is
   never replaced; and within one stream and epoch the stored sequence never goes back.
   */
  lemma {:induction false} NeverBack(stored: Option<Checkpoint>, saves: seq<Checkpoint>)
    ensures
      var r := SaveAll(stored, saves);
      && (r == stored || (r.Some? && r.value in saves && Validate(r.value).None?))
      && (stored.Some? ==> r.Some?)
      && (stored.Some? && stored.value.scope.Some? ==> r.value.scope == stored.value.scope)
      && (stored.Some? && SameStream(stored.value, saves) ==>
            && r.value.stream == stored.value.stream && r.value.epoch == stored.value.epoch
            && stored.value.sequence <= r.value.sequence)
    decreases |saves|
  {
    if saves != [] {
      var front, last := saves[..|saves| - 1], saves[|saves| - 1];
      NeverBack(stored, front);
      AcceptedIff(SaveAll(stored, front), last);
    }
  }

  /** Within one stream and epoch, with one scope, the newest well-formed save is the one that is stored. */
  lemma {:induction false} NewestStored(stored: Option<Checkpoint>, saves: seq<Checkpoint>, i: nat)
    requires i < |saves| && Validate(saves[i]).None?
    requires SameStream(saves[i], saves) && forall j :: 0 <= j < |saves| ==> saves[j].scope == saves[i].scope
    requires stored.Some? ==>
      stored.value.stream == saves[i].stream && stored.value.epoch == saves[i].epoch
      && stored.value.scope == saves[i].scope
    ensures
      var r := SaveAll(stored, saves);
      && r.Some? && saves[i].sequence <= r.value.sequence
      && r.value.stream == saves[i].stream && r.value.epoch == saves[i].epoch && r.value.scope == saves[i].scope
    decreases |saves|
  {
    var front, last := saves[..|saves| - 1], saves[|saves| - 1];
    NeverBack(stored, front);
    AcceptedIff(SaveAll(stored, front), last);
    if i < |front| {
      NewestStored(stored, front, i);
    }
  }
}
