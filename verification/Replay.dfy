/**
 The reducing session: an ordered, batched consumer that is reopened after its last saved cursor whenever the
 transport fails, and whose batches are folded into one state. Over every run each retained delivery is reduced
 exactly once and in order; an application failure ends the session before it could be reopened elsewhere.
 */
module Replay {
  import opened Prelude
  import opened Batching
  import opened Intake

  datatype Delivery<V> = Delivery(sequence: nat, value: V, measure: Measure)

  datatype Config<!S, !V> = Config(
    policy: Policy,
    after: Option<nat>,
    initial: S,
    reduce: (S, Delivery<V>) -> S)

  /** What `caughtUp` resolved with, and how many positions had been committed by then. */
  datatype CatchUp = CatchUp(cursor: Option<nat>, positions: nat)

  /**
   `log` holds the retained matches behind the configured start, in stream order. `through` is the cursor of the
   last reduced delivery; `shown` is the variable the snapshots publish, which hydration overwrites.
   */
  datatype Session<S, V> = Session(
    log: seq<Delivery<V>>,
    data: S,
    reduced: seq<nat>,
    through: Option<nat>,
    shown: Option<nat>,
    store: Option<nat>,
    lease: Option<Lease>,
    remaining: nat,
    caughtUp: Option<CatchUp>,
    hydrated: bool,
    ended: bool,
    restarts: nat)

  function Start<S, V>(config: Config<S, V>): Session<S, V> {
    Session([], config.initial, [], None, None, None, None, 0, None, false, false, 0)
  }

  datatype Action<V> =
    | Publishes(delivery: Delivery<V>)
    | Opens
    | Turns(turn: Turn)
    | Closes
    | Hydrates

  /** The position of the first delivery behind a cursor. */
  function FirstBehind<V>(log: seq<Delivery<V>>, cursor: Option<nat>): nat {
    if log == [] || cursor.None? || cursor.value < log[0].sequence then 0
    else 1 + FirstBehind(log[1..], cursor)
  }

  function CursorAt<V>(log: seq<Delivery<V>>, positions: nat): Option<nat>
    requires positions <= |log|
  {
    if positions == 0 then None else Some(log[positions - 1].sequence)
  }

  predicate CanAct<S, V>(config: Config<S, V>, s: Session<S, V>, action: Action<V>) {
    match action
    case Publishes(d) =>
      && (config.after.Some? ==> config.after.value < d.sequence)
      && (s.log != [] ==> s.log[|s.log| - 1].sequence < d.sequence)
    case Opens => s.lease.None? && !s.ended
    case Turns(turn) =>
      && s.lease.Some? && Enabled(s.lease.value, turn)
      && (turn.Pulls? ==> s.lease.value.pulled < |s.log| && turn.measure == s.log[s.lease.value.pulled].measure)
    case Closes => s.lease.Some? && Closed(s.lease.value)
    case Hydrates => s.caughtUp.Some? && !s.hydrated
  }

  /** Folds one batch into the state, delivery by delivery. */
  function ReduceBatch<S, V>(config: Config<S, V>, log: seq<Delivery<V>>, data: S, batch: seq<Entry<nat>>): S {
    if batch == [] then data
    else
      var before := ReduceBatch(config, log, data, batch[..|batch| - 1]);
      var position := batch[|batch| - 1].value;
      if position < |log| then config.reduce(before, log[position]) else before
  }

  function Positions(batch: seq<Entry<nat>>): (r: seq<nat>)
    ensures |r| == |batch|
  {
    seq(|batch|, i requires 0 <= i < |batch| => batch[i].value)
  }

  /** A batch reaches the reducer: state and cursor move together, or not at all. */
  function Reduce<S, V>(config: Config<S, V>, s: Session<S, V>, batch: seq<Entry<nat>>): Session<S, V> {
    if batch == [] then s
    else
      var last := batch[|batch| - 1].value;
      var cursor := if last < |s.log| then Some(s.log[last].sequence) else s.through;
      s.(data := ReduceBatch(config, s.log, s.data, batch),
         reduced := s.reduced + Positions(batch),
         through := cursor,
         shown := cursor)
  }

  /** A successful commit saves its sequence and advances the initial replay. */
  function Save<S, V>(s: Session<S, V>, position: nat): Session<S, V>
    requires position < |s.log|
  {
    var cursor := Some(s.log[position].sequence);
    var saved := s.(store := cursor, remaining := if s.remaining == 0 then 0 else s.remaining - 1);
    if s.remaining == 1 && s.caughtUp.None?
    then saved.(caughtUp := Some(CatchUp(cursor, position + 1)))
    else saved
  }

  function Reopen<S, V>(config: Config<S, V>, s: Session<S, V>): Session<S, V> {
    var base := FirstBehind(s.log, s.store);
    var end := |s.log|;
    var open := s.(lease := Some(Intake.Open(config.policy, base, end)),
                   remaining := if base < end then end - base else 0);
    if base == end && s.caughtUp.None?
    then open.(caughtUp := Some(CatchUp(if s.store.Some? then s.store else config.after, base)))
    else open
  }

  function TakeTurn<S, V>(config: Config<S, V>, s: Session<S, V>, turn: Turn): Session<S, V>
    requires s.lease.Some? && Enabled(s.lease.value, turn)
  {
    var l := s.lease.value;
    var effect :=
      if turn.Runs? then Reduce(config, s, AppliedBatch(l, turn.ok))
      else if turn.Commits? && Resolved(l, l.committed) && l.committed < |s.log| then Save(s, l.committed)
      else s;
    effect.(lease := Some(Take(l, turn)))
  }

  function Act<S, V>(config: Config<S, V>, s: Session<S, V>, action: Action<V>): Session<S, V>
    requires CanAct(config, s, action)
  {
    match action
    case Publishes(d) => s.(log := s.log + [d])
    case Opens => Reopen(config, s)
    case Turns(turn) => TakeTurn(config, s, turn)
    case Closes =>
      if s.lease.value.place.infrastructure
      then s.(lease := None, restarts := s.restarts + 1)
      else s.(lease := None, ended := true)
    case Hydrates =>
      var cursor := s.caughtUp.value.cursor;
      s.(hydrated := true, shown := if cursor.Some? then cursor else s.shown)
  }

  predicate Possible<S, V>(config: Config<S, V>, s: Session<S, V>, actions: seq<Action<V>>)
    decreases |actions|
  {
    actions == [] || (CanAct(config, s, actions[0]) && Possible(config, Act(config, s, actions[0]), actions[1..]))
  }

  function Run<S, V>(config: Config<S, V>, s: Session<S, V>, actions: seq<Action<V>>): Session<S, V>
    requires Possible(config, s, actions)
    decreases |actions|
  {
    if actions == [] then s else Run(config, Act(config, s, actions[0]), actions[1..])
  }

  /** Every delivery has a size its batch policy admits. */
  predicate Admissible<V>(policy: Policy, log: seq<Delivery<V>>) {
    forall i :: 0 <= i < |log| ==> Admit(policy, log[i].measure).Admitted?
  }

  predicate Ordered<V>(log: seq<Delivery<V>>) {
    forall i, j :: 0 <= i < j < |log| ==> log[i].sequence < log[j].sequence
  }

  /** Exactly the first `n` retained deliveries were reduced, each once and in order. */
  ghost predicate ReducedThrough<S, V>(config: Config<S, V>, s: Session<S, V>, n: nat) {
    && n <= |s.log|
    && s.reduced == Iota(n)
    && s.data == Fold(config.reduce, config.initial, s.log[..n])
    && s.through == CursorAt(s.log, n)
  }
}
