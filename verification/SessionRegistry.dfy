/** The registry of shared sessions: reference counts, idle timers, and one registered session for each key. */
module SessionRegistry {
  import opened Prelude

  /** A session ever opened: `count` is its reference count and `closed` says that its close was requested. */
  datatype Entry = Entry(key: string, contract: Option<string>, count: nat, closed: bool)

  datatype Handle = Handle(session: nat, released: bool)

  /**
   `sessions` maps a key to the session registered for it, `timers` to the session that an idle timer will close.
   `entries` and `handles` list every session opened and every handle given out.
   */
  datatype Registry = Registry(
    idle: bool, closed: bool, sessions: map<string, nat>, timers: map<string, nat>,
    entries: seq<Entry>, handles: seq<Handle>)

  datatype Command =
    | Acquire(key: string, contract: Option<string>)
    | Release(handle: nat)
    | TimerFires(key: string)
    | CloseRegistry

  datatype Reply = Ok | Closed | ContractMismatch

  function Empty(idle: bool): Registry {
    Registry(idle, false, map[], map[], [], [])
  }

  function Answer(r: Registry, command: Command): Reply {
    match command
    case Acquire(key, contract) =>
      if r.closed then Closed
      else if key in r.sessions && r.sessions[key] < |r.entries| && r.entries[r.sessions[key]].contract != contract then
        ContractMismatch
      else Ok
    case _ => Ok
  }

  /** Opens a session for a key that has none. */
  function Open(r: Registry, key: string, contract: Option<string>): Registry {
    if key in r.sessions then r
    else r.(sessions := r.sessions[key := |r.entries|], entries := r.entries + [Entry(key, contract, 0, false)])
  }

  function Count(r: Registry, session: nat, count: nat): Registry
    requires session < |r.entries|
  {
    r.(entries := r.entries[session := r.entries[session].(count := count)])
  }

  function CloseEntry(r: Registry, session: nat): Registry
    requires session < |r.entries|
  {
    r.(entries := r.entries[session := r.entries[session].(closed := true)])
  }

  function Retain(r: Registry, key: string, contract: Option<string>): Registry {
    var found := Open(r, key, contract);
    var session := found.sessions[key];
    if |found.entries| <= session then found
    else
      Count(found.(timers := found.timers - {key}, handles := found.handles + [Handle(session, false)]),
            session, found.entries[session].count + 1)
  }

  /** A session that nobody holds is closed at once, or when its idle timer fires. */
  function Idle(r: Registry, session: nat): Registry
    requires session < |r.entries|
  {
    var key := r.entries[session].key;
    if r.idle then r.(timers := r.timers[key := session])
    else CloseEntry(r.(sessions := r.sessions - {key}), session)
  }

  function ReleaseHandle(r: Registry, handle: nat): Registry
    requires handle < |r.handles|
  {
    var session := r.handles[handle].session;
    if r.handles[handle].released || |r.entries| <= session || r.entries[session].count == 0 then r
    else
      var marked := r.(handles := r.handles[handle := Handle(session, true)]);
      var released := Count(marked, session, r.entries[session].count - 1);
      if released.entries[session].count == 0 then Idle(released, session) else released
  }

  function Fire(r: Registry, key: string): Registry {
    if key !in r.timers then r
    else
      var session, fired := r.timers[key], r.(timers := r.timers - {key});
      if key in r.sessions && r.sessions[key] == session && session < |r.entries|
      then CloseEntry(fired.(sessions := r.sessions - {key}), session)
      else fired
  }

  function CloseAll(r: Registry): Registry {
    if r.closed then r
    else
      r.(closed := true, timers := map[], sessions := map[],
         entries := seq(|r.entries|, i requires 0 <= i < |r.entries| =>
           if r.entries[i].key in r.sessions && r.sessions[r.entries[i].key] == i then r.entries[i].(closed := true)
           else r.entries[i]))
  }

  function Step(r: Registry, command: Command): Registry {
    if Answer(r, command) != Ok then r
    else
      match command
      case Acquire(key, contract) => Retain(r, key, contract)
      case Release(handle) => if handle < |r.handles| then ReleaseHandle(r, handle) else r
      case TimerFires(key) => Fire(r, key)
      case CloseRegistry => CloseAll(r)
  }

  function Run(idle: bool, commands: seq<Command>): Registry {
    if commands == [] then Empty(idle) else Step(Run(idle, commands[..|commands| - 1]), commands[|commands| - 1])
  }

  // ---------------------------------------------------------------------------------------------
  // Ownership
  // ---------------------------------------------------------------------------------------------

  /** How many handles hold the session. */
  function Holders(handles: seq<Handle>, session: nat): nat {
    if handles == [] then 0
    else
      var last := handles[|handles| - 1];
      Holders(handles[..|handles| - 1], session) + (if last.session == session && !last.released then 1 else 0)
  }

  predicate Registered(r: Registry, session: nat)
    requires session < |r.entries|
  {
    r.entries[session].key in r.sessions && r.sessions[r.entries[session].key] == session
  }

  predicate Armed(r: Registry, session: nat)
    requires session < |r.entries|
  {
    r.entries[session].key in r.timers && r.timers[r.entries[session].key] == session
  }

  /** A session is registered exactly while it is held or its idle timer runs, and is closed otherwise. */
  predicate Owned(r: Registry, session: nat)
    requires session < |r.entries|
  {
    && (Registered(r, session) <==> r.entries[session].count > 0 || Armed(r, session))
    && (Armed(r, session) ==> r.entries[session].count == 0 && r.idle)
    && (r.entries[session].closed <==> !Registered(r, session))
  }

  ghost predicate Consistent(r: Registry) {
    && (forall key :: key in r.sessions ==> r.sessions[key] < |r.entries| && r.entries[r.sessions[key]].key == key)
    && (forall key :: key in r.timers ==> r.timers[key] < |r.entries| && r.entries[r.timers[key]].key == key)
    && (forall h :: 0 <= h < |r.handles| ==> r.handles[h].session < |r.entries|)
  }

  ghost predicate Exact(r: Registry) {
    forall i :: 0 <= i < |r.entries| ==> r.entries[i].count == Holders(r.handles, i)
  }

  ghost predicate AllOwned(r: Registry) {
    forall i :: 0 <= i < |r.entries| ==> Owned(r, i)
  }

  ghost predicate Inv(r: Registry) {
    && Consistent(r) && Exact(r)
    && (!r.closed ==> AllOwned(r))
    && (r.closed ==> forall i :: 0 <= i < |r.entries| ==> r.entries[i].closed)
  }

  lemma {:induction false} HoldersUpdate(handles: seq<Handle>, h: nat, handle: Handle, session: nat)
    requires h < |handles| && !handles[h].released && handle == Handle(handles[h].session, true)
    ensures Holders(handles[h := handle], session)
         == Holders(handles, session) - (if handle.session == session then 1 else 0)
    ensures handle.session == session ==> 0 < Holders(handles, session)
    decreases |handles|
  {
    var front := handles[..|handles| - 1];
    if h == |handles| - 1 {
      assert handles[h := handle][..|handles| - 1] == front;
    } else {
      assert handles[h := handle][..|handles| - 1] == front[h := handle];
      HoldersUpdate(front, h, handle, session);
    }
  }

  lemma HoldersSnoc(handles: seq<Handle>, handle: Handle, session: nat)
    ensures Holders(handles + [handle], session)
         == Holders(handles, session) + (if handle.session == session && !handle.released then 1 else 0)
  {
    assert (handles + [handle])[..|handles|] == handles;
  }

  lemma {:induction false} NobodyHolds(handles: seq<Handle>, session: nat)
    requires forall h :: 0 <= h < |handles| ==> handles[h].session < session
    ensures Holders(handles, session) == 0
    decreases |handles|
  {
    if handles != [] {
      NobodyHolds(handles[..|handles| - 1], session);
    }
  }

  lemma ReleaseExact(r: Registry, handle: nat)
    requires Exact(r) && handle < |r.handles| && !r.handles[handle].released
    requires r.handles[handle].session < |r.entries|
    ensures
      var session := r.handles[handle].session;
      && 0 < r.entries[session].count
      && Exact(Count(r.(handles := r.handles[handle := Handle(session, true)]), session, r.entries[session].count - 1))
  {
    var session := r.handles[handle].session;
    HoldersUpdate(r.handles, handle, Handle(session, true), session);
    var next := Count(r.(handles := r.handles[handle := Handle(session, true)]), session, r.entries[session].count - 1);
    forall i | 0 <= i < |next.entries|
      ensures next.entries[i].count == Holders(next.handles, i)
    {
      HoldersUpdate(r.handles, handle, Handle(session, true), i);
    }
  }

  lemma RetainExact(r: Registry, session: nat)
    requires Exact(r) && session < |r.entries|
    ensures Exact(Count(r.(handles := r.handles + [Handle(session, false)]), session, r.entries[session].count + 1))
  {
    var next := Count(r.(handles := r.handles + [Handle(session, false)]), session, r.entries[session].count + 1);
    forall i | 0 <= i < |next.entries|
      ensures next.entries[i].count == Holders(next.handles, i)
    {
      HoldersSnoc(r.handles, Handle(session, false), i);
    }
  }

  lemma TimerIsRegistered(r: Registry, key: string)
    requires Inv(r) && !r.closed && key in r.timers
    ensures key in r.sessions
  {
    hide Holders;
    assert Owned(r, r.timers[key]);
  }

  /** A session just opened is registered and not yet held. */
  lemma OpenInv(r: Registry, key: string, contract: Option<string>)
    requires Inv(r) && !r.closed && key !in r.sessions
    ensures
      var found := Open(r, key, contract);
      && Consistent(found) && Exact(found) && found.sessions[key] == |r.entries|
      && (forall i :: 0 <= i < |r.entries| ==> Owned(found, i) && found.entries[i] == r.entries[i])
      && key !in r.timers
  {
    var found := Open(r, key, contract);
    NobodyHolds(r.handles, |r.entries|);
    hide Holders;
    if key in r.timers {
      TimerIsRegistered(r, key);
    }
    forall i | 0 <= i < |r.entries|
      ensures Owned(found, i)
    {
      assert Owned(r, i);
    }
  }

  /** Retaining a registered session stops its idle timer. */
  lemma RetainInv(r: Registry, key: string, session: nat)
    requires Consistent(r) && Exact(r) && !r.closed && key in r.sessions && r.sessions[key] == session
    requires forall i :: 0 <= i < |r.entries| && i != session ==> Owned(r, i)
    requires session < |r.entries| && !r.entries[session].closed
    requires key in r.timers ==> r.timers[key] == session
    ensures Inv(Count(r.(timers := r.timers - {key}, handles := r.handles + [Handle(session, false)]),
                      session, r.entries[session].count + 1))
  {
    RetainExact(r, session);
    var retained := r.(handles := r.handles + [Handle(session, false)]);
    var next := Count(r.(timers := r.timers - {key}, handles := r.handles + [Handle(session, false)]),
                      session, r.entries[session].count + 1);
    hide Holders;
    assert next == Count(retained, session, r.entries[session].count + 1).(timers := r.timers - {key});
    assert Exact(next) && Consistent(next);
    hide Exact, Consistent;
    forall i | 0 <= i < |next.entries|
      ensures Owned(next, i)
    {
      if i != session {
        assert Owned(r, i);
      }
    }
  }

  lemma AcquireInv(r: Registry, key: string, contract: Option<string>)
    requires Inv(r) && !r.closed
    ensures Inv(Retain(r, key, contract))
  {
    hide Holders;
    if key in r.sessions {
      assert Owned(r, r.sessions[key]);
      if key in r.timers {
        assert Owned(r, r.timers[key]);
      }
      RetainInv(r, key, r.sessions[key]);
    } else {
      OpenInv(r, key, contract);
      RetainInv(Open(r, key, contract), key, |r.entries|);
    }
  }

  lemma IdleInv(r: Registry, session: nat)
    requires Consistent(r) && Exact(r) && session < |r.entries| && r.entries[session].count == 0
    requires !r.closed ==>
      && Registered(r, session) && !Armed(r, session) && !r.entries[session].closed
      && forall i :: 0 <= i < |r.entries| && i != session ==> Owned(r, i)
    requires r.closed ==> forall i :: 0 <= i < |r.entries| ==> r.entries[i].closed
    ensures Inv(Idle(r, session))
  {
    hide Holders;
    var next := Idle(r, session);
    if !r.closed {
      forall i | 0 <= i < |next.entries|
        ensures Owned(next, i)
      {
        if i != session {
          assert Owned(r, i);
        }
      }
    }
  }

  /** The registry with one handle less on a session, before anyone looks whether it was the last. */
  function Dropped(r: Registry, handle: nat, session: nat): Registry
    requires handle < |r.handles| && session < |r.entries| && 0 < r.entries[session].count
  {
    var marked := r.(handles := r.handles[handle := Handle(session, true)]);
    Count(marked, session, r.entries[session].count - 1)
  }

  lemma DroppedKept(r: Registry, handle: nat, session: nat)
    requires Inv(r) && handle < |r.handles| && r.handles[handle] == Handle(session, false)
    requires session < |r.entries| && 0 < r.entries[session].count
    ensures
      var next := Dropped(r, handle, session);
      && Consistent(next) && next.closed == r.closed && next.idle == r.idle && |next.entries| == |r.entries|
      && (r.closed ==> forall i :: 0 <= i < |next.entries| ==> next.entries[i].closed)
      && (!r.closed ==>
            && Registered(next, session) && !Armed(next, session) && !next.entries[session].closed
            && forall i :: 0 <= i < |next.entries| && i != session ==> Owned(next, i))
  {
    hide Holders;
    if !r.closed {
      assert Owned(r, session);
      forall i | 0 <= i < |r.entries| && i != session
        ensures Owned(Dropped(r, handle, session), i)
      {
        assert Owned(r, i);
      }
    }
  }

  lemma ReleaseInv(r: Registry, handle: nat)
    requires Inv(r) && handle < |r.handles|
    ensures Inv(ReleaseHandle(r, handle))
  {
    var session := r.handles[handle].session;
    if !r.handles[handle].released {
      ReleaseExact(r, handle);
      DroppedKept(r, handle, session);
      var next := Dropped(r, handle, session);
      assert next.entries[session].count == r.entries[session].count - 1;
      hide Holders, Consistent, Owned, Registered, Armed;
      if next.entries[session].count == 0 {
        IdleInv(next, session);
      } else if !r.closed {
        StillOwned(next, session);
      }
    }
  }

  lemma StillOwned(r: Registry, session: nat)
    requires session < |r.entries| && Registered(r, session) && !Armed(r, session) && !r.entries[session].closed
    requires 0 < r.entries[session].count
    ensures Owned(r, session)
  {
  }

  lemma FireInv(r: Registry, key: string)
    requires Inv(r)
    ensures Inv(Fire(r, key))
  {
    hide Holders;
    if key in r.timers {
      var session, next := r.timers[key], Fire(r, key);
      if !r.closed {
        assert Owned(r, session);
        forall i | 0 <= i < |next.entries|
          ensures Owned(next, i)
        {
          assert Owned(r, i);
        }
      }
    }
  }

  lemma CloseInv(r: Registry)
    requires Inv(r)
    ensures Inv(CloseAll(r))
  {
    hide Holders;
    if !r.closed {
      var next := CloseAll(r);
      forall i | 0 <= i < |next.entries|
        ensures next.entries[i].closed
      {
        assert Owned(r, i);
      }
    }
  }

  lemma StepInv(r: Registry, command: Command)
    requires Inv(r)
    ensures Inv(Step(r, command))
  {
    hide Inv, Retain, ReleaseHandle, Fire, CloseAll;
    if Answer(r, command) == Ok {
      match command {
        case Acquire(key, contract) => AcquireInv(r, key, contract);
        case Release(handle) =>
          if handle < |r.handles| {
            ReleaseInv(r, handle);
          }
        case TimerFires(key) => FireInv(r, key);
        case CloseRegistry => CloseInv(r);
      }
    }
  }

  lemma {:induction false} RunInv(idle: bool, commands: seq<Command>)
    ensures Inv(Run(idle, commands))
    decreases |commands|
  {
    hide Inv, Step;
    if commands == [] {
      EmptyInv(idle);
    } else {
      RunInv(idle, commands[..|commands| - 1]);
      StepInv(Run(idle, commands[..|commands| - 1]), commands[|commands| - 1]);
    }
  }

  lemma EmptyInv(idle: bool)
    ensures Inv(Empty(idle))
  {
  }

  /**
   Over every run: a session's count is the number of its unreleased handles; until the registry is closed a session
   is registered exactly while it is held or its idle timer runs, and is closed exactly when it is not; and no two
   sessions are registered for one key.
   */
  lemma OwnershipHolds(idle: bool, commands: seq<Command>, i: nat)
    requires i < |Run(idle, commands).entries|
    ensures
      var r := Run(idle, commands);
      && r.entries[i].count == Holders(r.handles, i)
      && (!r.closed ==>
            && (Registered(r, i) <==> r.entries[i].count > 0 || Armed(r, i))
            && (Armed(r, i) ==> r.entries[i].count == 0)
            && (r.entries[i].closed <==> !Registered(r, i))
            && (forall j :: 0 <= j < |r.entries| && Registered(r, j) && r.entries[i].key == r.entries[j].key ==>
                  i == j || !Registered(r, i)))
      && (r.closed ==> r.entries[i].closed)
  {
    RunInv(idle, commands);
    hide Run, Holders;
    var r := Run(idle, commands);
    if !r.closed {
      assert Owned(r, i);
    }
  }

  /** A handle that has not been released refers to the session registered for its key, which is open. */
  lemma HeldIsOpen(idle: bool, commands: seq<Command>, h: nat)
    requires !Run(idle, commands).closed && h < |Run(idle, commands).handles|
    requires !Run(idle, commands).handles[h].released
    ensures
      var r, session := Run(idle, commands), Run(idle, commands).handles[h].session;
      session < |r.entries| && Registered(r, session) && !r.entries[session].closed
  {
    var r := Run(idle, commands);
    RunInv(idle, commands);
    HoldersPositive(r.handles, h);
    hide Run, Holders;
    assert Owned(r, r.handles[h].session);
  }

  lemma {:induction false} HoldersPositive(handles: seq<Handle>, h: nat)
    requires h < |handles| && !handles[h].released
    ensures 0 < Holders(handles, handles[h].session)
    decreases |handles|
  {
    if h < |handles| - 1 {
      HoldersPositive(handles[..|handles| - 1], h);
    }
  }

  // ---------------------------------------------------------------------------------------------
  // The registry object
  // ---------------------------------------------------------------------------------------------
  // What each command does
  // ---------------------------------------------------------------------------------------------

  /** The sessions, timers and entries of everyone else are as they were. */
  ghost predicate OthersKept(r: Registry, next: Registry, key: string, session: nat) {
    && |r.entries| <= |next.entries|
    && (forall i :: 0 <= i < |r.entries| && i != session ==> next.entries[i] == r.entries[i])
    && (forall other :: other != key ==>
          && ((other in next.sessions <==> other in r.sessions) && (other in next.timers <==> other in r.timers))
          && (other in r.sessions ==> next.sessions[other] == r.sessions[other])
          && (other in r.timers ==> next.timers[other] == r.timers[other]))
  }

  /**
   A key is acquired exactly if the registry is open and the key free, or registered under the same contract. The
   handle then holds the session registered for it, the one that was there if there was one, and no timer threatens it.
   */
  lemma AcquireExactly(r: Registry, key: string, contract: Option<string>)
    requires Inv(r)
    ensures
      var next := Step(r, Acquire(key, contract));
      var session := if key in r.sessions then r.sessions[key] else |r.entries|;
      if r.closed then next == r && Answer(r, Acquire(key, contract)) == Closed
      else if key in r.sessions && r.entries[session].contract != contract then
        next == r && Answer(r, Acquire(key, contract)) == ContractMismatch
      else
        && Answer(r, Acquire(key, contract)) == Ok
        && next.handles == r.handles + [Handle(session, false)] && session < |next.entries|
        && |next.entries| == (if key in r.sessions then |r.entries| else |r.entries| + 1)
        && next.entries[session].key == key && next.entries[session].contract == contract
        && !next.entries[session].closed
        && key in next.sessions && next.sessions[key] == session && key !in next.timers
        && OthersKept(r, next, key, session) && next.idle == r.idle && !next.closed
  {
    hide Holders;
    if key in r.sessions && !r.closed {
      assert Owned(r, r.sessions[key]);
    }
  }

  /**
   A handle is released once. The last release closes a session at once, or, where sessions may idle, leaves it open
   and registered with its timer running; any other release leaves the session alone.
   */
  lemma ReleaseExactly(r: Registry, handle: nat)
    requires Inv(r) && handle < |r.handles|
    ensures
      var next, session := Step(r, Release(handle)), r.handles[handle].session;
      && session < |r.entries|
      && var key := r.entries[session].key;
         if r.handles[handle].released then next == r
         else
           && next.handles == r.handles[handle := Handle(session, true)] && |next.entries| == |r.entries|
           && OthersKept(r, next, key, session) && next.closed == r.closed
           && if Holders(r.handles, session) > 1 then
                next.sessions == r.sessions && next.timers == r.timers
                && next.entries[session].closed == r.entries[session].closed
              else if r.idle then
                next.sessions == r.sessions && next.timers == r.timers[key := session]
                && next.entries[session].closed == r.entries[session].closed
              else
                next.entries[session].closed && key !in next.sessions && next.timers == r.timers
  {
    if !r.handles[handle].released {
      ReleaseExact(r, handle);
    }
    hide Holders;
  }

  /** An idle timer closes the session that it was armed for, and no other. */
  lemma TimerExactly(r: Registry, key: string)
    requires Inv(r) && !r.closed
    ensures
      var next := Step(r, TimerFires(key));
      if key !in r.timers then next == r
      else
        var session := r.timers[key];
        && session < |next.entries| && next.entries[session].closed
        && key !in next.sessions && key !in next.timers && next.handles == r.handles
        && |next.entries| == |r.entries| && OthersKept(r, next, key, session)
  {
    hide Holders;
    if key in r.timers {
      assert Owned(r, r.timers[key]);
    }
  }

  /** Closing the registry closes every session, once, and nothing can be acquired afterwards. */
  lemma CloseExactly(r: Registry, key: string, contract: Option<string>)
    requires Inv(r)
    ensures
      var next := Step(r, CloseRegistry);
      && next.closed && next.handles == r.handles && |next.entries| == |r.entries|
      && (forall i :: 0 <= i < |r.entries| ==>
            next.entries[i] == r.entries[i].(closed := true))
      && (!r.closed ==> next.sessions == map[] && next.timers == map[])
      && Answer(next, Acquire(key, contract)) == Closed && Step(next, CloseRegistry) == next
  {
    CloseInv(r);
    hide Holders;
    if !r.closed {
      forall i | 0 <= i < |r.entries|
        ensures r.entries[i].closed || Registered(r, i)
      {
        assert Owned(r, i);
      }
    }
  }

  /** A session whose last handle was released is shared again by whoever comes before its timer. */
  lemma ReacquiredInTime(r: Registry, handle: nat)
    requires Inv(r) && !r.closed && r.idle && handle < |r.handles| && !r.handles[handle].released
    requires Holders(r.handles, r.handles[handle].session) == 1
    ensures
      var session := r.handles[handle].session;
      && session < |r.entries|
      && var entry, idle := r.entries[session], Step(r, Release(handle));
         && entry.key in idle.timers
         && var again := Step(idle, Acquire(entry.key, entry.contract));
            && |again.handles| == |r.handles| + 1 && again.handles[|r.handles|] == Handle(session, false)
            && !again.entries[session].closed && entry.key !in again.timers
  {
    var session := r.handles[handle].session;
    hide Holders;
    ReleaseExactly(r, handle);
    StepInv(r, Release(handle));
    assert Owned(r, session) && r.entries[session].count == 1;
    AcquireExactly(Step(r, Release(handle)), r.entries[session].key, r.entries[session].contract);
    hide Step;
  }

  // ---------------------------------------------------------------------------------------------

  class SessionTable {
    const idle: bool
    var closeRequested: bool
    var sessions: map<string, nat>
    var cleanupTimers: map<string, nat>
    var entries: seq<Entry>
    var handles: seq<Handle>

    constructor (idle: bool)
      ensures View() == Empty(idle)
    {
      this.idle, closeRequested, sessions, cleanupTimers, entries, handles := idle, false, map[], map[], [], [];
    }

    function View(): Registry
      reads this
    {
      Registry(idle, closeRequested, sessions, cleanupTimers, entries, handles)
    }

    /** A refused acquisition changes nothing. */
    method AcquireHandle(key: string, contract: Option<string>) returns (reply: Reply)
      requires Inv(View())
      modifies this
      ensures reply == Answer(old(View()), Acquire(key, contract))
      ensures View() == Step(old(View()), Acquire(key, contract)) && Inv(View())
    {
      StepInv(View(), Acquire(key, contract));
      hide Holders;
      if closeRequested {
        return Closed;
      }
      if key !in sessions {
        sessions := sessions[key := |entries|];
        entries := entries + [Entry(key, contract, 0, false)];
      } else if entries[sessions[key]].contract != contract {
        return ContractMismatch;
      }
      var session := sessions[key];
      cleanupTimers := cleanupTimers - {key};
      entries := entries[session := entries[session].(count := entries[session].count + 1)];
      handles := handles + [Handle(session, false)];
      return Ok;
    }

    method ReleaseReference(handle: nat)
      requires Inv(View()) && handle < |handles|
      modifies this
      ensures View() == Step(old(View()), Release(handle)) && Inv(View())
    {
      StepInv(View(), Release(handle));
      if handles[handle].released {
        return;
      }
      ReleaseExact(View(), handle);
      hide Holders;
      var session := handles[handle].session;
      handles := handles[handle := Handle(session, true)];
      entries := entries[session := entries[session].(count := entries[session].count - 1)];
      if entries[session].count == 0 {
        var key := entries[session].key;
        if idle {
          cleanupTimers := cleanupTimers[key := session];
        } else {
          sessions := sessions - {key};
          entries := entries[session := entries[session].(closed := true)];
        }
      }
    }

    method TimerElapsed(key: string)
      requires Inv(View())
      modifies this
      ensures View() == Step(old(View()), TimerFires(key)) && Inv(View())
    {
      StepInv(View(), TimerFires(key));
      hide Holders;
      if key !in cleanupTimers {
        return;
      }
      var session := cleanupTimers[key];
      cleanupTimers := cleanupTimers - {key};
      if key in sessions && sessions[key] == session {
        sessions := sessions - {key};
        entries := entries[session := entries[session].(closed := true)];
      }
    }
  }
}
