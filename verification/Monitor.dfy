/**
 The critical sections of the offline monitor of a room, `internal/server/room_monitor.go`. A monitor loop
 is bound to the session generation that installed it; when the room moves on, the loop is retired.

 `Fields` is the part of a room guarded by its `mu` that the protocol reads or writes, and each critical
 section is a function on it. `Room` is the object with the sections as methods.
 */
module Monitor {
  import opened Options

  type LoopId = nat
  type LiveId = nat
  type ClientId = nat

  /** `clients` remembers for each client the generation it joined in. */
  datatype Fields = Fields(
    closed: bool, generation: nat, live: Option<LiveId>, probe: Option<LiveId>, monitor: Option<LoopId>,
    starting: bool, statusUnknown: bool, knownValid: bool, clients: map<ClientId, nat>, pending: nat)

  const FRESH := Fields(false, 0, None, None, None, false, false, false, map[], 0)

  // ----- the critical sections of room_monitor.go

  /** installMonitorLoopLocked: the loop to use and whether it is the new one, numbered `next`. */
  function InstallSection(f: Fields, g: nat, heldGeneration: nat, next: LoopId): (Option<LoopId>, bool) {
    if f.closed || f.generation != g || f.live.Some? then (None, false)
    else if f.monitor.Some? then (if heldGeneration != g then (None, false) else (f.monitor, false))
    else (Some(next), true)
  }

  /** What transitionToMonitorForGeneration and transitionLiveSessionToMonitor return. */
  datatype Transition = Refused | NoClients | Use(monitor: LoopId, clients: map<ClientId, nat>, installed: bool)

  /** The common end of both transitions, from the fields they have already reset. */
  function EnterMonitor(f: Fields, g: nat, heldGeneration: nat, next: LoopId): (Fields, Transition) {
    if f.clients == map[] then (f, NoClients)
    else
      var (monitor, installed) := InstallSection(f, g, heldGeneration, next);
      if monitor.None? then (f, Refused) else (f.(monitor := monitor), Use(monitor.value, f.clients, installed))
  }

  function TransitionSection(f: Fields, g: nat, unknown: bool, heldGeneration: nat, next: LoopId)
    : (Fields, Transition)
  {
    if f.closed || f.generation != g || f.live.Some? then (f, Refused)
    else EnterMonitor(f.(starting := false, statusUnknown := unknown), g, heldGeneration, next)
  }

  predicate Current(f: Fields, l: LoopId, generation: nat) {
    !f.closed && f.generation == generation && f.monitor == Some(l)
  }

  function SnapshotSection(f: Fields, l: LoopId, generation: nat): Option<(map<ClientId, nat>, bool)> {
    if !Current(f, l, generation) then None else Some((f.clients, f.statusUnknown))
  }

  /** beginMonitorProbe: whether to probe and whether to go on. */
  function BeginSection(f: Fields, l: LoopId, generation: nat): (Fields, bool, bool) {
    if !Current(f, l, generation) || f.live.Some? then (f, false, false)
    else if f.clients == map[] then (f, false, false)
    else if f.starting then (f, false, true)
    else (f.(starting := true), true, true)
  }

  /** completeMonitorProbe: whether the room is known to exist and whether the loop is current. */
  function CompleteSection(f: Fields, l: LoopId, generation: nat): (Fields, bool, bool) {
    if !Current(f, l, generation) then (f, false, false) else (f.(starting := false), f.knownValid, true)
  }

  /** commitMonitorStatus: the clients to tell and whether the status changed, for a current loop. */
  function CommitSection(f: Fields, l: LoopId, generation: nat, unknown: bool)
    : (Fields, Option<(map<ClientId, nat>, bool)>)
  {
    if !Current(f, l, generation) then (f, None)
    else (f.(starting := false, statusUnknown := unknown), Some((f.clients, f.statusUnknown != unknown)))
  }

  function FinishSection(f: Fields, l: LoopId): Fields {
    if f.monitor == Some(l) then f.(monitor := None) else f
  }

  /** The room with the critical sections of room_monitor.go as methods. */
  class Room {
    var closed: bool
    var generation: nat
    var live: Option<LiveId>
    var probe: Option<LiveId>
    var monitor: Option<LoopId>
    var starting: bool
    var statusUnknown: bool
    var knownValid: bool
    var clients: map<ClientId, nat>
    var pending: nat

    function View(): Fields
      reads this
    {
      Fields(closed, generation, live, probe, monitor, starting, statusUnknown, knownValid, clients, pending)
    }

    constructor ()
      ensures View() == FRESH
    {
      closed, generation, live, probe, monitor := false, 0, None, None, None;
      starting, statusUnknown, knownValid, clients, pending := false, false, false, map[], 0;
    }

    method InstallMonitorLoopLocked(g: nat, heldGeneration: nat, next: LoopId)
      returns (loop: Option<LoopId>, installed: bool)
      modifies this`monitor
      ensures (loop, installed) == InstallSection(old(View()), g, heldGeneration, next)
      ensures View() == if loop.Some? then old(View()).(monitor := loop) else old(View())
    {
      if closed || generation != g || live.Some? { return None, false; }
      if monitor.Some? {
        if heldGeneration != g { return None, false; }
        return monitor, false;
      }
      monitor := Some(next);
      return monitor, true;
    }

    method TransitionToMonitorForGeneration(g: nat, unknown: bool, heldGeneration: nat, next: LoopId)
      returns (r: Transition)
      modifies this
      ensures (View(), r) == TransitionSection(old(View()), g, unknown, heldGeneration, next)
    {
      if closed || generation != g || live.Some? { return Refused; }
      starting := false;
      statusUnknown := unknown;
      if clients == map[] { return NoClients; }
      var loop, installed := InstallMonitorLoopLocked(g, heldGeneration, next);
      if loop.None? { return Refused; }
      return Use(loop.value, clients, installed);
    }

    method SnapshotClientsForMonitor(l: LoopId, g: nat) returns (r: Option<(map<ClientId, nat>, bool)>)
      ensures r == SnapshotSection(View(), l, g)
    {
      if closed || generation != g || monitor != Some(l) { return None; }
      return Some((clients, statusUnknown));
    }

    method BeginMonitorProbe(l: LoopId, g: nat) returns (start: bool, keepRunning: bool)
      modifies this
      ensures (View(), start, keepRunning) == BeginSection(old(View()), l, g)
    {
      if closed || generation != g || monitor != Some(l) || live.Some? { return false, false; }
      if clients == map[] { return false, false; }
      if starting { return false, true; }
      starting := true;
      return true, true;
    }

    method CompleteMonitorProbe(l: LoopId, g: nat) returns (known: bool, current: bool)
      modifies this
      ensures (View(), known, current) == CompleteSection(old(View()), l, g)
    {
      if closed || generation != g || monitor != Some(l) { return false, false; }
      starting := false;
      return knownValid, true;
    }

    method CommitMonitorStatus(l: LoopId, g: nat, unknown: bool)
      returns (r: Option<(map<ClientId, nat>, bool)>)
      modifies this
      ensures (View(), r) == CommitSection(old(View()), l, g, unknown)
    {
      if closed || generation != g || monitor != Some(l) { return None; }
      starting := false;
      var changed := statusUnknown != unknown;
      statusUnknown := unknown;
      return Some((clients, changed));
    }

    /** The section of finish under `mu`. */
    method Finish(l: LoopId)
      modifies this
      ensures View() == FinishSection(old(View()), l)
    {
      if monitor == Some(l) {
        monitor := None;
      }
    }
  }
}
