/**
 Whole runs of a room: its monitor loops, the goroutines that start live sessions and run them, and its
 clients. Every write to the fields of `Monitor.Fields` in `room.go`, `room_session.go`, `room_client.go` and
 `room_monitor.go` is the step of a goroutine at the place in its code where the write happens; a move chooses
 the goroutine, and what tickers, channels and the upstream do.
 */
module MonitorRuns {
  import opened Monitor
  import opened Options

  // ----- the other critical sections of the server

  predicate Stale(f: Fields, g: nat) {
    f.closed || f.generation != g
  }

  /** What is left in the slot by a section that stops the monitor of generation `g`. */
  function Unslotted(f: Fields, g: nat, heldGeneration: nat): Option<LoopId> {
    if heldGeneration == g then None else f.monitor
  }

  /** closeClientsForFailedGeneration: nothing, or a new generation without clients. */
  function FailSection(f: Fields, g: nat, heldGeneration: nat): Fields {
    if Stale(f, g) then f
    else f.(probe := None, starting := false, monitor := Unslotted(f, g, heldGeneration), generation := g + 1,
            clients := map[])
  }

  /** detachBackgroundWorkersIfIdle. */
  function DetachSection(f: Fields): Fields {
    if f.closed || f.clients != map[] || f.pending != 0 then f
    else f.(live := None, probe := None, monitor := None, starting := false, generation := f.generation + 1)
  }

  predicate Promotes(f: Fields, g: nat, d: LiveId) {
    !Stale(f, g) && f.probe == Some(d)
  }

  /** promoteProbeLive. */
  function PromoteSection(f: Fields, g: nat, d: LiveId, heldGeneration: nat): Fields {
    if !Promotes(f, g, d) then f
    else f.(probe := None, live := Some(d), statusUnknown := false, starting := false,
            monitor := Unslotted(f, g, heldGeneration))
  }

  /** transitionLiveSessionToMonitor. */
  function LiveSection(f: Fields, g: nat, d: LiveId, heldGeneration: nat, next: LoopId): (Fields, Transition) {
    if Stale(f, g) || f.live != Some(d) then (f, Refused)
    else EnterMonitor(f.(live := None, starting := false, statusUnknown := false), g, heldGeneration, next)
  }

  /** Whether AddClient starts a session for the client. */
  predicate JoinStarts(f: Fields) {
    !f.closed && f.live.None? && f.monitor.None? && !f.starting
  }

  function JoinSection(f: Fields, c: ClientId): Fields {
    var g := f.(pending := if f.pending > 0 then f.pending - 1 else 0);
    if f.closed then g else g.(clients := f.clients[c := f.generation], starting := f.starting || JoinStarts(f))
  }

  // ----- startLiveSession

  /** What startLiveSession returns. */
  datatype ProbeResult = Started | Inactive | NotFound | NotStarted | Unknown | Failed

  type Refusal = r: ProbeResult | !r.Started? witness Failed

  /** What follows commitProbeMetadataForGeneration. The first two commit that the room is valid. */
  datatype AfterStore = ToPromote | ToOffline | ToRecord(refusal: Refusal)

  /** Where a goroutine is in startLiveSession; `d` is the upstream instance it works with. */
  datatype SessionPc =
    | Acquire
    | Build
    | Create(d: LiveId)
    | Prepare(d: LiveId)
    | Confirm(d: LiveId)
    | Store(d: LiveId, after: AfterStore)
    | Record(d: LiveId, refusal: Refusal)
    | Discard(d: LiveId, refusal: Refusal)
    | Promote(d: LiveId)
    | Check(d: LiveId)
    | StartTask(d: LiveId)
    | Dispose(d: LiveId)
    | Return(result: ProbeResult)

  /** The next step, or what the outside world decides in it. */
  datatype Action =
    | Advance
    | Launch
    | SeeClosed
    | SeeStop
    | NotifyTick
    | PollTick
    | Built
    | BuildFailed
    | PrepareOk
    | PrepareOffline
    | PrepareNotFound
    | PrepareFailed(unknown: bool)
    | ConfirmOk
    | ConfirmOffline
    | ConfirmFailed(result: ProbeResult)
    | Forget(rotate: bool)
    | Ready
    | Over

  /** `built` tells that a new upstream instance was made, `live` which one a goroutine is started for. */
  datatype SessionEffect = SessionEffect(fields: Fields, pc: SessionPc, built: bool, live: Option<LiveId>)

  function Goto(f: Fields, pc: SessionPc): Option<SessionEffect> {
    Some(SessionEffect(f, pc, false, None))
  }

  /** recordProbeFailure and discardProbeLive. */
  function Forgotten(f: Fields, d: LiveId): Fields {
    if f.probe == Some(d) then f.(probe := None) else f
  }

  /** acquireProbeLive, PrepareWebSocketContext and confirmLiveSessionStatus. */
  function ActProbe(f: Fields, g: nat, pc: SessionPc, a: Action, next: LiveId): Option<SessionEffect> {
    match pc
    case Acquire =>
      if !a.Advance? then None
      else Goto(f, if Stale(f, g) then Return(Inactive) else if f.probe.Some? then Prepare(f.probe.value) else Build)
    case Build =>
      if a.Built? then Some(SessionEffect(f, Create(next), true, None))
      else if a.BuildFailed? then Goto(f, Return(Failed)) else None
    case Create(d) =>
      if !a.Advance? then None
      else if Stale(f, g) then Goto(f, Return(Inactive))
      else if f.probe.Some? then Goto(f, Prepare(f.probe.value))
      else Goto(f.(probe := Some(d)), Prepare(d))
    case Prepare(d) =>
      if a.PrepareOk? then Goto(f, Confirm(d))
      else if a.PrepareOffline? then Goto(f, Store(d, ToOffline))
      else if a.PrepareNotFound? then Goto(f, Discard(d, NotFound))
      else if a.PrepareFailed? then Goto(f, Record(d, if a.unknown then Unknown else Failed)) else None
    case Confirm(d) =>
      if a.ConfirmOk? then Goto(f, Store(d, ToPromote))
      else if a.ConfirmOffline? then Goto(f, Store(d, ToOffline))
      else if a.ConfirmFailed? && a.result in {NotFound, Unknown, Failed} then Goto(f, Store(d, ToRecord(a.result)))
      else None
    case _ => None
  }

  /** The sections that write what the probe found, and the adoption of the instance. */
  function ActAdopt(f: Fields, g: nat, pc: SessionPc, a: Action, heldGeneration: nat): Option<SessionEffect> {
    match pc
    case Store(d, after) =>
      if !a.Advance? then None
      else if Stale(f, g) || f.probe != Some(d) then Goto(f, Return(Inactive))
      else
        var valid := f.(knownValid := f.knownValid || !after.ToRecord?);
        Goto(valid, match after case ToPromote => Promote(d) case ToOffline => Return(NotStarted)
                    case ToRecord(result) => Record(d, result))
    case Record(d, result) => if a.Forget? then Goto(if a.rotate then Forgotten(f, d) else f, Return(result)) else None
    case Discard(d, result) => if a.Advance? then Goto(Forgotten(f, d), Return(result)) else None
    case Promote(d) =>
      if !a.Advance? then None
      else Goto(PromoteSection(f, g, d, heldGeneration), if Promotes(f, g, d) then Check(d) else Discard(d, Inactive))
    case Check(d) =>
      if !a.Advance? then None
      else Goto(f, if Stale(f, g) || f.live != Some(d) || f.clients == map[] then Dispose(d) else StartTask(d))
    case StartTask(d) =>
      if !a.Advance? then None
      else if Stale(f, g) then Goto(f, Dispose(d)) else Some(SessionEffect(f, Return(Started), false, Some(d)))
    case Dispose(d) =>
      if a.Advance? then Goto(if f.live == Some(d) then f.(live := None) else f, Return(Inactive)) else None
    case _ => None
  }

  predicate Probing(pc: SessionPc) {
    pc.Acquire? || pc.Build? || pc.Create? || pc.Prepare? || pc.Confirm?
  }

  function ActSession(f: Fields, g: nat, pc: SessionPc, a: Action, heldGeneration: nat, next: LiveId)
    : Option<SessionEffect>
  {
    if Probing(pc) then ActProbe(f, g, pc, a, next) else ActAdopt(f, g, pc, a, heldGeneration)
  }

  // ----- monitor loops

  /** Where the goroutine of a loop is: installed but not launched, in its select, in startLiveSession, about
      to evict the clients of a room that does not exist, and in the two halves of finish. */
  datatype LoopPc = Installed | Selecting | Session(session: SessionPc) | Evicting | Leaving | Closing | Done

  /** `stops` and `dones` count how often `stopCh` and `doneCh` have been closed. */
  datatype Loop = Loop(generation: nat, stops: nat, dones: nat, pc: LoopPc)

  /** One step of a loop's goroutine: also the clients it may now notify. */
  datatype LoopEffect =
    LoopEffect(fields: Fields, pc: LoopPc, notified: Option<map<ClientId, nat>>, built: bool, live: Option<LiveId>)

  function Go(f: Fields, pc: LoopPc): LoopEffect {
    LoopEffect(f, pc, None, false, None)
  }

  function Told(f: Fields, told: Option<(map<ClientId, nat>, bool)>): LoopEffect {
    if told.None? then Go(f, Leaving)
    else LoopEffect(f, Selecting, if told.value.1 then Some(told.value.0) else None, false, None)
  }

  /** What the loop does with the result of startLiveSession. */
  function AfterProbe(f: Fields, l: LoopId, g: nat, result: ProbeResult): LoopEffect {
    match result
    case Started => Go(f, Leaving)
    case Inactive => Go(CompleteSection(f, l, g).0, Leaving)
    case NotFound =>
      var (f', known, current) := CompleteSection(f, l, g);
      Go(f', if !current then Leaving else if known then Selecting else Evicting)
    case NotStarted => (var (f', told) := CommitSection(f, l, g, false); Told(f', told))
    case Unknown => (var (f', told) := CommitSection(f, l, g, true); Told(f', told))
    case Failed =>
      var (f', _, current) := CompleteSection(f, l, g);
      Go(f', if current then Selecting else Leaving)
  }

  function ActSelect(f: Fields, l: LoopId, loop: Loop, a: Action): Option<LoopEffect> {
    match a
    case SeeClosed => if f.closed then Some(Go(f, Leaving)) else None
    case SeeStop => if loop.stops > 0 then Some(Go(f, Leaving)) else None
    case NotifyTick =>
      var r := SnapshotSection(f, l, loop.generation);
      Some(if r.None? || r.value.0 == map[] then Go(f, Leaving)
           else LoopEffect(f, Selecting, Some(r.value.0), false, None))
    case PollTick =>
      var (f', start, keepRunning) := BeginSection(f, l, loop.generation);
      Some(Go(f', if !keepRunning then Leaving else if start then Session(Acquire) else Selecting))
    case _ => None
  }

  function ActLoop(f: Fields, l: LoopId, loop: Loop, a: Action, heldGeneration: nat, next: LiveId): Option<LoopEffect> {
    var g := loop.generation;
    match loop.pc
    case Installed => if a.Launch? then Some(Go(f, if Stale(f, g) then Leaving else Selecting)) else None
    case Selecting => ActSelect(f, l, loop, a)
    case Session(Return(result)) => if a.Advance? then Some(AfterProbe(f, l, g, result)) else None
    case Session(pc) =>
      (match ActSession(f, g, pc, a, heldGeneration, next)
       case None => None
       case Some(e) => Some(LoopEffect(e.fields, Session(e.pc), None, e.built, e.live)))
    case Evicting => if a.Advance? then Some(Go(FailSection(f, g, heldGeneration), Leaving)) else None
    case Leaving => if a.Advance? then Some(Go(FinishSection(f, l), Closing)) else None
    case Closing => if a.Advance? then Some(Go(f, Done)) else None
    case Done => None
  }

  // ----- the goroutines of AddClient and of live sessions

  /** Begin to Detaching: initializeLiveSession, started for client `c`, and handleLiveSessionStartResult. The
      Live steps: runLiveSession with upstream instance `d`. */
  datatype TaskPc =
    | Begin(c: ClientId)
    | Starting(session: SessionPc)
    | Counting
    | Detaching
    | LiveBegun(d: LiveId)
    | LiveRunning(d: LiveId)
    | LiveConnected(d: LiveId)
    | LiveOver(d: LiveId)
    | Ended

  datatype Task = Task(generation: nat, pc: TaskPc)

  /** `installed` tells that a monitor loop was installed. */
  datatype TaskEffect =
    TaskEffect(fields: Fields, pc: TaskPc, installed: bool, built: bool, live: Option<LiveId>)

  function Do(f: Fields, pc: TaskPc): Option<TaskEffect> {
    Some(TaskEffect(f, pc, false, false, None))
  }

  function Entered(r: (Fields, Transition)): Option<TaskEffect> {
    Some(TaskEffect(r.0, if r.1.NoClients? then Detaching else Ended, r.1.Use? && r.1.installed, false, None))
  }

  /** handleLiveSessionStartResult. */
  function ActResult(f: Fields, g: nat, result: ProbeResult, heldGeneration: nat, next: LoopId): Option<TaskEffect> {
    match result
    case Started => Do(if Stale(f, g) then f else f.(starting := false), Ended)
    case Inactive => if Stale(f, g) then Do(f, Ended) else Do(f.(starting := false), Counting)
    case NotFound => Do(FailSection(f, g, heldGeneration), Ended)
    case Failed => Do(FailSection(f, g, heldGeneration), Ended)
    case NotStarted => Entered(TransitionSection(f, g, false, heldGeneration, next))
    case Unknown => Entered(TransitionSection(f, g, true, heldGeneration, next))
  }

  function ActStart(f: Fields, g: nat, pc: TaskPc, a: Action, heldGeneration: nat, next: LoopId, nextLive: LiveId)
    : Option<TaskEffect>
  {
    match pc
    case Begin(c) =>
      if !a.Advance? then None
      else if f.closed then Do(f.(clients := f.clients - {c}), Ended) else Do(f, Starting(Acquire))
    case Starting(Return(result)) => if a.Advance? then ActResult(f, g, result, heldGeneration, next) else None
    case Starting(session) =>
      (match ActSession(f, g, session, a, heldGeneration, nextLive)
       case None => None
       case Some(e) => Some(TaskEffect(e.fields, Starting(e.pc), false, e.built, e.live)))
    case _ => None
  }

  function ActLive(f: Fields, g: nat, pc: TaskPc, a: Action, heldGeneration: nat, next: LoopId): Option<TaskEffect> {
    match pc
    case Counting => if a.Advance? then Do(f, if f.clients == map[] then Detaching else Ended) else None
    case Detaching => if a.Advance? then Do(DetachSection(f), Ended) else None
    case LiveBegun(d) => if a.Advance? then Do(f, if Stale(f, g) then Ended else LiveRunning(d)) else None
    case LiveRunning(d) =>
      if a.Ready? then
        Do(if Stale(f, g) || f.live != Some(d) then f else f.(statusUnknown := false), LiveConnected(d))
      else if a.Over? then Do(f, LiveOver(d)) else None
    case LiveConnected(d) => if a.Over? then Do(f, LiveOver(d)) else None
    case LiveOver(d) => if a.Advance? then Entered(LiveSection(f, g, d, heldGeneration, next)) else None
    case _ => None
  }

  function ActTask(f: Fields, task: Task, a: Action, heldGeneration: nat, next: LoopId, nextLive: LiveId)
    : Option<TaskEffect>
  {
    if task.pc.Begin? || task.pc.Starting? then ActStart(f, task.generation, task.pc, a, heldGeneration, next, nextLive)
    else ActLive(f, task.generation, task.pc, a, heldGeneration, next)
  }

  // ----- all goroutines together

  /** `born` remembers for each upstream instance the generation of the goroutine that built it. */
  datatype State = State(fields: Fields, loops: seq<Loop>, tasks: seq<Task>, born: seq<nat>)

  /** Besides the goroutines: clients that come and go, Close with its parts, and the idle checks that any
      goroutine may run at its end. */
  datatype Move =
    | LoopMove(loop: LoopId, action: Action)
    | TaskMove(task: nat, action: Action)
    | Join(client: ClientId)
    | Leave(client: ClientId)
    | Reserve
    | ReleaseReservation
    | IdleDetach
    | RemoveIfIdle
    | Close
    | StopMonitor
    | ClearClients

  function HeldGeneration(s: State): nat {
    if s.fields.monitor.Some? && s.fields.monitor.value < |s.loops| then s.loops[s.fields.monitor.value].generation
    else 0
  }

  function LoopEffectOf(s: State, l: LoopId, a: Action): Option<LoopEffect>
    requires l < |s.loops|
  {
    ActLoop(s.fields, l, s.loops[l], a, HeldGeneration(s), |s.born|)
  }

  function TaskEffectOf(s: State, t: nat, a: Action): Option<TaskEffect>
    requires t < |s.tasks|
  {
    ActTask(s.fields, s.tasks[t], a, HeldGeneration(s), |s.loops|, |s.born|)
  }

  predicate Enabled(s: State, m: Move) {
    match m
    case LoopMove(l, a) => l < |s.loops| && LoopEffectOf(s, l, a).Some?
    case TaskMove(t, a) => t < |s.tasks| && TaskEffectOf(s, t, a).Some?
    case Join(c) => c !in s.fields.clients
    case ClearClients => s.fields.closed
    case StopMonitor => s.fields.closed
    case _ => true
  }

  /** `stop` of the loop in the slot, guarded by its `stopOnce`. */
  function Stopped(f: Fields, loops: seq<Loop>): seq<Loop> {
    if f.monitor.Some? && f.monitor.value < |loops| && loops[f.monitor.value].stops == 0
    then loops[f.monitor.value := loops[f.monitor.value].(stops := 1)] else loops
  }

  /** Every section that empties the slot, except that of finish, stops the loop that was in it. */
  function LoopsAfter(s: State, f: Fields): seq<Loop> {
    if f.monitor.None? then Stopped(s.fields, s.loops) else s.loops
  }

  function MovedLoop(loop: Loop, pc: LoopPc): Loop {
    loop.(pc := pc, dones := if pc.Done? then loop.dones + 1 else loop.dones)
  }

  /** The goroutine of a new live session. */
  function Spawned(g: nat, live: Option<LiveId>): seq<Task> {
    if live.Some? then [Task(g, LiveBegun(live.value))] else []
  }

  function Born(g: nat, built: bool): seq<nat> {
    if built then [g] else []
  }

  function LoopStep(s: State, l: LoopId, e: LoopEffect): State
    requires l < |s.loops|
  {
    var loops := if s.loops[l].pc.Leaving? then s.loops else LoopsAfter(s, e.fields);
    State(e.fields, loops[l := MovedLoop(loops[l], e.pc)], s.tasks + Spawned(s.loops[l].generation, e.live),
          s.born + Born(s.loops[l].generation, e.built))
  }

  function TaskStep(s: State, t: nat, e: TaskEffect): State
    requires t < |s.tasks|
  {
    var g := s.tasks[t].generation;
    State(e.fields, LoopsAfter(s, e.fields) + (if e.installed then [Loop(g, 0, 0, Installed)] else []),
          s.tasks[t := Task(g, e.pc)] + Spawned(g, e.live), s.born + Born(g, e.built))
  }

  function RoomStep(s: State, m: Move): State
    requires !m.LoopMove? && !m.TaskMove?
  {
    var f := s.fields;
    match m
    case Join(c) =>
      s.(fields := JoinSection(f, c), tasks := s.tasks + (if JoinStarts(f) then [Task(f.generation, Begin(c))] else []))
    case Leave(c) => s.(fields := f.(clients := f.clients - {c}))
    case Reserve => if f.closed then s else s.(fields := f.(pending := f.pending + 1))
    case ReleaseReservation => s.(fields := f.(pending := if f.pending > 0 then f.pending - 1 else 0))
    case IdleDetach => s.(fields := DetachSection(f), loops := LoopsAfter(s, DetachSection(f)))
    case RemoveIfIdle =>
      if f.clients == map[] && f.pending == 0 && f.live.None? && f.probe.None? && f.monitor.None? && !f.starting
      then s.(fields := f.(closed := true)) else s
    case Close => if f.closed then s else s.(fields := f.(closed := true, live := None, probe := None))
    case StopMonitor => s.(loops := Stopped(f, s.loops))
    case ClearClients => s.(fields := f.(clients := map[]))
  }

  function Step(s: State, m: Move): State
    requires Enabled(s, m)
  {
    match m
    case LoopMove(l, a) => LoopStep(s, l, LoopEffectOf(s, l, a).value)
    case TaskMove(t, a) => TaskStep(s, t, TaskEffectOf(s, t, a).value)
    case _ => RoomStep(s, m)
  }

  const INITIAL := State(FRESH, [], [], [])

  /** The state after a run, if every move of it was possible. */
  function Run(s: State, moves: seq<Move>): Option<State> {
    if moves == [] then Some(s)
    else
      match Run(s, moves[..|moves| - 1])
      case None => None
      case Some(u) =>
        var m := moves[|moves| - 1];
        if Enabled(u, m) then Some(Step(u, m)) else None
  }
}
