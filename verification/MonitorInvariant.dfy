/**
 What every step of `MonitorRuns` keeps: the slot holds a loop of the present generation, every channel is
 closed once, until the room is known to be valid one goroutine at a time attempts to start it, and a
 goroutine works with upstream instances built for its own generation.
 */
module MonitorInvariant {
  import opened Monitor
  import opened MonitorRuns
  import opened Options

  // ----- the slot

  /** The loop in the slot belongs to the current generation and has not begun to finish. */
  predicate SlotCurrent(f: Fields, loops: seq<Loop>) {
    f.monitor.Some? ==>
      && f.monitor.value < |loops|
      && loops[f.monitor.value].generation == f.generation && loops[f.monitor.value].pc !in {Closing, Done}
  }

  /** Each channel is closed at most once, and `doneCh` exactly by the last step of the loop. */
  predicate ChannelsOnce(loop: Loop) {
    loop.stops <= 1 && loop.dones == (if loop.pc.Done? then 1 else 0)
  }

  /** A loop that has lost its slot is stopped, or is already finishing. */
  predicate NotOrphaned(f: Fields, l: LoopId, loop: Loop) {
    f.monitor == Some(l) || loop.stops == 1 || loop.pc in {Closing, Done}
  }

  ghost predicate Inv(f: Fields, loops: seq<Loop>) {
    && SlotCurrent(f, loops)
    && (forall l :: 0 <= l < |loops| ==> ChannelsOnce(loops[l]) && NotOrphaned(f, l, loops[l]))
    && (forall c :: c in f.clients ==> f.clients[c] == f.generation)
  }

  /** What a section may do to slot, generation and clients: leave them, empty the slot, or install a new
      loop, numbered `next`, in an empty one. */
  ghost predicate Lawful(f: Fields, f': Fields, installed: bool, next: LoopId) {
    && (if installed then f.monitor.None? && f'.monitor == Some(next) && f'.generation == f.generation
        else f'.monitor in {f.monitor, None} && (f'.monitor.Some? ==> f'.generation == f.generation))
    && (forall c :: c in f'.clients ==> f'.clients[c] == f'.generation)
    && f.generation <= f'.generation && (f.closed ==> f'.closed) && (f.knownValid ==> f'.knownValid)
  }

  predicate Joined(f: Fields) {
    forall c :: c in f.clients ==> f.clients[c] == f.generation
  }

  /** The generation of the loop in the slot, as the sections see it. */
  predicate HeldIs(f: Fields, heldGeneration: nat) {
    f.monitor.Some? ==> heldGeneration == f.generation
  }

  lemma ProbeLawful(f: Fields, g: nat, pc: SessionPc, a: Action, next: LiveId)
    requires Joined(f) && ActProbe(f, g, pc, a, next).Some?
    ensures Lawful(f, ActProbe(f, g, pc, a, next).value.fields, false, 0)
  {
  }

  lemma AdoptLawful(f: Fields, g: nat, pc: SessionPc, a: Action, held: nat)
    requires Joined(f) && ActAdopt(f, g, pc, a, held).Some?
    ensures Lawful(f, ActAdopt(f, g, pc, a, held).value.fields, false, 0)
  {
  }

  lemma SessionLawful(f: Fields, g: nat, pc: SessionPc, a: Action, held: nat, next: LiveId)
    requires Joined(f) && ActSession(f, g, pc, a, held, next).Some?
    ensures Lawful(f, ActSession(f, g, pc, a, held, next).value.fields, false, 0)
  {
    hide ActProbe, ActAdopt, Lawful;
    if Probing(pc) {
      ProbeLawful(f, g, pc, a, next);
    } else {
      AdoptLawful(f, g, pc, a, held);
    }
  }

  lemma AfterProbeLawful(f: Fields, l: LoopId, g: nat, result: ProbeResult)
    requires Joined(f)
    ensures var e := AfterProbe(f, l, g, result);
            && Lawful(f, e.fields, false, 0) && e.fields.monitor == f.monitor && e.fields.closed == f.closed
            && e.pc in {Selecting, Evicting, Leaving}
  {
  }

  lemma FailLawful(f: Fields, g: nat, held: nat)
    requires Joined(f) && HeldIs(f, held)
    ensures Lawful(f, FailSection(f, g, held), false, 0)
  {
  }

  /** How a step moves a loop: it reaches Closing from Leaving and Done from Closing only. */
  predicate PcMoves(pc: LoopPc, pc': LoopPc) {
    && !pc.Done? && (pc.Closing? <==> pc'.Done?) && (pc.Leaving? <==> pc'.Closing?)
  }

  lemma SelectLawful(f: Fields, l: LoopId, loop: Loop, a: Action)
    requires Joined(f) && ActSelect(f, l, loop, a).Some?
    ensures var e := ActSelect(f, l, loop, a).value;
            Lawful(f, e.fields, false, 0) && e.pc !in {Closing, Done} && e.fields.monitor == f.monitor
  {
  }

  lemma LoopLawful(f: Fields, l: LoopId, loop: Loop, a: Action, held: nat, next: LiveId)
    requires Joined(f) && HeldIs(f, held) && ActLoop(f, l, loop, a, held, next).Some?
    ensures var e := ActLoop(f, l, loop, a, held, next).value;
            && Lawful(f, e.fields, false, 0) && PcMoves(loop.pc, e.pc)
            && (loop.pc.Leaving? ==> e.fields == FinishSection(f, l))
  {
    hide Lawful, ActSession, AfterProbe, FailSection, ActSelect;
    match loop.pc {
      case Selecting => SelectLawful(f, l, loop, a);
      case Session(Return(result)) => AfterProbeLawful(f, l, loop.generation, result);
      case Session(pc) => SessionLawful(f, loop.generation, pc, a, held, next);
      case Evicting => FailLawful(f, loop.generation, held);
      case Leaving => FinishLawful(f, l);
      case _ => SameLawful(f);
    }
  }

  lemma FinishLawful(f: Fields, l: LoopId)
    requires Joined(f)
    ensures Lawful(f, FinishSection(f, l), false, 0)
  {
  }

  lemma SameLawful(f: Fields)
    requires Joined(f)
    ensures Lawful(f, f, false, 0)
  {
  }

  lemma EnterLawful(f: Fields, f0: Fields, g: nat, held: nat, next: LoopId)
    requires Joined(f) && HeldIs(f, held) && !Stale(f, g)
    requires f0.monitor == f.monitor && f0.generation == f.generation && f0.clients == f.clients
      && f0.closed == f.closed
    requires f0.knownValid == f.knownValid
    ensures var r := EnterMonitor(f0, g, held, next);
            Lawful(f, r.0, r.1.Use? && r.1.installed, next) && r.0.(monitor := f.monitor) == f0
  {
  }

  lemma ResultLawful(f: Fields, g: nat, result: ProbeResult, held: nat, next: LoopId)
    requires Joined(f) && HeldIs(f, held)
    ensures var e := ActResult(f, g, result, held, next).value; Lawful(f, e.fields, e.installed, next)
  {
    hide EnterMonitor, FailSection;
    FailLawful(f, g, held);
    SameLawful(f);
    if !Stale(f, g) {
      EnterLawful(f, f.(starting := false, statusUnknown := result.Unknown?), g, held, next);
    }
  }

  lemma StartLawful(f: Fields, g: nat, pc: TaskPc, a: Action, held: nat, next: LoopId, nextLive: LiveId)
    requires Joined(f) && HeldIs(f, held) && ActStart(f, g, pc, a, held, next, nextLive).Some?
    ensures var e := ActStart(f, g, pc, a, held, next, nextLive).value; Lawful(f, e.fields, e.installed, next)
  {
    hide ActResult, ActSession;
    match pc {
      case Starting(Return(result)) => ResultLawful(f, g, result, held, next);
      case Starting(session) => SessionLawful(f, g, session, a, held, nextLive);
      case _ =>
    }
  }

  lemma DetachLawful(f: Fields)
    requires Joined(f)
    ensures Lawful(f, DetachSection(f), false, 0)
  {
  }

  lemma LiveLawful(f: Fields, g: nat, pc: TaskPc, a: Action, held: nat, next: LoopId)
    requires Joined(f) && HeldIs(f, held) && ActLive(f, g, pc, a, held, next).Some?
    ensures var e := ActLive(f, g, pc, a, held, next).value; Lawful(f, e.fields, e.installed, next)
  {
    hide EnterMonitor, DetachSection;
    match pc {
      case Detaching => DetachLawful(f);
      case LiveOver(d) =>
        if !Stale(f, g) {
          EnterLawful(f, f.(live := None, starting := false, statusUnknown := false), g, held, next);
        }
      case _ =>
    }
  }

  lemma TaskLawful(f: Fields, task: Task, a: Action, held: nat, next: LoopId, nextLive: LiveId)
    requires Joined(f) && HeldIs(f, held) && ActTask(f, task, a, held, next, nextLive).Some?
    ensures var e := ActTask(f, task, a, held, next, nextLive).value; Lawful(f, e.fields, e.installed, next)
  {
    hide ActStart, ActLive, Lawful;
    if task.pc.Begin? || task.pc.Starting? {
      StartLawful(f, task.generation, task.pc, a, held, next, nextLive);
    } else {
      LiveLawful(f, task.generation, task.pc, a, held, next);
    }
  }

  // ----- lawful sections keep the invariant

  lemma StopKeepsLoops(s: State, f: Fields)
    requires Inv(s.fields, s.loops) && f.monitor in {s.fields.monitor, None}
    ensures var loops := LoopsAfter(s, f);
            && |loops| == |s.loops|
            && forall l :: 0 <= l < |s.loops| ==>
                 && loops[l].generation == s.loops[l].generation && loops[l].pc == s.loops[l].pc
                 && ChannelsOnce(loops[l]) && NotOrphaned(f, l, loops[l])
  {
  }

  lemma LawfulKeepsInv(s: State, f: Fields)
    requires Inv(s.fields, s.loops) && Lawful(s.fields, f, false, 0)
    ensures Inv(f, LoopsAfter(s, f))
  {
    StopKeepsLoops(s, f);
    hide LoopsAfter, ChannelsOnce, NotOrphaned;
  }

  lemma InstallKeepsInv(s: State, f: Fields)
    requires Inv(s.fields, s.loops) && Lawful(s.fields, f, true, |s.loops|)
    ensures Inv(f, s.loops + [Loop(f.generation, 0, 0, Installed)])
  {
    var loops := s.loops + [Loop(f.generation, 0, 0, Installed)];
    forall l | 0 <= l < |loops| ensures ChannelsOnce(loops[l]) && NotOrphaned(f, l, loops[l]) {
      if l < |s.loops| {
        assert ChannelsOnce(s.loops[l]) && NotOrphaned(s.fields, l, s.loops[l]);
      }
    }
  }

  lemma MovingKeepsInv(f: Fields, loops: seq<Loop>, l: LoopId, pc: LoopPc)
    requires Inv(f, loops) && l < |loops| && PcMoves(loops[l].pc, pc)
      && (f.monitor == Some(l) ==> pc !in {Closing, Done})
    ensures Inv(f, loops[l := MovedLoop(loops[l], pc)])
  {
    var moved := loops[l := MovedLoop(loops[l], pc)];
    forall k | 0 <= k < |moved| ensures ChannelsOnce(moved[k]) && NotOrphaned(f, k, moved[k]) {
      assert ChannelsOnce(loops[k]) && NotOrphaned(f, k, loops[k]);
    }
  }

  lemma LeavingKeepsInv(f: Fields, loops: seq<Loop>, l: LoopId)
    requires Inv(f, loops) && l < |loops| && loops[l].pc.Leaving?
    ensures Inv(FinishSection(f, l), loops[l := MovedLoop(loops[l], Closing)])
  {
    var moved, f' := loops[l := MovedLoop(loops[l], Closing)], FinishSection(f, l);
    forall k | 0 <= k < |moved| ensures ChannelsOnce(moved[k]) && NotOrphaned(f', k, moved[k]) {
      assert ChannelsOnce(loops[k]) && NotOrphaned(f, k, loops[k]);
    }
  }

  lemma LoopMoveKeepsInv(s: State, l: LoopId, a: Action)
    requires Inv(s.fields, s.loops) && Enabled(s, LoopMove(l, a))
    ensures var u := Step(s, LoopMove(l, a)); Inv(u.fields, u.loops)
  {
    hide ActLoop, LoopsAfter, MovedLoop, ChannelsOnce, NotOrphaned, FinishSection, Lawful;
    var e := LoopEffectOf(s, l, a).value;
    LoopLawful(s.fields, l, s.loops[l], a, HeldGeneration(s), |s.born|);
    if s.loops[l].pc.Leaving? {
      LeavingKeepsInv(s.fields, s.loops, l);
    } else {
      LawfulKeepsInv(s, e.fields);
      LawfulSlot(s.fields, e.fields);
      StopKeepsLoops(s, e.fields);
      MovingKeepsInv(e.fields, LoopsAfter(s, e.fields), l, e.pc);
    }
  }

  lemma LawfulSlot(f: Fields, f': Fields)
    requires Lawful(f, f', false, 0)
    ensures f'.monitor in {f.monitor, None}
  {
  }

  lemma TaskMoveKeepsInv(s: State, t: nat, a: Action)
    requires Inv(s.fields, s.loops) && Enabled(s, TaskMove(t, a))
    ensures var u := Step(s, TaskMove(t, a)); Inv(u.fields, u.loops)
  {
    hide ActTask, Stopped, ChannelsOnce, NotOrphaned;
    var e := TaskEffectOf(s, t, a).value;
    TaskLawful(s.fields, s.tasks[t], a, HeldGeneration(s), |s.loops|, |s.born|);
    if e.installed {
      InstalledForOwn(s.fields, s.tasks[t], a, HeldGeneration(s), |s.loops|, |s.born|);
      InstallKeepsInv(s, e.fields);
    } else {
      LawfulKeepsInv(s, e.fields);
      assert LoopsAfter(s, e.fields) + [] == LoopsAfter(s, e.fields);
    }
  }

  /** A goroutine installs loops of its own generation, which is the room's. */
  lemma InstalledForOwn(f: Fields, task: Task, a: Action, held: nat, next: LoopId, nextLive: LiveId)
    requires ActTask(f, task, a, held, next, nextLive).Some?
      && ActTask(f, task, a, held, next, nextLive).value.installed
    ensures task.generation == f.generation
  {
    hide ActSession, FailSection, DetachSection;
    match task.pc {
      case Starting(Return(result)) =>
      case Starting(session) =>
      case LiveOver(d) =>
      case _ =>
    }
  }

  lemma RoomMoveKeepsInv(s: State, m: Move)
    requires Inv(s.fields, s.loops) && Enabled(s, m) && !m.LoopMove? && !m.TaskMove?
    ensures var u := Step(s, m); Inv(u.fields, u.loops)
  {
    var u := Step(s, m);
    match m {
      case IdleDetach =>
        DetachLawful(s.fields);
        LawfulKeepsInv(s, DetachSection(s.fields));
      case StopMonitor =>
      case _ => QuietKeepsInv(s.fields, u.fields, s.loops);
    }
  }

  /** Sections that touch neither the slot nor the generation. */
  lemma QuietKeepsInv(f: Fields, f': Fields, loops: seq<Loop>)
    requires Inv(f, loops) && f'.monitor == f.monitor && f'.generation == f.generation && Joined(f')
    ensures Inv(f', loops)
  {
    forall l | 0 <= l < |loops| ensures NotOrphaned(f', l, loops[l]) {
      assert NotOrphaned(f, l, loops[l]);
    }
  }

  lemma StepKeepsInv(s: State, m: Move)
    requires Inv(s.fields, s.loops) && Enabled(s, m)
    ensures var u := Step(s, m); Inv(u.fields, u.loops)
  {
    hide Inv, Step, Enabled;
    match m {
      case LoopMove(l, a) => LoopMoveKeepsInv(s, l, a);
      case TaskMove(t, a) => TaskMoveKeepsInv(s, t, a);
      case _ => RoomMoveKeepsInv(s, m);
    }
  }

  // ----- until the room is known to be valid, one goroutine at a time attempts to start it

  /** The steps of startLiveSession that only a room known to be valid is taken through. */
  predicate Past(pc: SessionPc) {
    pc.Promote? || pc.Check? || pc.StartTask? || pc.Dispose? || pc == Return(Started)
  }

  predicate TaskAttempts(f: Fields, task: Task) {
    task.generation == f.generation && (task.pc.Begin? || task.pc.Starting?)
  }

  predicate LoopAttempts(f: Fields, loop: Loop) {
    loop.generation == f.generation && (loop.pc.Session? || loop.pc.Evicting?)
  }

  predicate Unsure(f: Fields) {
    !f.closed && !f.knownValid
  }

  predicate TaskFits(f: Fields, task: Task) {
    && task.generation <= f.generation
    && (task.generation == f.generation && task.pc.Starting? && Past(task.pc.session) ==> f.knownValid)
    && (Unsure(f) && TaskAttempts(f, task) ==> f.starting && f.monitor.None?)
  }

  predicate LoopFits(f: Fields, l: LoopId, loop: Loop) {
    && loop.generation <= f.generation
    && (loop.generation == f.generation && loop.pc.Session? && Past(loop.pc.session) ==> f.knownValid)
    && (Unsure(f) && LoopAttempts(f, loop) ==> f.monitor == Some(l) && (loop.pc.Session? ==> f.starting))
    && (!f.closed && f.knownValid ==> !(loop.generation == f.generation && loop.pc.Evicting?))
  }

  predicate LiveIsKnown(f: Fields) {
    f.live.Some? ==> f.knownValid
  }

  predicate OneAttempt(f: Fields, tasks: seq<Task>) {
    forall t, u ::
      0 <= t < |tasks| && 0 <= u < |tasks| && TaskAttempts(f, tasks[t]) && TaskAttempts(f, tasks[u]) ==> t == u
  }

  ghost predicate Sole(f: Fields, loops: seq<Loop>, tasks: seq<Task>) {
    && LiveIsKnown(f)
    && (forall l :: 0 <= l < |loops| ==> LoopFits(f, l, loops[l]))
    && (forall t :: 0 <= t < |tasks| ==> TaskFits(f, tasks[t]))
    && (Unsure(f) ==> OneAttempt(f, tasks))
  }

  /** What a goroutine that is not attempting leaves to one that is, unless the generation ends. */
  predicate Spares(f: Fields, f': Fields, own: Option<LoopId>) {
    && f'.generation >= f.generation && (f.closed ==> f'.closed) && (f.knownValid ==> f'.knownValid)
    && (Unsure(f) && f'.generation == f.generation ==>
          && !f'.knownValid && (f.starting ==> f'.starting)
          && (f'.monitor == f.monitor || (own.Some? && f.monitor == own)))
  }

  /** Also for a goroutine that is attempting. */
  predicate Grows(f: Fields, f': Fields) {
    f'.generation >= f.generation && (f.closed ==> f'.closed) && (f.knownValid ==> f'.knownValid)
  }

  lemma SessionFits(f: Fields, g: nat, pc: SessionPc, a: Action, held: nat, next: LiveId)
    requires ActSession(f, g, pc, a, held, next).Some? && LiveIsKnown(f)
    requires f.generation == g && Past(pc) ==> f.knownValid
    ensures var e := ActSession(f, g, pc, a, held, next).value;
            && LiveIsKnown(e.fields) && e.fields.generation == f.generation && e.fields.closed == f.closed
            && (f.generation == g && Past(e.pc) ==> e.fields.knownValid)
            && (f.generation == g && Unsure(f) && !e.fields.knownValid ==>
                  e.fields.starting == f.starting && e.fields.monitor == f.monitor)
            && (f.knownValid ==> e.fields.knownValid)
            && (f.generation != g ==>
                  e.fields.starting == f.starting && e.fields.monitor == f.monitor
                    && e.fields.knownValid == f.knownValid)
  {
    hide Unslotted;
    if Probing(pc) {
      hide ActAdopt;
    } else {
      hide ActProbe;
      match pc {
        case Store(d, after) =>
        case Promote(d) =>
        case _ =>
      }
    }
  }

  lemma AfterProbeFits(f: Fields, l: LoopId, g: nat, result: ProbeResult)
    requires LiveIsKnown(f) && (f.generation == g && Unsure(f) ==> f.monitor == Some(l))
    ensures var e := AfterProbe(f, l, g, result);
            && LiveIsKnown(e.fields) && e.fields.generation == f.generation && e.fields.closed == f.closed
            && e.fields.monitor == f.monitor && e.fields.knownValid == f.knownValid
              && e.pc in {Selecting, Evicting, Leaving}
            && (e.pc.Evicting? ==> f.closed || f.generation != g || !f.knownValid)
            && (f.generation != g ==> e.fields == f)
  {
  }

  lemma SelectFits(f: Fields, l: LoopId, loop: Loop, a: Action)
    requires LiveIsKnown(f) && ActSelect(f, l, loop, a).Some?
    ensures var e := ActSelect(f, l, loop, a).value;
            && e.fields.(starting := false) == f.(starting := false) && (f.starting ==> e.fields.starting)
            && e.pc in {Selecting, Leaving, Session(Acquire)}
            && (e.pc == Session(Acquire) ==> Current(f, l, loop.generation) && !f.starting && e.fields.starting)
  {
  }

  lemma LoopSole(f: Fields, l: LoopId, loop: Loop, a: Action, held: nat, next: LiveId)
    requires LiveIsKnown(f) && LoopFits(f, l, loop) && HeldIs(f, held) && ActLoop(f, l, loop, a, held, next).Some?
    ensures var e := ActLoop(f, l, loop, a, held, next).value;
            && LiveIsKnown(e.fields) && Grows(f, e.fields) && LoopFits(e.fields, l, loop.(pc := e.pc))
            && (!LoopAttempts(f, loop) ==> Spares(f, e.fields, Some(l)))
  {
    hide ActSession, AfterProbe, ActSelect, Past;
    NotPast();
    match loop.pc {
      case Selecting => SelectFits(f, l, loop, a);
      case Session(Return(result)) => AfterProbeFits(f, l, loop.generation, result);
      case Session(pc) => SessionFits(f, loop.generation, pc, a, held, next);
      case _ =>
    }
  }

  lemma NotPast()
    ensures !Past(Acquire)
  {
  }

  lemma ResultFits(f: Fields, g: nat, result: ProbeResult, held: nat, next: LoopId)
    requires LiveIsKnown(f) && (f.generation == g && result.Started? ==> f.knownValid)
    ensures var e := ActResult(f, g, result, held, next).value;
            && LiveIsKnown(e.fields) && e.fields.generation >= f.generation && e.fields.closed == f.closed
            && e.fields.knownValid == f.knownValid && !e.pc.Begin? && !e.pc.Starting?
            && (f.generation != g ==> e.fields == f)
  {
  }

  lemma StartSole(f: Fields, task: Task, a: Action, held: nat, next: LoopId, nextLive: LiveId)
    requires LiveIsKnown(f) && TaskFits(f, task) && (task.pc.Begin? || task.pc.Starting?)
    requires ActTask(f, task, a, held, next, nextLive).Some?
    ensures var e := ActTask(f, task, a, held, next, nextLive).value;
            && LiveIsKnown(e.fields) && Grows(f, e.fields) && TaskFits(e.fields, task.(pc := e.pc))
            && (!TaskAttempts(f, task) ==> Spares(f, e.fields, None))
  {
    hide ActSession, ActResult, ActLive, Past;
    NotPast();
    match task.pc {
      case Starting(Return(result)) =>
        ReturnPast(result);
        ResultFits(f, task.generation, result, held, next);
      case Starting(session) => SessionFits(f, task.generation, session, a, held, nextLive);
      case _ =>
    }
  }

  lemma ReturnPast(result: ProbeResult)
    ensures Past(Return(result)) <==> result.Started?
  {
  }

  lemma LiveSole(f: Fields, task: Task, a: Action, held: nat, next: LoopId, nextLive: LiveId)
    requires LiveIsKnown(f) && TaskFits(f, task) && !task.pc.Begin? && !task.pc.Starting?
    requires ActTask(f, task, a, held, next, nextLive).Some?
    ensures var e := ActTask(f, task, a, held, next, nextLive).value;
            && LiveIsKnown(e.fields) && Spares(f, e.fields, None) && TaskFits(e.fields, task.(pc := e.pc))
            && !e.pc.Begin? && !e.pc.Starting?
  {
    hide ActStart, InstallSection;
    match task.pc {
      case LiveOver(d) =>
      case Detaching =>
      case _ =>
    }
  }

  /** Another loop, when the goroutine that moves is sparing, or was itself the one that attempts. */
  lemma LoopBeside(f: Fields, f': Fields, own: Option<LoopId>, k: LoopId, loop: Loop)
    requires LoopFits(f, k, loop) && Grows(f, f') && own != Some(k)
    requires Spares(f, f', own) || !Unsure(f) || f.monitor == own
    ensures LoopFits(f', k, loop)
  {
    hide Past;
  }

  lemma TaskBeside(f: Fields, f': Fields, own: Option<LoopId>, task: Task)
    requires TaskFits(f, task) && Grows(f, f')
    requires Spares(f, f', own) || !Unsure(f) || !TaskAttempts(f, task)
    ensures TaskFits(f', task) && (Unsure(f') && TaskAttempts(f', task) ==> Unsure(f) && TaskAttempts(f, task))
  {
    hide Past;
  }

  lemma SparesGrows(f: Fields, f': Fields, own: Option<LoopId>)
    requires Spares(f, f', own)
    ensures Grows(f, f')
  {
  }

  /** The loops and tasks beside a loop that moves, or beside a client or Close. */
  lemma AllBeside(f: Fields, f': Fields, own: Option<LoopId>, loops: seq<Loop>, tasks: seq<Task>)
    requires Sole(f, loops, tasks) && Grows(f, f')
    requires Spares(f, f', own) || !Unsure(f) || (own.Some? && f.monitor == own)
    ensures forall k :: 0 <= k < |loops| && own != Some(k) ==> LoopFits(f', k, loops[k])
    ensures forall t :: 0 <= t < |tasks| ==> TaskFits(f', tasks[t])
    ensures Unsure(f') ==> OneAttempt(f', tasks)
  {
    forall k | 0 <= k < |loops| && own != Some(k) ensures LoopFits(f', k, loops[k]) {
      LoopBeside(f, f', own, k, loops[k]);
    }
    forall t | 0 <= t < |tasks|
      ensures TaskFits(f', tasks[t])
        && (Unsure(f') && TaskAttempts(f', tasks[t]) ==> Unsure(f) && TaskAttempts(f, tasks[t]))
    {
      TaskBeside(f, f', own, tasks[t]);
    }
  }

  /** The loops and tasks beside a task that moves. */
  lemma AllBesideTask(f: Fields, f': Fields, t: nat, loops: seq<Loop>, tasks: seq<Task>)
    requires Sole(f, loops, tasks) && Grows(f, f') && t < |tasks| && (TaskAttempts(f, tasks[t]) || Spares(f, f', None))
    ensures forall k :: 0 <= k < |loops| ==> LoopFits(f', k, loops[k])
    ensures forall u :: 0 <= u < |tasks| && u != t ==> TaskFits(f', tasks[u])
    ensures forall u :: 0 <= u < |tasks| && u != t && Unsure(f') && TaskAttempts(f', tasks[u]) ==>
              TaskAttempts(f, tasks[u])
  {
    forall k | 0 <= k < |loops| ensures LoopFits(f', k, loops[k]) {
      LoopBeside(f, f', None, k, loops[k]);
    }
    forall u | 0 <= u < |tasks| && u != t
      ensures TaskFits(f', tasks[u]) && (Unsure(f') && TaskAttempts(f', tasks[u]) ==> TaskAttempts(f, tasks[u]))
    {
      TaskBeside(f, f', None, tasks[u]);
    }
  }

  lemma StoppedLength(s: State, f: Fields)
    ensures |Stopped(s.fields, s.loops)| == |LoopsAfter(s, f)| == |s.loops|
  {
  }

  /** Closing the stop channel of a loop is no matter to Sole. */
  lemma StopKeepsFits(s: State, f: Fields, g: Fields, k: LoopId)
    requires k < |s.loops|
    ensures |LoopsAfter(s, f)| == |s.loops|
    ensures LoopsAfter(s, f)[k].generation == s.loops[k].generation
    ensures LoopFits(g, k, s.loops[k]) ==> LoopFits(g, k, LoopsAfter(s, f)[k])
  {
    hide Past;
  }

  lemma SpawnedFits(f: Fields, g: nat, live: Option<LiveId>)
    requires g <= f.generation
    ensures forall task :: task in Spawned(g, live) ==> TaskFits(f, task) && !TaskAttempts(f, task)
  {
  }

  lemma AddedKeepsSole(f: Fields, loops: seq<Loop>, tasks: seq<Task>, added: seq<Task>)
    requires Sole(f, loops, tasks) && forall task :: task in added ==> TaskFits(f, task) && !TaskAttempts(f, task)
    ensures Sole(f, loops, tasks + added)
  {
    hide TaskFits, LoopFits, TaskAttempts, LiveIsKnown;
    var all := tasks + added;
    assert forall t :: |tasks| <= t < |all| ==> all[t] in added;
    assert forall t :: 0 <= t < |all| && TaskAttempts(f, all[t]) ==> t < |tasks| && all[t] == tasks[t];
  }

  lemma LoopMoveKeepsSole(s: State, l: LoopId, a: Action)
    requires Inv(s.fields, s.loops) && Sole(s.fields, s.loops, s.tasks) && Enabled(s, LoopMove(l, a))
    ensures var u := Step(s, LoopMove(l, a)); Sole(u.fields, u.loops, u.tasks)
  {
    hide ActLoop, Stopped, LoopsAfter, TaskFits, Spawned, Grows, Spares, OneAttempt, LiveIsKnown, LoopAttempts;
    var e := LoopEffectOf(s, l, a).value;
    var f, f' := s.fields, e.fields;
    LoopSole(f, l, s.loops[l], a, HeldGeneration(s), |s.born|);
    if LoopAttempts(f, s.loops[l]) {
      AttemptHoldsSlot(f, l, s.loops[l]);
    }
    AllBeside(f, f', Some(l), s.loops, s.tasks);
    var u := Step(s, LoopMove(l, a));
    StoppedLength(s, f');
    forall k | 0 <= k < |s.loops| ensures |u.loops| == |s.loops| && LoopFits(f', k, u.loops[k]) {
      StopKeepsFits(s, f', f', k);
      if k == l {
        MovedFits(f', l, s.loops[l], s.loops[l], e.pc);
        MovedFits(f', l, s.loops[l], LoopsAfter(s, f')[l], e.pc);
      }
    }
    SpawnedFits(f', s.loops[l].generation, e.live);
    AddedKeepsSole(f', u.loops, s.tasks, Spawned(s.loops[l].generation, e.live));
  }

  lemma AttemptHoldsSlot(f: Fields, l: LoopId, loop: Loop)
    requires LoopFits(f, l, loop) && LoopAttempts(f, loop)
    ensures !Unsure(f) || f.monitor == Some(l)
  {
  }

  lemma MovedFits(f: Fields, l: LoopId, loop: Loop, stopped: Loop, pc: LoopPc)
    requires LoopFits(f, l, loop.(pc := pc)) && stopped.generation == loop.generation
    ensures LoopFits(f, l, MovedLoop(stopped, pc))
  {
    hide Past;
  }

  lemma TaskSole(s: State, t: nat, a: Action)
    requires Inv(s.fields, s.loops) && Sole(s.fields, s.loops, s.tasks) && Enabled(s, TaskMove(t, a))
    ensures var e := TaskEffectOf(s, t, a).value;
            var task := s.tasks[t].(pc := e.pc);
            && LiveIsKnown(e.fields) && Grows(s.fields, e.fields) && TaskFits(e.fields, task)
            && (TaskAttempts(s.fields, s.tasks[t]) || Spares(s.fields, e.fields, None))
            && (Unsure(e.fields) && TaskAttempts(e.fields, task) ==> TaskAttempts(s.fields, s.tasks[t]))
  {
    hide ActTask, LiveIsKnown, Spares, Past;
    var e := TaskEffectOf(s, t, a).value;
    var task := s.tasks[t];
    assert TaskFits(s.fields, task);
    if task.pc.Begin? || task.pc.Starting? {
      StartSole(s.fields, task, a, HeldGeneration(s), |s.loops|, |s.born|);
    } else {
      LiveSole(s.fields, task, a, HeldGeneration(s), |s.loops|, |s.born|);
      SparesGrows(s.fields, e.fields, None);
    }
  }

  lemma TaskMoveKeepsSole(s: State, t: nat, a: Action)
    requires Inv(s.fields, s.loops) && Sole(s.fields, s.loops, s.tasks) && Enabled(s, TaskMove(t, a))
    ensures var u := Step(s, TaskMove(t, a)); Sole(u.fields, u.loops, u.tasks)
  {
    hide ActTask, Stopped, LoopsAfter, TaskFits, LoopFits, Spawned, Grows, Spares, OneAttempt, LiveIsKnown,
      TaskAttempts, Inv, Unsure;
    var e := TaskEffectOf(s, t, a).value;
    var f, f', g := s.fields, e.fields, s.tasks[t].generation;
    TaskSole(s, t, a);
    AllBesideTask(f, f', t, s.loops, s.tasks);
    var u := Step(s, TaskMove(t, a));
    var tasks := s.tasks[t := Task(g, e.pc)];
    forall k | 0 <= k < |u.loops| ensures LoopFits(f', k, u.loops[k]) {
      if k < |s.loops| {
        StopKeepsFits(s, f', f', k);
      } else {
        InstalledFits(s, t, a, k);
      }
    }
    OneAttemptMoves(f, f', s.tasks, tasks, t);
    GenerationFits(f', tasks[t]);
    SpawnedFits(f', g, e.live);
    AddedKeepsSole(f', u.loops, tasks, Spawned(g, e.live));
  }

  lemma GenerationFits(f: Fields, task: Task)
    requires TaskFits(f, task)
    ensures task.generation <= f.generation
  {
  }

  lemma InstalledFits(s: State, t: nat, a: Action, k: LoopId)
    requires Inv(s.fields, s.loops) && Enabled(s, TaskMove(t, a))
    requires |s.loops| <= k < |Step(s, TaskMove(t, a)).loops|
    ensures var u := Step(s, TaskMove(t, a)); LoopFits(u.fields, k, u.loops[k])
  {
    hide ActTask, Past;
    var e := TaskEffectOf(s, t, a).value;
    InstalledForOwn(s.fields, s.tasks[t], a, HeldGeneration(s), |s.loops|, |s.born|);
    TaskLawful(s.fields, s.tasks[t], a, HeldGeneration(s), |s.loops|, |s.born|);
  }

  lemma OneAttemptMoves(f: Fields, f': Fields, tasks: seq<Task>, tasks': seq<Task>, t: nat)
    requires Grows(f, f') && (Unsure(f) ==> OneAttempt(f, tasks)) && t < |tasks| == |tasks'|
    requires forall u :: 0 <= u < |tasks| && u != t ==> tasks'[u] == tasks[u]
    requires forall u :: 0 <= u < |tasks| && Unsure(f') && TaskAttempts(f', tasks'[u]) ==> TaskAttempts(f, tasks[u])
    ensures Unsure(f') ==> OneAttempt(f', tasks')
  {
    hide TaskAttempts;
  }

  /** Clients, Close and idle checks spare the goroutine that attempts. */
  lemma RoomSpares(s: State, m: Move)
    requires LiveIsKnown(s.fields) && Enabled(s, m) && !m.LoopMove? && !m.TaskMove?
    ensures var u := Step(s, m);
            LiveIsKnown(u.fields) && Spares(s.fields, u.fields, None)
  {
    var u := Step(s, m);
    match m {
      case Join(c) =>
      case IdleDetach =>
      case _ =>
    }
  }

  lemma JoinKeepsSole(s: State, c: ClientId)
    requires Sole(s.fields, s.loops, s.tasks) && Enabled(s, Join(c))
    ensures var u := Step(s, Join(c)); Sole(u.fields, u.loops, u.tasks)
  {
    hide Past;
    RoomSpares(s, Join(c));
    var u := Step(s, Join(c));
    SparesGrows(s.fields, u.fields, None);
    AllBeside(s.fields, u.fields, None, s.loops, s.tasks);
    if JoinStarts(s.fields) {
      forall t | 0 <= t < |s.tasks| && Unsure(s.fields) ensures !TaskAttempts(u.fields, s.tasks[t]) {
        assert TaskFits(s.fields, s.tasks[t]);
      }
    }
  }

  lemma RoomMoveKeepsSole(s: State, m: Move)
    requires Sole(s.fields, s.loops, s.tasks) && Enabled(s, m) && !m.LoopMove? && !m.TaskMove?
    ensures var u := Step(s, m); Sole(u.fields, u.loops, u.tasks)
  {
    hide Stopped, LoopsAfter, TaskFits, LoopFits, Grows, Spares, OneAttempt, LiveIsKnown, DetachSection, JoinSection,
      Unsure;
    var u := Step(s, m);
    if m.Join? {
      JoinKeepsSole(s, m.client);
    } else {
      StoppedLength(s, u.fields);
      RoomSpares(s, m);
      SparesGrows(s.fields, u.fields, None);
      AllBeside(s.fields, u.fields, None, s.loops, s.tasks);
      forall k | 0 <= k < |s.loops| ensures |u.loops| == |s.loops| && LoopFits(u.fields, k, u.loops[k]) {
        StopKeepsFits(s, u.fields, u.fields, k);
        StoppedKeepsFits(s, u.fields, k);
      }
    }
  }

  lemma StoppedKeepsFits(s: State, f: Fields, k: LoopId)
    requires k < |s.loops|
    ensures |Stopped(s.fields, s.loops)| == |s.loops|
    ensures LoopFits(f, k, s.loops[k]) ==> LoopFits(f, k, Stopped(s.fields, s.loops)[k])
  {
    hide Past;
  }

  lemma StepKeepsSole(s: State, m: Move)
    requires Inv(s.fields, s.loops) && Sole(s.fields, s.loops, s.tasks) && Enabled(s, m)
    ensures var u := Step(s, m); Sole(u.fields, u.loops, u.tasks)
  {
    hide Inv, Sole, Step, Enabled;
    match m {
      case LoopMove(l, a) => LoopMoveKeepsSole(s, l, a);
      case TaskMove(t, a) => TaskMoveKeepsSole(s, t, a);
      case _ => RoomMoveKeepsSole(s, m);
    }
  }

  // ----- a goroutine works with instances built for its own generation

  function Held(pc: SessionPc): Option<LiveId> {
    match pc
    case Acquire => None
    case Build => None
    case Return(_) => None
    case _ => Some(pc.d)
  }

  predicate BuiltFor(d: Option<LiveId>, g: nat, born: seq<nat>) {
    d.Some? ==> d.value < |born| && born[d.value] == g
  }

  /** The probe was built for the present generation; the live session for no later one. */
  predicate FieldsBorn(f: Fields, born: seq<nat>) {
    && BuiltFor(f.probe, f.generation, born)
    && (f.live.Some? ==> f.live.value < |born| && born[f.live.value] <= f.generation)
    && (f.closed ==> f.live.None? && f.probe.None?)
  }

  predicate LoopBorn(loop: Loop, born: seq<nat>) {
    loop.pc.Session? ==> BuiltFor(Held(loop.pc.session), loop.generation, born)
  }

  predicate TaskBorn(task: Task, born: seq<nat>) {
    task.pc.Starting? ==> BuiltFor(Held(task.pc.session), task.generation, born)
  }

  ghost predicate AllBorn(f: Fields, loops: seq<Loop>, tasks: seq<Task>, born: seq<nat>) {
    && FieldsBorn(f, born)
    && (forall l :: 0 <= l < |loops| ==> LoopBorn(loops[l], born))
    && (forall t :: 0 <= t < |tasks| ==> TaskBorn(tasks[t], born))
  }

  lemma ProbeBorn(f: Fields, g: nat, pc: SessionPc, a: Action, born: seq<nat>)
    requires FieldsBorn(f, born) && BuiltFor(Held(pc), g, born) && ActProbe(f, g, pc, a, |born|).Some?
    ensures var e := ActProbe(f, g, pc, a, |born|).value;
            FieldsBorn(e.fields, born + Born(g, e.built)) && BuiltFor(Held(e.pc), g, born + Born(g, e.built))
  {
    match pc {
      case Acquire =>
      case Build =>
      case Create(d) =>
      case Prepare(d) =>
      case _ =>
    }
  }

  lemma AdoptBorn(f: Fields, g: nat, pc: SessionPc, a: Action, held: nat, born: seq<nat>)
    requires FieldsBorn(f, born) && BuiltFor(Held(pc), g, born) && ActAdopt(f, g, pc, a, held).Some?
    ensures var e := ActAdopt(f, g, pc, a, held).value;
            FieldsBorn(e.fields, born) && BuiltFor(Held(e.pc), g, born) && !e.built
  {
    hide Unslotted;
    match pc {
      case Store(d, after) =>
      case Promote(d) =>
      case Check(d) =>
      case _ =>
    }
  }

  lemma SessionBorn(f: Fields, g: nat, pc: SessionPc, a: Action, held: nat, born: seq<nat>)
    requires FieldsBorn(f, born) && BuiltFor(Held(pc), g, born) && ActSession(f, g, pc, a, held, |born|).Some?
    ensures var e := ActSession(f, g, pc, a, held, |born|).value;
            FieldsBorn(e.fields, born + Born(g, e.built)) && BuiltFor(Held(e.pc), g, born + Born(g, e.built))
  {
    hide ActProbe, ActAdopt, FieldsBorn, BuiltFor;
    if Probing(pc) {
      ProbeBorn(f, g, pc, a, born);
    } else {
      AdoptBorn(f, g, pc, a, held, born);
      assert born + [] == born;
    }
  }

  /** A section that brings in no instance. */
  predicate Passes(f: Fields, f': Fields) {
    && f'.generation >= f.generation && f'.live in {f.live, None} && f'.closed == f.closed
    && f'.probe in {f.probe, None} && (f'.generation != f.generation ==> f'.probe.None?)
  }

  lemma PassesBorn(f: Fields, f': Fields, born: seq<nat>)
    requires FieldsBorn(f, born) && Passes(f, f')
    ensures FieldsBorn(f', born)
  {
  }

  lemma AfterProbePasses(f: Fields, l: LoopId, g: nat, result: ProbeResult)
    ensures var e := AfterProbe(f, l, g, result);
            Passes(f, e.fields) && !e.pc.Session? && !e.built
  {
  }

  lemma SelectPasses(f: Fields, l: LoopId, loop: Loop, a: Action)
    requires ActSelect(f, l, loop, a).Some?
    ensures var e := ActSelect(f, l, loop, a).value;
            Passes(f, e.fields) && (e.pc.Session? ==> e.pc.session == Acquire) && !e.built
  {
  }

  lemma LoopMoveBorn(f: Fields, l: LoopId, loop: Loop, a: Action, held: nat, born: seq<nat>)
    requires FieldsBorn(f, born) && LoopBorn(loop, born) && ActLoop(f, l, loop, a, held, |born|).Some?
    ensures var e := ActLoop(f, l, loop, a, held, |born|).value;
            && FieldsBorn(e.fields, born + Born(loop.generation, e.built))
            && LoopBorn(loop.(pc := e.pc), born + Born(loop.generation, e.built))
  {
    hide ActSession, AfterProbe, ActSelect, FieldsBorn, BuiltFor, Held;
    var e := ActLoop(f, l, loop, a, held, |born|).value;
    assert born + [] == born;
    NothingHeld();
    match loop.pc {
      case Session(Return(result)) =>
        AfterProbePasses(f, l, loop.generation, result);
        PassesBorn(f, e.fields, born);
      case Session(pc) => SessionBorn(f, loop.generation, pc, a, held, born);
      case Selecting =>
        SelectPasses(f, l, loop, a);
        PassesBorn(f, e.fields, born);
      case _ => PassesBorn(f, e.fields, born);
    }
  }

  lemma NothingHeld()
    ensures forall g, born :: BuiltFor(Held(Acquire), g, born)
  {
  }

  lemma ResultPasses(f: Fields, g: nat, result: ProbeResult, held: nat, next: LoopId)
    ensures var e := ActResult(f, g, result, held, next).value;
            Passes(f, e.fields) && !e.pc.Starting? && !e.built
  {
    hide InstallSection, Unslotted;
    match result {
      case NotStarted =>
      case Unknown =>
      case _ =>
    }
  }

  lemma LivePasses(f: Fields, g: nat, pc: TaskPc, a: Action, held: nat, next: LoopId)
    requires ActLive(f, g, pc, a, held, next).Some?
    ensures var e := ActLive(f, g, pc, a, held, next).value;
            Passes(f, e.fields) && !e.pc.Starting? && !e.built
  {
    hide InstallSection;
    match pc {
      case LiveOver(d) =>
      case Detaching =>
      case _ =>
    }
  }

  lemma TaskMoveBorn(f: Fields, task: Task, a: Action, held: nat, next: LoopId, born: seq<nat>)
    requires FieldsBorn(f, born) && TaskBorn(task, born) && ActTask(f, task, a, held, next, |born|).Some?
    ensures var e := ActTask(f, task, a, held, next, |born|).value;
            && FieldsBorn(e.fields, born + Born(task.generation, e.built))
            && TaskBorn(task.(pc := e.pc), born + Born(task.generation, e.built))
  {
    hide ActSession, ActResult, ActLive, FieldsBorn, BuiltFor, Held;
    var e := ActTask(f, task, a, held, next, |born|).value;
    assert born + [] == born;
    NothingHeld();
    match task.pc {
      case Starting(Return(result)) =>
        ResultPasses(f, task.generation, result, held, next);
        PassesBorn(f, e.fields, born);
      case Starting(pc) => SessionBorn(f, task.generation, pc, a, held, born);
      case Begin(c) => PassesBorn(f, e.fields, born);
      case _ =>
        LivePasses(f, task.generation, task.pc, a, held, next);
        PassesBorn(f, e.fields, born);
    }
  }

  lemma BornGrows(loops: seq<Loop>, tasks: seq<Task>, born: seq<nat>, more: seq<nat>)
    ensures forall l :: 0 <= l < |loops| && LoopBorn(loops[l], born) ==> LoopBorn(loops[l], born + more)
    ensures forall t :: 0 <= t < |tasks| && TaskBorn(tasks[t], born) ==> TaskBorn(tasks[t], born + more)
  {
    hide Held;
  }

  lemma LoopMoveKeepsBorn(s: State, l: LoopId, a: Action)
    requires AllBorn(s.fields, s.loops, s.tasks, s.born) && Enabled(s, LoopMove(l, a))
    ensures var u := Step(s, LoopMove(l, a)); AllBorn(u.fields, u.loops, u.tasks, u.born)
  {
    hide ActLoop, FieldsBorn, Held, BuiltFor, Born;
    var e := LoopEffectOf(s, l, a).value;
    LoopMoveBorn(s.fields, l, s.loops[l], a, HeldGeneration(s), s.born);
    BornGrows(s.loops, s.tasks, s.born, Born(s.loops[l].generation, e.built));
  }

  lemma TaskMoveKeepsBorn(s: State, t: nat, a: Action)
    requires AllBorn(s.fields, s.loops, s.tasks, s.born) && Enabled(s, TaskMove(t, a))
    ensures var u := Step(s, TaskMove(t, a)); AllBorn(u.fields, u.loops, u.tasks, u.born)
  {
    hide ActTask, FieldsBorn, Held, BuiltFor, Born;
    var e := TaskEffectOf(s, t, a).value;
    TaskMoveBorn(s.fields, s.tasks[t], a, HeldGeneration(s), |s.loops|, s.born);
    BornGrows(s.loops, s.tasks, s.born, Born(s.tasks[t].generation, e.built));
  }

  lemma StepKeepsBorn(s: State, m: Move)
    requires AllBorn(s.fields, s.loops, s.tasks, s.born) && Enabled(s, m)
    ensures var u := Step(s, m); AllBorn(u.fields, u.loops, u.tasks, u.born)
  {
    match m {
      case LoopMove(l, a) => LoopMoveKeepsBorn(s, l, a);
      case TaskMove(t, a) => TaskMoveKeepsBorn(s, t, a);
      case _ =>
        hide Held;
    }
  }

  // ----- every run

  ghost predicate Good(s: State) {
    && Inv(s.fields, s.loops) && Sole(s.fields, s.loops, s.tasks)
    && AllBorn(s.fields, s.loops, s.tasks, s.born)
  }

  lemma StepKeepsGood(s: State, m: Move)
    requires Good(s) && Enabled(s, m)
    ensures Good(Step(s, m))
  {
    hide Inv, Sole, AllBorn, Step, Enabled;
    StepKeepsInv(s, m);
    StepKeepsSole(s, m);
    StepKeepsBorn(s, m);
  }

  lemma {:induction false} RunKeepsGood(moves: seq<Move>)
    requires Run(INITIAL, moves).Some?
    ensures Good(Run(INITIAL, moves).value)
  {
    if moves != [] {
      hide Good, Step, Enabled;
      RunKeepsGood(moves[..|moves| - 1]);
      StepKeepsGood(Run(INITIAL, moves[..|moves| - 1]).value, moves[|moves| - 1]);
    }
  }
}
