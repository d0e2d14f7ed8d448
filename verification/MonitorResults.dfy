/**
 What holds in every run of a room. A loop that has lost the slot is retired; a loop whose generation has
 passed, or whose room is closed, is superseded.
 */
module MonitorResults {
  import opened Monitor
  import opened MonitorRuns
  import opened MonitorInvariant
  import opened Options

  /** The slot never holds a loop that has closed its `doneCh` or belongs to another generation, so the
      branch of installMonitorLoopLocked for a foreign generation is never taken; each channel is closed at
      most once; and a loop outside the slot is stopped or already finishing. */
  lemma SlotHoldsLiveCurrentLoop(moves: seq<Move>, l: LoopId)
    requires Run(INITIAL, moves).Some?
    ensures var s := Run(INITIAL, moves).value;
            && (s.fields.monitor.Some? ==>
                  s.fields.monitor.value < |s.loops| && HeldGeneration(s) == s.fields.generation)
            && (l < |s.loops| ==>
                  && s.loops[l].stops <= 1 && s.loops[l].dones <= 1
                  && (s.fields.monitor == Some(l) ==> s.loops[l].dones == 0)
                  && (s.fields.monitor != Some(l) ==> s.loops[l].stops == 1 || s.loops[l].pc in {Closing, Done}))
  {
    RunKeepsGood(moves);
    var s := Run(INITIAL, moves).value;
    hide Run, Sole, AllBorn;
    if l < |s.loops| {
      assert ChannelsOnce(s.loops[l]) && NotOrphaned(s.fields, l, s.loops[l]);
    }
  }

  /** A retired loop: the room is closed, or has moved on, or has another monitor or none. */
  predicate Retired(s: State, l: LoopId) {
    l < |s.loops| && !Current(s.fields, l, s.loops[l].generation)
  }

  lemma RetiredMeansUnslotted(s: State, l: LoopId)
    requires Inv(s.fields, s.loops) && l < |s.loops|
    ensures Retired(s, l) <==> s.fields.closed || s.fields.monitor != Some(l)
  {
  }

  /** No section opens a closed room again or puts an old loop into the slot. */
  lemma SlotOnlyTakesNewLoops(s: State, m: Move)
    requires Inv(s.fields, s.loops) && Enabled(s, m)
    ensures var u := Step(s, m);
            && (s.fields.closed ==> u.fields.closed) && |s.loops| <= |u.loops|
            && (u.fields.monitor in {s.fields.monitor, None} || u.fields.monitor == Some(|s.loops|))
  {
    hide ActLoop, ActTask;
    match m {
      case LoopMove(l, a) => LoopLawful(s.fields, l, s.loops[l], a, HeldGeneration(s), |s.born|);
      case TaskMove(t, a) => TaskLawful(s.fields, s.tasks[t], a, HeldGeneration(s), |s.loops|, |s.born|);
      case _ =>
    }
  }

  lemma StepKeepsRetired(s: State, m: Move, l: LoopId)
    requires Inv(s.fields, s.loops) && Enabled(s, m) && Retired(s, l)
    ensures Retired(Step(s, m), l)
  {
    hide Inv, Step, Enabled;
    SlotOnlyTakesNewLoops(s, m);
    StepKeepsInv(s, m);
    RetiredMeansUnslotted(s, l);
    hide Retired;
    RetiredMeansUnslotted(Step(s, m), l);
  }

  /** Retirement is permanent: whatever runs later, the loop stays retired. */
  lemma {:induction false} RetiredForever(s: State, moves: seq<Move>, l: LoopId)
    requires Good(s) && Retired(s, l) && Run(s, moves).Some?
    ensures Good(Run(s, moves).value) && Retired(Run(s, moves).value, l)
  {
    hide Inv, Sole, AllBorn, Step, Enabled, Retired;
    if moves != [] {
      var u := Run(s, moves[..|moves| - 1]).value;
      var m := moves[|moves| - 1];
      RetiredForever(s, moves[..|moves| - 1], l);
      StepKeepsGood(u, m);
      StepKeepsRetired(u, m, l);
    }
  }

  /** A loop about to evict the clients of a room that does not exist still holds the slot, unless the room is
      closed or has moved on: the eviction goes by the generation alone, yet no retired loop evicts. */
  lemma EvictingLoopHoldsSlot(moves: seq<Move>, l: LoopId)
    requires Run(INITIAL, moves).Some?
    ensures var s := Run(INITIAL, moves).value;
            l < |s.loops| && s.loops[l].pc.Evicting? && !Stale(s.fields, s.loops[l].generation) ==>
              !Retired(s, l) && !s.fields.knownValid
  {
    RunKeepsGood(moves);
    hide Run, Inv, AllBorn;
    var s := Run(INITIAL, moves).value;
    if l < |s.loops| {
      assert LoopFits(s.fields, l, s.loops[l]);
    }
  }

  // ----- what a retired loop can still do

  /** When the next step of a retired loop changes the room. */
  predicate Writes(f: Fields, l: LoopId, loop: Loop, a: Action) {
    match loop.pc
    case Session(Create(d)) => !Stale(f, loop.generation) && f.probe.None?
    case Session(Store(d, after)) =>
      !Stale(f, loop.generation) && f.probe == Some(d) && !after.ToRecord? && !f.knownValid
    case Session(Record(d, _)) => a == Forget(true) && f.probe == Some(d)
    case Session(Discard(d, _)) => f.probe == Some(d)
    case Session(Promote(d)) => Promotes(f, loop.generation, d)
    case Session(Dispose(d)) => f.live == Some(d)
    case Leaving => f.monitor == Some(l)
    case _ => false
  }

  lemma SessionWritesExactly(f: Fields, l: LoopId, loop: Loop, a: Action, held: nat, next: LiveId)
    requires loop.pc.Session? && ActSession(f, loop.generation, loop.pc.session, a, held, next).Some?
    ensures ActSession(f, loop.generation, loop.pc.session, a, held, next).value.fields != f <==> Writes(f, l, loop, a)
  {
    hide Unslotted;
    match loop.pc.session {
      case Create(d) =>
      case Store(d, after) =>
      case Promote(d) =>
      case _ =>
    }
  }

  lemma RetiredStepWritesExactly(f: Fields, l: LoopId, loop: Loop, a: Action, held: nat, next: LiveId)
    requires ActLoop(f, l, loop, a, held, next).Some? && !Current(f, l, loop.generation)
    requires loop.pc.Evicting? ==> Stale(f, loop.generation)
    ensures var e := ActLoop(f, l, loop, a, held, next).value;
            e.notified.None? && (e.fields != f <==> Writes(f, l, loop, a))
  {
    hide ActSession;
    match loop.pc {
      case Session(Return(result)) =>
      case Session(pc) =>
        hide Writes;
        SessionWritesExactly(f, l, loop, a, held, next);
      case _ =>
    }
  }

  /** What is left to a retired loop, in every run: it notifies nobody, and its step changes the room exactly when
      `Writes` says so, in its own startLiveSession or, in a closed room, giving up its own slot. */
  lemma RetiredLoopWritesExactly(s: State, l: LoopId, a: Action)
    requires Good(s) && Retired(s, l) && Enabled(s, LoopMove(l, a))
    ensures LoopEffectOf(s, l, a).value.notified.None?
    ensures Step(s, LoopMove(l, a)).fields != s.fields <==> Writes(s.fields, l, s.loops[l], a)
  {
    hide ActLoop, Writes, Inv, AllBorn;
    assert LoopFits(s.fields, l, s.loops[l]);
    RetiredStepWritesExactly(s.fields, l, s.loops[l], a, HeldGeneration(s), |s.born|);
  }

  /** Whether the next step of a loop adopts its instance as the live session of the room. */
  predicate PromotesNow(f: Fields, loop: Loop) {
    loop.pc.Session? && loop.pc.session.Promote? && Promotes(f, loop.generation, loop.pc.session.d)
  }

  /** What a room tells its clients, and whom it tells. */
  predicate SameOutside(f: Fields, f': Fields) {
    && f'.closed == f.closed && f'.generation == f.generation && f'.clients == f.clients && f'.pending == f.pending
    && f'.starting == f.starting && f'.statusUnknown == f.statusUnknown
  }

  lemma SessionCommitsOnlyByPromoting(f: Fields, loop: Loop, a: Action, held: nat, next: LiveId)
    requires loop.pc.Session? && ActSession(f, loop.generation, loop.pc.session, a, held, next).Some?
    requires !PromotesNow(f, loop)
    ensures var f' := ActSession(f, loop.generation, loop.pc.session, a, held, next).value.fields;
            && SameOutside(f, f') && f'.monitor == f.monitor
            && (f'.live == f.live || (f'.live.None? && f.live == Held(loop.pc.session)))
  {
    if Probing(loop.pc.session) {
      hide ActAdopt;
    } else {
      hide ActProbe, Unslotted;
      match loop.pc.session {
        case Promote(d) =>
        case _ =>
      }
    }
  }

  lemma RetiredStepCommitsOnlyByPromoting(f: Fields, l: LoopId, loop: Loop, a: Action, held: nat, next: LiveId)
    requires ActLoop(f, l, loop, a, held, next).Some? && !Current(f, l, loop.generation) && !PromotesNow(f, loop)
    requires loop.pc.Evicting? ==> Stale(f, loop.generation)
    ensures var f' := ActLoop(f, l, loop, a, held, next).value.fields;
            && SameOutside(f, f') && (f'.monitor == f.monitor || f.monitor == Some(l))
            && (f'.live == f.live || (f'.live.None? && loop.pc.Session? && f.live == Held(loop.pc.session)))
  {
    hide ActSession, Held;
    match loop.pc {
      case Session(Return(result)) =>
      case Session(pc) =>
        hide SameOutside;
        SessionCommitsOnlyByPromoting(f, loop, a, held, next);
      case _ =>
    }
  }

  /** Of those writes only the promotion matters to anybody else: every other step of a retired loop leaves
      what the clients see, the slots of other loops and the live sessions it did not bring in. */
  lemma RetiredLoopCommitsOnlyByPromoting(s: State, l: LoopId, a: Action)
    requires Good(s) && Retired(s, l) && Enabled(s, LoopMove(l, a)) && !PromotesNow(s.fields, s.loops[l])
    ensures var f, f' := s.fields, Step(s, LoopMove(l, a)).fields;
            && SameOutside(f, f') && (f'.monitor == f.monitor || f.monitor == Some(l))
            && (f'.live == f.live || (f'.live.None? && s.loops[l].pc.Session? && f.live == Held(s.loops[l].pc.session)))
  {
    hide ActLoop, SameOutside, Held, Inv, AllBorn;
    assert LoopFits(s.fields, l, s.loops[l]);
    RetiredStepCommitsOnlyByPromoting(s.fields, l, s.loops[l], a, HeldGeneration(s), |s.born|);
  }

  lemma PromotionStep(f: Fields, l: LoopId, loop: Loop, a: Action, held: nat, next: LiveId)
    requires PromotesNow(f, loop) && HeldIs(f, held) && ActLoop(f, l, loop, a, held, next).Some?
    ensures ActLoop(f, l, loop, a, held, next).value.fields
         == f.(probe := None, live := Some(loop.pc.session.d), statusUnknown := false, starting := false,
               monitor := None)
  {
    hide ActProbe, AfterProbe, ActSelect;
  }

  /** The promotion itself asks for the generation and the instance, not for the loop: in the present generation
      of an open room it takes the place of the live session there is, and stops whichever loop is in the slot. */
  lemma RetiredLoopPromotes(s: State, l: LoopId, a: Action)
    requires Good(s) && Retired(s, l) && Enabled(s, LoopMove(l, a)) && PromotesNow(s.fields, s.loops[l])
    ensures var f, u := s.fields, Step(s, LoopMove(l, a));
            && u.fields == f.(probe := None, live := Some(s.loops[l].pc.session.d), statusUnknown := false,
                              starting := false, monitor := None)
            && (f.monitor.Some? ==> f.monitor.value < |u.loops| && u.loops[f.monitor.value].stops == 1)
  {
    hide ActLoop, Sole, AllBorn;
    PromotionStep(s.fields, l, s.loops[l], a, HeldGeneration(s), |s.born|);
    if s.fields.monitor.Some? {
      assert ChannelsOnce(s.loops[s.fields.monitor.value]);
    }
  }

  // ----- superseded loops

  /** A goroutine of an earlier generation, or in a closed room, holds no instance that the room probes with. */
  lemma StaleHoldsNoProbe(f: Fields, g: nat, pc: SessionPc, born: seq<nat>)
    requires FieldsBorn(f, born) && BuiltFor(Held(pc), g, born) && Stale(f, g)
    ensures Held(pc).Some? ==> f.probe != Held(pc)
    ensures f.closed ==> f.live.None?
  {
  }

  /** The live session that a superseded loop is about to give up: its own. */
  predicate GivesUpOwn(f: Fields, loop: Loop) {
    loop.pc.Session? && loop.pc.session.Dispose? && f.live == Some(loop.pc.session.d)
  }

  /** A loop of an earlier generation can neither commit state nor notify clients, and in a closed room no loop
      can: its steps change nothing, except that it gives up the live session it brought in itself, and in a
      closed room its own slot. */
  lemma SupersededLoopIsHarmless(s: State, l: LoopId, a: Action)
    requires Good(s) && Enabled(s, LoopMove(l, a)) && Stale(s.fields, s.loops[l].generation)
    ensures LoopEffectOf(s, l, a).value.notified.None?
    ensures var f, u := s.fields, Step(s, LoopMove(l, a));
            u.fields == (if !f.closed && GivesUpOwn(f, s.loops[l]) then f.(live := None)
                         else if s.loops[l].pc.Leaving? && f.monitor == Some(l) then f.(monitor := None) else f)
    ensures s.loops[l].pc.Leaving? && s.fields.monitor == Some(l) ==> s.fields.closed
  {
    hide ActLoop, Sole, Held, BuiltFor;
    var loop := s.loops[l];
    assert LoopBorn(loop, s.born);
    if loop.pc.Session? {
      StaleHoldsNoProbe(s.fields, loop.generation, loop.pc.session, s.born);
    }
    hide FieldsBorn, Inv, AllBorn;
    SupersededStep(s.fields, l, loop, a, HeldGeneration(s), |s.born|);
  }

  lemma SupersededStep(f: Fields, l: LoopId, loop: Loop, a: Action, held: nat, next: LiveId)
    requires ActLoop(f, l, loop, a, held, next).Some? && Stale(f, loop.generation)
    requires loop.pc.Session? && Held(loop.pc.session).Some? ==> f.probe != Held(loop.pc.session)
    ensures var e := ActLoop(f, l, loop, a, held, next).value;
            && e.notified.None?
            && e.fields == (if GivesUpOwn(f, loop) then f.(live := None)
                            else if loop.pc.Leaving? && f.monitor == Some(l) then f.(monitor := None) else f)
  {
    hide ActSession;
    match loop.pc {
      case Session(Return(result)) =>
      case Session(pc) =>
        hide Held;
        SupersededSession(f, loop.generation, pc, a, held, next);
      case _ =>
    }
  }

  lemma SupersededSession(f: Fields, g: nat, pc: SessionPc, a: Action, held: nat, next: LiveId)
    requires ActSession(f, g, pc, a, held, next).Some? && Stale(f, g)
    requires Held(pc).Some? ==> f.probe != Held(pc)
    ensures ActSession(f, g, pc, a, held, next).value.fields
         == if pc.Dispose? && f.live == Some(pc.d) then f.(live := None) else f
  {
    if Probing(pc) {
      hide ActAdopt;
    } else {
      hide ActProbe;
      match pc {
        case Store(d, after) =>
        case Promote(d) =>
        case _ =>
      }
    }
  }

  // ----- selecting, notifying, finishing

  /** A retired loop that is back in its select ends: every move it can make leads out of the loop, and its
      closed stop channel or the closed room makes such a move possible. */
  lemma RetiredLoopEnds(s: State, l: LoopId)
    requires Good(s) && Retired(s, l) && s.loops[l].pc.Selecting?
    ensures forall a :: Enabled(s, LoopMove(l, a)) ==> Step(s, LoopMove(l, a)).loops[l].pc.Leaving?
    ensures Enabled(s, LoopMove(l, SeeClosed)) || Enabled(s, LoopMove(l, SeeStop))
  {
    hide Sole, AllBorn, ActSession, AfterProbe, FailSection;
    assert NotOrphaned(s.fields, l, s.loops[l]);
  }

  /** A monitor loop only ever notifies clients that joined in its own generation, and then all clients the
      room has. */
  lemma NotifiesOwnGeneration(moves: seq<Move>, l: LoopId, a: Action)
    requires Run(INITIAL, moves).Some? && Enabled(Run(INITIAL, moves).value, LoopMove(l, a))
    ensures var s := Run(INITIAL, moves).value;
            var notified := LoopEffectOf(s, l, a).value.notified;
            notified.Some? ==>
              notified.value == s.fields.clients && forall c :: c in notified.value ==>
                notified.value[c] == s.loops[l].generation
  {
    RunKeepsGood(moves);
    var s := Run(INITIAL, moves).value;
    hide Run, ActLoop, Sole, AllBorn;
    LoopNotifiesCurrent(s.fields, l, s.loops[l], a, HeldGeneration(s), |s.born|);
  }

  lemma LoopNotifiesCurrent(f: Fields, l: LoopId, loop: Loop, a: Action, held: nat, next: LiveId)
    requires ActLoop(f, l, loop, a, held, next).Some?
    ensures var e := ActLoop(f, l, loop, a, held, next).value;
            e.notified.Some? ==> Current(f, l, loop.generation) && e.notified.value == f.clients
  {
    hide ActSession;
  }

  /** A finishing loop clears the slot only of itself: it never clears a successor's. */
  lemma FinishSparesSuccessors(s: State, l: LoopId, a: Action)
    requires Enabled(s, LoopMove(l, a)) && s.loops[l].pc in {Leaving, Closing}
    ensures var u := Step(s, LoopMove(l, a));
            && u.fields.monitor
              == (if s.fields.monitor == Some(l) && s.loops[l].pc.Leaving? then None else s.fields.monitor)
            && u.fields.(monitor := s.fields.monitor) == s.fields
            && forall k :: 0 <= k < |s.loops| && k != l ==> u.loops[k] == s.loops[k]
  {
  }

  // ----- the live session of a generation that failed

  /** The live session was built for the present generation. */
  predicate LiveIsPresent(s: State) {
    BuiltFor(s.fields.live, s.fields.generation, s.born)
  }

  /** handleLiveSessionStartResult, about to fail a generation that another goroutine has found live. */
  predicate FailsBesideLive(s: State, m: Move) {
    && m.TaskMove? && m.task < |s.tasks| && s.fields.live.Some? && !Stale(s.fields, s.tasks[m.task].generation)
    && s.tasks[m.task].pc in {Starting(Return(NotFound)), Starting(Return(Failed))}
  }

  /** How a section may keep the live session present: it leaves or drops it, or brings one for the generation. */
  predicate KeepsPresent(f: Fields, f': Fields, g: nat, own: Option<LiveId>) {
    || f'.live.None?
    || (f'.live == f.live && f'.generation == f.generation)
    || (f'.live == own && f'.generation == g)
  }

  lemma SessionKeepsPresent(f: Fields, g: nat, pc: SessionPc, a: Action, held: nat, next: LiveId)
    requires ActSession(f, g, pc, a, held, next).Some?
    ensures KeepsPresent(f, ActSession(f, g, pc, a, held, next).value.fields, g, Held(pc))
  {
    if Probing(pc) {
      hide ActAdopt, Held;
    } else {
      hide ActProbe, Unslotted;
      match pc {
        case Promote(d) =>
        case _ =>
      }
    }
  }

  lemma LoopKeepsPresent(f: Fields, l: LoopId, loop: Loop, a: Action, held: nat, next: LiveId)
    requires ActLoop(f, l, loop, a, held, next).Some? && LiveIsKnown(f) && LoopFits(f, l, loop)
    ensures KeepsPresent(f, ActLoop(f, l, loop, a, held, next).value.fields, loop.generation,
                         if loop.pc.Session? then Held(loop.pc.session) else None)
  {
    hide ActSession, Held, Past;
    match loop.pc {
      case Session(Return(result)) => AfterProbePasses(f, l, loop.generation, result);
      case Session(pc) => SessionKeepsPresent(f, loop.generation, pc, a, held, next);
      case _ =>
    }
  }

  lemma TaskKeepsPresent(f: Fields, task: Task, a: Action, held: nat, next: LoopId, nextLive: LiveId)
    requires ActTask(f, task, a, held, next, nextLive).Some?
    requires !(task.pc in {Starting(Return(NotFound)), Starting(Return(Failed))} && f.live.Some?
               && !Stale(f, task.generation))
    ensures KeepsPresent(f, ActTask(f, task, a, held, next, nextLive).value.fields, task.generation,
                         if task.pc.Starting? then Held(task.pc.session) else None)
  {
    hide ActSession, Held, ActResult, ActLive, KeepsPresent;
    match task.pc {
      case Starting(Return(result)) => ResultKeepsPresent(f, task.generation, result, held, next);
      case Starting(pc) => SessionKeepsPresent(f, task.generation, pc, a, held, nextLive);
      case Begin(c) => DepartureKeepsPresent(f, c, task.generation);
      case _ => LiveKeepsPresent(f, task.generation, task.pc, a, held, next);
    }
  }

  lemma ResultKeepsPresent(f: Fields, g: nat, result: ProbeResult, held: nat, next: LoopId)
    requires !(result in {NotFound, Failed} && f.live.Some? && !Stale(f, g))
    ensures KeepsPresent(f, ActResult(f, g, result, held, next).value.fields, g, Held(Return(result)))
  {
    hide InstallSection, Unslotted;
  }

  lemma LiveKeepsPresent(f: Fields, g: nat, pc: TaskPc, a: Action, held: nat, next: LoopId)
    requires ActLive(f, g, pc, a, held, next).Some?
    ensures KeepsPresent(f, ActLive(f, g, pc, a, held, next).value.fields, g, None)
  {
    hide InstallSection;
    match pc {
      case LiveOver(d) =>
      case _ =>
    }
  }

  lemma DepartureKeepsPresent(f: Fields, c: ClientId, g: nat)
    ensures KeepsPresent(f, f.(clients := f.clients - {c}), g, None)
    ensures KeepsPresent(f, f, g, None)
  {
  }

  lemma FailingIsNotPresent(f: Fields, task: Task, a: Action, held: nat, next: LoopId, nextLive: LiveId)
    requires task.pc in {Starting(Return(NotFound)), Starting(Return(Failed))} && !Stale(f, task.generation)
    requires ActTask(f, task, a, held, next, nextLive).Some?
    ensures var e := ActTask(f, task, a, held, next, nextLive).value;
            e.fields.generation == f.generation + 1 && e.fields.live == f.live && !e.built
  {
    hide ActSession, Unslotted;
  }

  /** The live session in the room is one of the present generation until the first time a start fails beside it,
      and no longer: closeClientsForFailedGeneration ends the generation and leaves the live session in its place. */
  lemma LiveIsPresentUntilFailure(s: State, m: Move)
    requires Good(s) && Enabled(s, m) && LiveIsPresent(s)
    ensures LiveIsPresent(Step(s, m)) <==> !FailsBesideLive(s, m)
  {
    hide Inv, BuiltFor, Held;
    match m {
      case LoopMove(l, a) =>
        hide ActLoop, FieldsBorn, Born;
        assert LoopFits(s.fields, l, s.loops[l]) && LoopBorn(s.loops[l], s.born);
        LoopKeepsPresent(s.fields, l, s.loops[l], a, HeldGeneration(s), |s.born|);
        PresentKept(s, LoopEffectOf(s, l, a).value.fields, s.loops[l].generation,
                    if s.loops[l].pc.Session? then Held(s.loops[l].pc.session) else None,
                    LoopEffectOf(s, l, a).value.built);
      case TaskMove(t, a) =>
        hide ActTask, FieldsBorn, Born;
        assert TaskBorn(s.tasks[t], s.born);
        var e := TaskEffectOf(s, t, a).value;
        if FailsBesideLive(s, m) {
          FailingIsNotPresent(s.fields, s.tasks[t], a, HeldGeneration(s), |s.loops|, |s.born|);
          PresentLost(s, e.fields, s.tasks[t].generation);
        } else {
          TaskKeepsPresent(s.fields, s.tasks[t], a, HeldGeneration(s), |s.loops|, |s.born|);
          PresentKept(s, e.fields, s.tasks[t].generation,
                      if s.tasks[t].pc.Starting? then Held(s.tasks[t].pc.session) else None, e.built);
        }
      case _ => RoomKeepsPresent(s, m);
    }
  }

  lemma RoomKeepsPresent(s: State, m: Move)
    requires LiveIsPresent(s) && Enabled(s, m) && !m.LoopMove? && !m.TaskMove?
    ensures LiveIsPresent(Step(s, m))
  {
  }

  lemma PresentKept(s: State, f: Fields, g: nat, own: Option<LiveId>, built: bool)
    requires LiveIsPresent(s) && KeepsPresent(s.fields, f, g, own) && BuiltFor(own, g, s.born)
    ensures BuiltFor(f.live, f.generation, s.born + Born(g, built))
  {
  }

  lemma PresentLost(s: State, f: Fields, g: nat)
    requires LiveIsPresent(s) && f.live == s.fields.live && f.live.Some? && f.generation == s.fields.generation + 1
    ensures !BuiltFor(f.live, f.generation, s.born + Born(g, false))
  {
  }

  /** An open room with clients, a live session in its place, and no goroutine left to serve them. */
  ghost predicate Stranded(s: State) {
    && !s.fields.closed && s.fields.clients != map[] && s.fields.live.Some?
    && (forall l :: 0 <= l < |s.loops| ==> s.loops[l].pc.Done?)
    && (forall t :: 0 <= t < |s.tasks| ==> s.tasks[t].pc.Ended?)
  }

  /** Nothing but the departure of the last client, or Close, ends that: further clients are not served either. */
  lemma StrandedStays(s: State, m: Move)
    requires Stranded(s) && Enabled(s, m)
    ensures var u := Step(s, m); Stranded(u) || u.fields.closed || u.fields.clients == map[]
  {
    hide ActSession, ActStart, ActSelect, AfterProbe;
  }
}
