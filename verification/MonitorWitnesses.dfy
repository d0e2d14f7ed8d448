/**
 Two runs of a room. In both, a session finds the room without clients just after it went live and gives it
 up, and the end of that session lets a second start of the same generation begin beside the first. In one a
 retired loop takes the place of a connected live session; in the other a client is left stranded.
 */
module MonitorWitnesses {
  import opened Monitor
  import opened MonitorRuns
  import opened MonitorInvariant
  import opened MonitorResults
  import opened Options

  ghost predicate Leads(u: State) {
    exists moves :: Run(INITIAL, moves) == Some(u)
  }

  lemma LeadsOn(u: State, m: Move)
    requires Leads(u) && Enabled(u, m)
    ensures Leads(Step(u, m))
  {
    hide Step, Enabled;
    var moves :| Run(INITIAL, moves) == Some(u);
    assert (moves + [m])[..|moves|] == moves;
    assert Run(INITIAL, moves + [m]) == Some(Step(u, m));
  }

  lemma LeadsOnBy(u: State, m: Move, v: State)
    requires Leads(u) && Enabled(u, m) && v == Step(u, m)
    ensures Leads(v)
  {
    hide Step, Enabled, Leads;
    LeadsOn(u, m);
  }

  lemma LeadsNowhere()
    ensures Leads(INITIAL)
  {
    assert Run(INITIAL, []) == Some(INITIAL);
  }

  // ----- steps that leave the slot alone

  function AtTask(u: State, t: nat, f: Fields, pc: TaskPc): State
    requires t < |u.tasks|
  {
    u.(fields := f, tasks := u.tasks[t := Task(u.tasks[t].generation, pc)])
  }

  lemma TaskGoes(u: State, t: nat, a: Action, v: State)
    requires Leads(u) && t < |u.tasks| == |v.tasks| && v.fields.monitor == u.fields.monitor
    requires TaskEffectOf(u, t, a) == Do(v.fields, v.tasks[t].pc) && v == AtTask(u, t, v.fields, v.tasks[t].pc)
    ensures Leads(v)
  {
    hide ActTask, Leads;
    LeadsOnBy(u, TaskMove(t, a), v);
  }

  function AtLoop(u: State, l: LoopId, f: Fields, pc: LoopPc): State
    requires l < |u.loops|
  {
    u.(fields := f, loops := u.loops[l := MovedLoop(u.loops[l], pc)])
  }

  lemma LoopGoes(u: State, l: LoopId, a: Action, v: State)
    requires Leads(u) && l < |u.loops| == |v.loops| && v.fields.monitor == u.fields.monitor && !u.loops[l].pc.Leaving?
    requires LoopEffectOf(u, l, a) == Some(Go(v.fields, v.loops[l].pc)) && v == AtLoop(u, l, v.fields, v.loops[l].pc)
    ensures Leads(v)
  {
    hide ActLoop, Leads;
    LeadsOnBy(u, LoopMove(l, a), v);
  }

  // ----- stretches of startLiveSession

  predicate Fresh(u: State, g: nat) {
    !Stale(u.fields, g) && u.fields.probe.None?
  }

  /** A task without a probe to share builds one. */
  lemma TaskBuilds(u: State, t: nat, v: State)
    requires Leads(u) && t < |u.tasks| && u.tasks[t].pc == Starting(Acquire) && Fresh(u, u.tasks[t].generation)
    requires v.born == u.born + [u.tasks[t].generation]
    requires v == AtTask(u, t, u.fields.(probe := Some(|u.born|)), Starting(Prepare(|u.born|))).(born := v.born)
    ensures Leads(v)
  {
    hide Leads;
    var u1 := AtTask(u, t, u.fields, Starting(Build));
    TaskGoes(u, t, Advance, u1);
    var u2 := AtTask(u, t, u.fields, Starting(Create(|u.born|))).(born := v.born);
    LeadsOnBy(u1, TaskMove(t, Built), u2);
    TaskGoes(u2, t, Advance, v);
  }

  /** A task that finds the room live goes on to promote its probe. */
  lemma TaskConfirms(u: State, t: nat, d: LiveId, v: State)
    requires Leads(u) && t < |u.tasks| && u.tasks[t].pc == Starting(Prepare(d))
    requires !Stale(u.fields, u.tasks[t].generation) && u.fields.probe == Some(d)
    requires v == AtTask(u, t, u.fields.(knownValid := true), Starting(Promote(d)))
    ensures Leads(v)
  {
    hide Leads;
    var u1 := AtTask(u, t, u.fields, Starting(Confirm(d)));
    TaskGoes(u, t, PrepareOk, u1);
    var u2 := AtTask(u, t, u.fields, Starting(Store(d, ToPromote)));
    TaskGoes(u1, t, ConfirmOk, u2);
    TaskGoes(u2, t, Advance, v);
  }

  /** The same two stretches in the goroutine of a loop. */
  lemma LoopBuilds(u: State, l: LoopId, v: State)
    requires Leads(u) && l < |u.loops| && u.loops[l].pc == Session(Acquire) && Fresh(u, u.loops[l].generation)
    requires v.born == u.born + [u.loops[l].generation]
    requires v == AtLoop(u, l, u.fields.(probe := Some(|u.born|)), Session(Prepare(|u.born|))).(born := v.born)
    ensures Leads(v)
  {
    hide Leads;
    var u1 := AtLoop(u, l, u.fields, Session(Build));
    LoopGoes(u, l, Advance, u1);
    var u2 := AtLoop(u, l, u.fields, Session(Create(|u.born|))).(born := v.born);
    LeadsOnBy(u1, LoopMove(l, Built), u2);
    LoopGoes(u2, l, Advance, v);
  }

  lemma LoopConfirms(u: State, l: LoopId, d: LiveId, v: State)
    requires Leads(u) && l < |u.loops| && u.loops[l].pc == Session(Prepare(d))
    requires !Stale(u.fields, u.loops[l].generation) && u.fields.probe == Some(d)
    requires v == AtLoop(u, l, u.fields.(knownValid := true), Session(Promote(d)))
    ensures Leads(v)
  {
    hide Leads;
    var u1 := AtLoop(u, l, u.fields, Session(Confirm(d)));
    LoopGoes(u, l, PrepareOk, u1);
    var u2 := AtLoop(u, l, u.fields, Session(Store(d, ToPromote)));
    LoopGoes(u1, l, ConfirmOk, u2);
    LoopGoes(u2, l, Advance, v);
  }

  // ----- how both runs begin

  function First(f: Fields, pc: TaskPc, born: seq<nat>): State {
    State(f, [], [Task(0, pc)], born)
  }

  const JOINED := FRESH.(clients := map[1 := 0], starting := true)

  lemma LeadsToPromotion()
    ensures Leads(First(JOINED.(probe := Some(0), knownValid := true), Starting(Promote(0)), [0]))
  {
    hide Leads;
    LeadsNowhere();
    LeadsOnBy(INITIAL, Join(1), First(JOINED, Begin(1), []));
    TaskGoes(First(JOINED, Begin(1), []), 0, Advance, First(JOINED, Starting(Acquire), []));
    var probing := JOINED.(probe := Some(0));
    TaskBuilds(First(JOINED, Starting(Acquire), []), 0, First(probing, Starting(Prepare(0)), [0]));
    TaskConfirms(First(probing, Starting(Prepare(0)), [0]), 0, 0,
                 First(probing.(knownValid := true), Starting(Promote(0)), [0]));
  }

  const ABANDONED := FRESH.(knownValid := true, live := Some(0))

  lemma LeadsToAbandoned()
    ensures Leads(First(ABANDONED, Starting(Check(0)), [0]))
  {
    hide Leads;
    LeadsToPromotion();
    var live := ABANDONED.(clients := map[1 := 0]);
    TaskGoes(First(JOINED.(probe := Some(0), knownValid := true), Starting(Promote(0)), [0]), 0, Advance,
             First(live, Starting(Check(0)), [0]));
    assert live.clients - {1} == map[];
    LeadsOnBy(First(live, Starting(Check(0)), [0]), Leave(1), First(ABANDONED, Starting(Check(0)), [0]));
  }

  /** A session promotes its instance, finds the room empty and gives the instance up. */
  lemma LeadsToGivenUp()
    ensures Leads(First(FRESH.(knownValid := true), Starting(Return(Inactive)), [0]))
  {
    hide Leads;
    LeadsToAbandoned();
    TaskGoes(First(ABANDONED, Starting(Check(0)), [0]), 0, Advance, First(ABANDONED, Starting(Dispose(0)), [0]));
    TaskGoes(First(ABANDONED, Starting(Dispose(0)), [0]), 0, Advance,
             First(FRESH.(knownValid := true), Starting(Return(Inactive)), [0]));
  }

  function Second(f: Fields, first: TaskPc): State {
    State(f, [], [Task(0, first), Task(0, Begin(2))], [0])
  }

  /** The starts for the second and third client side by side, once the first session is over. */
  function Racing(f: Fields, first: TaskPc, second: TaskPc, born: seq<nat>): State {
    State(f, [], [Task(0, Ended), Task(0, first), Task(0, second)], born)
  }

  const RACING := FRESH.(knownValid := true, starting := true, clients := map[2 := 0, 3 := 0])

  /** The first session clears the mark of the start that has begun since. */
  lemma LeadsToRace()
    ensures Leads(Racing(RACING, Begin(2), Begin(3), [0]))
  {
    hide Leads;
    LeadsToGivenUp();
    var f := FRESH.(knownValid := true, starting := true, clients := map[2 := 0]);
    var g := f.(starting := false);
    LeadsOnBy(First(FRESH.(knownValid := true), Starting(Return(Inactive)), [0]), Join(2),
              Second(f, Starting(Return(Inactive))));
    TaskGoes(Second(f, Starting(Return(Inactive))), 0, Advance, Second(g, Counting));
    assert 2 in g.clients;
    TaskGoes(Second(g, Counting), 0, Advance, Second(g, Ended));
    assert g.clients[3 := 0] == RACING.clients;
    LeadsOnBy(Second(g, Ended), Join(3), Racing(RACING, Begin(2), Begin(3), [0]));
  }

  const PROBING := RACING.(probe := Some(1))

  lemma LeadsToPrepared()
    ensures Leads(Racing(PROBING, Starting(Prepare(1)), Begin(3), [0, 0]))
  {
    hide Leads;
    LeadsToRace();
    TaskGoes(Racing(RACING, Begin(2), Begin(3), [0]), 1, Advance, Racing(RACING, Starting(Acquire), Begin(3), [0]));
    TaskBuilds(Racing(RACING, Starting(Acquire), Begin(3), [0]), 1,
               Racing(PROBING, Starting(Prepare(1)), Begin(3), [0, 0]));
  }

  // ----- a client left stranded

  const LIVE := FRESH.(knownValid := true, live := Some(1), clients := map[2 := 0, 3 := 0])
  const FAILING := Starting(Return(Failed))

  /** Both starts share the instance, and it fails to prepare for the one. */
  lemma LeadsToFailure()
    ensures Leads(Racing(PROBING, FAILING, Starting(Prepare(1)), [0, 0]))
  {
    hide Leads;
    LeadsToPrepared();
    var preparing := Starting(Prepare(1));
    TaskGoes(Racing(PROBING, preparing, Begin(3), [0, 0]), 2, Advance,
             Racing(PROBING, preparing, Starting(Acquire), [0, 0]));
    TaskGoes(Racing(PROBING, preparing, Starting(Acquire), [0, 0]), 2, Advance,
             Racing(PROBING, preparing, preparing, [0, 0]));
    var record := Starting(Record(1, Failed));
    TaskGoes(Racing(PROBING, preparing, preparing, [0, 0]), 1, PrepareFailed(false),
             Racing(PROBING, record, preparing, [0, 0]));
    TaskGoes(Racing(PROBING, record, preparing, [0, 0]), 1, Forget(false), Racing(PROBING, FAILING, preparing, [0, 0]));
  }

  /** The other promotes it and starts its live session. */
  function Serving(f: Fields, first: TaskPc, second: TaskPc, live: TaskPc): State {
    State(f, [], [Task(0, Ended), Task(0, first), Task(0, second), Task(0, live)], [0, 0])
  }

  lemma LeadsToServing()
    ensures Leads(Serving(LIVE, FAILING, Starting(Return(Started)), LiveBegun(1)))
  {
    hide Leads;
    LeadsToFailure();
    TaskConfirms(Racing(PROBING, FAILING, Starting(Prepare(1)), [0, 0]), 2, 1,
                 Racing(PROBING, FAILING, Starting(Promote(1)), [0, 0]));
    TaskGoes(Racing(PROBING, FAILING, Starting(Promote(1)), [0, 0]), 2, Advance,
             Racing(LIVE, FAILING, Starting(Check(1)), [0, 0]));
    assert 2 in LIVE.clients;
    TaskGoes(Racing(LIVE, FAILING, Starting(Check(1)), [0, 0]), 2, Advance,
             Racing(LIVE, FAILING, Starting(StartTask(1)), [0, 0]));
    LeadsOnBy(Racing(LIVE, FAILING, Starting(StartTask(1)), [0, 0]), TaskMove(2, Advance),
              Serving(LIVE, FAILING, Starting(Return(Started)), LiveBegun(1)));
  }

  /** LiveIsPresentUntilFailure has its exception: a room with a client, the live session of an ended generation
      in place and nobody to run it, in which no client is served until all have left. */
  lemma ClientMayBeStranded()
    ensures exists moves :: Run(INITIAL, moves).Some? && Stranded(Run(INITIAL, moves).value)
  {
    hide Leads;
    LeadsToServing();
    var failed := LIVE.(generation := 1, clients := map[]);
    TaskGoes(Serving(LIVE, FAILING, Starting(Return(Started)), LiveBegun(1)), 1, Advance,
             Serving(failed, Ended, Starting(Return(Started)), LiveBegun(1)));
    TaskGoes(Serving(failed, Ended, Starting(Return(Started)), LiveBegun(1)), 2, Advance,
             Serving(failed, Ended, Ended, LiveBegun(1)));
    TaskGoes(Serving(failed, Ended, Ended, LiveBegun(1)), 3, Advance, Serving(failed, Ended, Ended, Ended));
    var end := Serving(failed.(clients := map[4 := 1]), Ended, Ended, Ended);
    LeadsOnBy(Serving(failed, Ended, Ended, Ended), Join(4), end);
    assert 4 in end.fields.clients;
    LeadsTo(end);
  }

  lemma LeadsTo(u: State)
    requires Leads(u)
    ensures exists moves :: Run(INITIAL, moves) == Some(u)
  {
  }

  // ----- a retired loop that promotes

  function WithLoop(f: Fields, loop: Loop, second: TaskPc): State {
    State(f, [loop], [Task(0, Ended), Task(0, Ended), Task(0, second)], [0, 0])
  }

  const POLLING := PROBING.(statusUnknown := true, monitor := Some(0))

  lemma LeadsToUnknown()
    ensures Leads(Racing(PROBING, Starting(Return(Unknown)), Begin(3), [0, 0]))
  {
    hide Leads;
    LeadsToPrepared();
    var record, unknown := Starting(Record(1, Unknown)), Starting(Return(Unknown));
    TaskGoes(Racing(PROBING, Starting(Prepare(1)), Begin(3), [0, 0]), 1, PrepareFailed(true),
             Racing(PROBING, record, Begin(3), [0, 0]));
    TaskGoes(Racing(PROBING, record, Begin(3), [0, 0]), 1, Forget(false), Racing(PROBING, unknown, Begin(3), [0, 0]));
  }

  /** The first start does not learn the status and installs a loop. */
  lemma LeadsToLoop()
    ensures Leads(WithLoop(POLLING.(starting := false), Loop(0, 0, 0, Installed), Begin(3)))
  {
    hide Leads;
    LeadsToUnknown();
    assert 2 in PROBING.clients;
    LeadsOnBy(Racing(PROBING, Starting(Return(Unknown)), Begin(3), [0, 0]), TaskMove(1, Advance),
              WithLoop(POLLING.(starting := false), Loop(0, 0, 0, Installed), Begin(3)));
  }

  const ACQUIRING := Loop(0, 0, 0, Session(Acquire))

  lemma LeadsToPolling()
    ensures Leads(WithLoop(POLLING, ACQUIRING, Begin(3)))
  {
    hide Leads;
    LeadsToLoop();
    assert 2 in POLLING.clients;
    var f := POLLING.(starting := false);
    LoopGoes(WithLoop(f, Loop(0, 0, 0, Installed), Begin(3)), 0, Launch,
             WithLoop(f, Loop(0, 0, 0, Selecting), Begin(3)));
    LoopGoes(WithLoop(f, Loop(0, 0, 0, Selecting), Begin(3)), 0, PollTick, WithLoop(POLLING, ACQUIRING, Begin(3)));
  }

  /** While it begins to probe, the second start goes on with the instance. */
  lemma LeadsToPromoting()
    ensures Leads(WithLoop(POLLING, ACQUIRING, Starting(Promote(1))))
  {
    hide Leads;
    LeadsToPolling();
    TaskGoes(WithLoop(POLLING, ACQUIRING, Begin(3)), 2, Advance, WithLoop(POLLING, ACQUIRING, Starting(Acquire)));
    TaskGoes(WithLoop(POLLING, ACQUIRING, Starting(Acquire)), 2, Advance,
             WithLoop(POLLING, ACQUIRING, Starting(Prepare(1))));
    TaskConfirms(WithLoop(POLLING, ACQUIRING, Starting(Prepare(1))), 2, 1,
                 WithLoop(POLLING, ACQUIRING, Starting(Promote(1))));
  }

  function Retiring(f: Fields, loop: LoopPc, live: TaskPc, born: seq<nat>): State {
    State(f, [Loop(0, 1, 0, loop)],
          [Task(0, Ended), Task(0, Ended), Task(0, Starting(Return(Started))), Task(0, live)], born)
  }

  /** The promotion retires the loop; the live session connects. */
  lemma LeadsToConnected()
    ensures Leads(Retiring(LIVE, Session(Acquire), LiveConnected(1), [0, 0]))
  {
    hide Leads;
    LeadsToPromoting();
    var retired := ACQUIRING.(stops := 1);
    LeadsOnBy(WithLoop(POLLING, ACQUIRING, Starting(Promote(1))), TaskMove(2, Advance),
              WithLoop(LIVE, retired, Starting(Check(1))));
    assert 2 in LIVE.clients;
    TaskGoes(WithLoop(LIVE, retired, Starting(Check(1))), 2, Advance, WithLoop(LIVE, retired, Starting(StartTask(1))));
    LeadsOnBy(WithLoop(LIVE, retired, Starting(StartTask(1))), TaskMove(2, Advance),
              Retiring(LIVE, Session(Acquire), LiveBegun(1), [0, 0]));
    TaskGoes(Retiring(LIVE, Session(Acquire), LiveBegun(1), [0, 0]), 3, Advance,
             Retiring(LIVE, Session(Acquire), LiveRunning(1), [0, 0]));
    TaskGoes(Retiring(LIVE, Session(Acquire), LiveRunning(1), [0, 0]), 3, Ready,
             Retiring(LIVE, Session(Acquire), LiveConnected(1), [0, 0]));
  }

  /** RetiredLoopPromotes is no empty case: the loop retired by the promotion of another instance goes on in its
      startLiveSession, builds its own and is about to put it in the place of a connected live session. */
  lemma RetiredLoopMayPromote()
    ensures exists moves ::
              Run(INITIAL, moves).Some? &&
              var s := Run(INITIAL, moves).value;
              && Retired(s, 0) && PromotesNow(s.fields, s.loops[0]) && Enabled(s, LoopMove(0, Advance))
              && s.fields.live == Some(1) && Task(0, LiveConnected(1)) in s.tasks
                && s.loops[0].pc == Session(Promote(2))
  {
    hide Leads;
    LeadsToConnected();
    var probing := LIVE.(probe := Some(2));
    LoopBuilds(Retiring(LIVE, Session(Acquire), LiveConnected(1), [0, 0]), 0,
               Retiring(probing, Session(Prepare(2)), LiveConnected(1), [0, 0, 0]));
    var end := Retiring(probing, Session(Promote(2)), LiveConnected(1), [0, 0, 0]);
    LoopConfirms(Retiring(probing, Session(Prepare(2)), LiveConnected(1), [0, 0, 0]), 0, 2, end);
    LeadsTo(end);
    assert end.tasks[3] == Task(0, LiveConnected(1));
  }
}
