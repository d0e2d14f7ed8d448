/**
 The listener of `lifecycle.go`, `reconnect.go`, `websocket_connection.go`, `heartbeat.go` and
 `live_status.go`: a single-use object that dials, reads and redials one upstream connection at a time,
 while heartbeat goroutines, `Close` and `Dispose` run beside it.

 `Fields` is the state guarded by `mu`, and each critical section of the code is a function on it.
 `Listener` is the object with those sections as methods. `Act` says what one step of a goroutine does,
 and `Step` runs it in the state of all goroutines and all handles: upstream connections and the stop
 channels of heartbeat loops.
 */
module Listener {
  import opened Backoff
  import opened Options

  type HandleId = nat

  datatype Phase = New | Running | Closing | Closed

  datatype Fields = Fields(
    phase: Phase, manualClose: bool, cancelled: bool,
    conn: Option<HandleId>, heartbeat: Option<HandleId>,
    isLive: bool, known: bool, offline: nat, failures: nat,
    readyClosed: bool, readyCloses: nat, released: bool, releases: nat)

  // ----- the critical sections

  datatype Started = StartOk | ErrClosed | ErrAlreadyStarted

  function BeginStartSection(f: Fields): (Fields, Started) {
    match f.phase
    case New =>
      if f.manualClose || f.cancelled then (f.(phase := Closed), ErrClosed)
      else (f.(phase := Running, manualClose := false), StartOk)
    case Running => (f, ErrAlreadyStarted)
    case Closing => (f, ErrAlreadyStarted)
    case Closed => (f, ErrClosed)
  }

  function BeginCloseSection(f: Fields): Fields {
    f.(manualClose := true,
       phase := match f.phase case New => Closed case Running => Closing case p => p)
  }

  function FinishSection(f: Fields): Fields {
    f.(phase := Closed)
  }

  function LiveSection(f: Fields, live: bool): Fields {
    f.(isLive := live, known := true, offline := if live then 0 else f.offline)
  }

  function ClearSection(f: Fields): Fields {
    f.(isLive := false, known := false)
  }

  /** `Record` of the guard: the second offline result in a row confirms. */
  function GuardSection(offline: nat, live: bool): (nat, bool) {
    if live then (0, false) else (offline + 1, offline + 1 >= 2)
  }

  function StatusCheckSection(f: Fields, live: bool): (Fields, bool) {
    var (offline, confirmed) := GuardSection(f.offline, live);
    if confirmed then (f.(offline := offline, isLive := false, known := true), true)
    else if live then (f.(offline := offline, isLive := true, known := true), false)
    else (f.(offline := offline), false)
  }

  function TakeConnSection(f: Fields): (Fields, Option<HandleId>) {
    (f.(conn := None), f.conn)
  }

  function TakeHeartbeatSection(f: Fields): (Fields, Option<HandleId>) {
    (f.(heartbeat := None), f.heartbeat)
  }

  function StoreHeartbeatSection(f: Fields, stop: HandleId): Fields {
    f.(heartbeat := Some(stop), offline := 0)
  }

  function ReadySection(f: Fields): Fields {
    if f.readyClosed then f else f.(readyClosed := true, readyCloses := f.readyCloses + 1)
  }

  function ReleaseSection(f: Fields): Fields {
    if f.released then f else f.(released := true, releases := f.releases + 1)
  }

  function FailureSection(f: Fields): (Fields, nat) {
    (f.(failures := f.failures + 1), f.failures + 1)
  }

  const FRESH := Fields(New, false, false, None, None, false, false, 0, 0, false, 0, false, 0)

  /** `liveStatusGuard`. */
  class LiveStatusGuard {
    var offlineConfirmations: nat

    constructor ()
      ensures offlineConfirmations == 0
    {
      offlineConfirmations := 0;
    }

    method Record(isLive: bool) returns (confirmed: bool)
      modifies this
      ensures (offlineConfirmations, confirmed) == GuardSection(old(offlineConfirmations), isLive)
    {
      if isLive {
        offlineConfirmations := 0;
        return false;
      }
      offlineConfirmations := offlineConfirmations + 1;
      return offlineConfirmations >= 2;
    }

    method Reset()
      modifies this
      ensures offlineConfirmations == 0
    {
      offlineConfirmations := 0;
    }
  }

  /** The object with its critical sections as methods. */
  class Listener {
    var phase: Phase
    var manualClose: bool
    var cancelled: bool
    var conn: Option<HandleId>
    var heartbeat: Option<HandleId>
    var isLive: bool
    var known: bool
    const guard: LiveStatusGuard
    var failures: nat
    var readyClosed: bool
    var readyCloses: nat
    var released: bool
    var releases: nat

    function View(): Fields
      reads this, guard
    {
      Fields(phase, manualClose, cancelled, conn, heartbeat, isLive, known, guard.offlineConfirmations, failures,
             readyClosed, readyCloses, released, releases)
    }

    constructor ()
      ensures View() == FRESH && fresh(guard)
    {
      phase, manualClose, cancelled, conn, heartbeat := New, false, false, None, None;
      isLive, known, failures := false, false, 0;
      readyClosed, readyCloses, released, releases := false, 0, false, 0;
      guard := new LiveStatusGuard();
    }

    method BeginStart() returns (r: Started)
      modifies this
      ensures (View(), r) == BeginStartSection(old(View()))
    {
      match phase {
        case New =>
          if manualClose || cancelled {
            phase := Closed;
            return ErrClosed;
          }
          phase := Running;
          manualClose := false;
          return StartOk;
        case Running => return ErrAlreadyStarted;
        case Closing => return ErrAlreadyStarted;
        case Closed => return ErrClosed;
      }
    }

    method BeginClose()
      modifies this
      ensures View() == BeginCloseSection(old(View()))
    {
      manualClose := true;
      match phase {
        case New => phase := Closed;
        case Running => phase := Closing;
        case Closing =>
        case Closed =>
      }
    }

    method FinishLifecycle()
      modifies this
      ensures View() == FinishSection(old(View()))
    {
      phase := Closed;
    }

    method SignalClose()
      modifies this
      ensures View() == old(View()).(cancelled := true)
    {
      cancelled := true;
    }

    method SetLiveStatus(status: bool)
      modifies this, guard
      ensures View() == LiveSection(old(View()), status)
    {
      isLive := status;
      known := true;
      if status { guard.Reset(); }
    }

    method ClearLiveStatus()
      modifies this
      ensures View() == ClearSection(old(View()))
    {
      isLive := false;
      known := false;
    }

    method ShouldCloseAfterStatusCheck(live: bool) returns (shouldClose: bool)
      modifies this, guard
      ensures (View(), shouldClose) == StatusCheckSection(old(View()), live)
    {
      shouldClose := guard.Record(live);
      if shouldClose {
        isLive := false;
        known := true;
      } else if live {
        isLive := true;
        known := true;
      }
    }

    /** The swap at the start of reconnect, closeCurrentConnection and cleanup. */
    method TakeConnection() returns (taken: Option<HandleId>)
      modifies this
      ensures (View(), taken) == TakeConnSection(old(View()))
    {
      taken := conn;
      conn := None;
    }

    method InstallConnection(dialed: HandleId)
      modifies this
      ensures View() == old(View()).(conn := Some(dialed))
    {
      conn := Some(dialed);
    }

    method TakeHeartbeat() returns (taken: Option<HandleId>)
      modifies this
      ensures (View(), taken) == TakeHeartbeatSection(old(View()))
    {
      taken := heartbeat;
      heartbeat := None;
    }

    method StoreHeartbeat(stop: HandleId)
      modifies this, guard
      ensures View() == StoreHeartbeatSection(old(View()), stop)
    {
      heartbeat := Some(stop);
      guard.Reset();
    }

    method MarkReady()
      modifies this
      ensures View() == ReadySection(old(View()))
    {
      if readyClosed { return; }
      readyCloses := readyCloses + 1;
      readyClosed := true;
    }

    method RecordReconnectFailure() returns (count: nat)
      modifies this
      ensures (View(), count) == FailureSection(old(View()))
    {
      failures := failures + 1;
      return failures;
    }

    method ResetReconnectTracking()
      modifies this
      ensures View() == old(View()).(failures := 0)
    {
      failures := 0;
    }

    method ReleaseResources()
      modifies this
      ensures View() == ReleaseSection(old(View()))
    {
      if !released {
        released := true;
        releases := releases + 1;
      }
    }
  }

  // ----- goroutines

  /** Dialing and setting up a connection. `first` tells the dial of startWebSocket from a dial of reconnect. */
  datatype ConnectPc =
    | OfflineCheck
    | Dial(first: bool, attempt: nat)
    | Install(first: bool, dialed: HandleId)
    | SetLive(first: bool)
    | MarkReady(first: bool)
    | StoreHeartbeat(first: bool)
    | Spawn(first: bool, stop: HandleId)
    | ResetTracking
    | ReconnectEnter
    | ReconnectTake
    | CloseOld(dropped: Option<HandleId>)

  /** The read loop and handleReadError. */
  datatype ReadPc =
    | LoopTest
    | Receive
    | ErrManual(err: ReadError)
    | ErrLive(err: ReadError)
    | Fetch(err: ReadError)
    | Check(err: ReadError, live: bool)
    | Decide(err: ReadError)
    | Record(reason: Reason, base: int, allowUARefresh: bool)
    | Waiting(plan: Plan, jitter: nat)

  datatype CleanPc =
    | CleanupTake
    | CleanupClose(dropped: Option<HandleId>)
    | CleanupRelease
    | Finish

  /** What follows a call of stopHeartbeatLoop. */
  datatype After =
    | StoreNext(first: bool)
    | CloseOldNext(dropped: Option<HandleId>)
    | CleanupNext
    | TakeConnNext(dispose: bool)

  datatype StopPc =
    | Swap(after: After)
    | CloseStop(after: After, stopping: Option<HandleId>)

  /** Outside any call, or in Close or Dispose. */
  datatype CallPc =
    | Idle
    | CloseLive(dispose: bool)
    | CloseSignal(dispose: bool)
    | CloseTake(dispose: bool)
    | CloseConn(dropped: Option<HandleId>, dispose: bool)
    | DisposeRelease

  /** A heartbeat goroutine. */
  datatype BeatPc =
    | BeatCheck(stop: HandleId)
    | BeatSend(stop: HandleId)
    | BeatWait(stop: HandleId)
    | BeatTake
    | BeatClose(dropped: Option<HandleId>)
    | BeatDone

  /** Where a goroutine is. */
  datatype Pc =
    | Connecting(c: ConnectPc)
    | Reading(r: ReadPc)
    | Cleaning(k: CleanPc)
    | Stopping(s: StopPc)
    | Calling(l: CallPc)
    | Beating(b: BeatPc)
  {
    /** A step of Start after a successful beginStart. */
    predicate InStart() {
      Connecting? || Reading? || Cleaning? || (Stopping? && !s.after.TakeConnNext?)
    }

    /** The connection that this goroutine alone is responsible for. */
    function Conn(): Option<HandleId> {
      match this
      case Connecting(Install(_, dialed)) => Some(dialed)
      case Connecting(CloseOld(dropped)) => dropped
      case Cleaning(CleanupClose(dropped)) => dropped
      case Stopping(stop) => if stop.after.CloseOldNext? then stop.after.dropped else None
      case Calling(CloseConn(dropped, _)) => dropped
      case Beating(BeatClose(dropped)) => dropped
      case _ => None
    }

    /** The stop channel that this goroutine alone is about to close. */
    function Stop(): Option<HandleId> {
      if Stopping? && s.CloseStop? then s.stopping else None
    }
  }

  /** What a goroutine does next: the next step of its call, a new call, or an outcome of the outside world. */
  datatype Action =
    | Advance
    | CallStart
    | CallClose(dispose: bool)
    | DialOk
    | DialFailed(giveUp: bool)
    | Received(liveEnd: bool)
    | ReadFailed(err: ReadError)
    | StatusUnavailable
    | StatusIs(live: bool)
    | Jitter(jitter: nat, configuredCookie: bool)
    | WaitCut
    | SendFailed
    | Stopped

  datatype Kind = Connection | StopChannel

  /** The effect of one step: the new fields, where the goroutine goes, the handle it closes, the kind of
      handle it creates, and the goroutine it starts. */
  datatype Effect = Effect(fields: Fields, pc: Pc, closed: Option<HandleId>, made: Option<Kind>, spawned: Option<Pc>)

  function Go(f: Fields, pc: Pc): Effect {
    Effect(f, pc, None, None, None)
  }

  const MAX_RETRIES: nat := 5

  /** The deferred cleanup begins by stopping the heartbeat. */
  const LEAVE := Stopping(Swap(CleanupNext))

  /** Start up to its read loop, startWebSocket, and reconnect with its retry loop. */
  function ActConnect(f: Fields, c: ConnectPc, a: Action, next: HandleId): Option<Effect> {
    match c
    case OfflineCheck =>
      if a.Advance? then Some(Go(f, if f.known && !f.isLive then LEAVE else Connecting(Dial(true, 0)))) else None
    case Dial(first, attempt) =>
      if a.DialOk? then Some(Effect(f, Connecting(Install(first, next)), None, Some(Connection), None))
      else if a.DialFailed? then
        Some(Go(f, if first then (if a.giveUp then LEAVE else Connecting(ReconnectEnter))
                   else if a.giveUp || attempt + 1 >= MAX_RETRIES then LEAVE else Connecting(Dial(false, attempt + 1))))
      else None
    case Install(first, dialed) =>
      if a.Advance? then Some(Go(f.(conn := Some(dialed)), Connecting(SetLive(first)))) else None
    case SetLive(first) => if a.Advance? then Some(Go(LiveSection(f, true), Connecting(MarkReady(first)))) else None
    case MarkReady(first) => if a.Advance? then Some(Go(ReadySection(f), Stopping(Swap(StoreNext(first))))) else None
    case StoreHeartbeat(first) =>
      if a.Advance? then Some(Effect(StoreHeartbeatSection(f, next), Connecting(Spawn(first, next)), None,
                                     Some(StopChannel), None))
      else None
    case Spawn(first, stop) =>
      if a.Advance? then
        Some(Effect(f, if first then Reading(LoopTest) else Connecting(ResetTracking), None, None,
                    Some(Beating(BeatCheck(stop)))))
      else None
    case ResetTracking => if a.Advance? then Some(Go(f.(failures := 0), Reading(LoopTest))) else None
    case ReconnectEnter =>
      if a.Advance? then Some(Go(f, if f.manualClose then LEAVE else Connecting(ReconnectTake))) else None
    case ReconnectTake =>
      if a.Advance? then (var (g, dropped) := TakeConnSection(f); Some(Go(g, Stopping(Swap(CloseOldNext(dropped))))))
        else None
    case CloseOld(dropped) =>
      if a.Advance? then Some(Effect(f, Connecting(Dial(false, 0)), dropped, None, None)) else None
  }

  function ActRead(f: Fields, r: ReadPc, a: Action): Option<Effect> {
    match r
    case LoopTest => if a.Advance? then Some(Go(f, if f.isLive then Reading(Receive) else LEAVE)) else None
    case Receive =>
      if a.Received? then Some(Go(if a.liveEnd then LiveSection(f, false) else f, Reading(LoopTest)))
      else if a.ReadFailed? then Some(Go(f, Reading(ErrManual(a.err)))) else None
    case ErrManual(err) =>
      if a.Advance? then Some(Go(f, if f.manualClose then LEAVE else Reading(ErrLive(err)))) else None
    case ErrLive(err) => if a.Advance? then Some(Go(f, if f.isLive then Reading(Fetch(err)) else LEAVE)) else None
    case Fetch(err) =>
      if a.StatusUnavailable? then Some(Go(f, Reading(Decide(err))))
      else if a.StatusIs? then Some(Go(f, Reading(Check(err, a.live)))) else None
    case Check(err, live) =>
      if a.Advance? then
        (var (g, shouldClose) := StatusCheckSection(f, live);
         Some(Go(g, if shouldClose then LEAVE else Reading(Decide(err)))))
      else None
    case Decide(err) =>
      if a.Advance? then
        (var d := ReconnectDecision(f.manualClose, err);
         Some(Go(f, if d.Retry? then Reading(Record(d.reason, d.base, d.allowUARefresh)) else LEAVE)))
      else None
    case Record(reason, base, allowUARefresh) =>
      if a.Jitter? && a.jitter < MAX_JITTER then
        (var (g, count) := FailureSection(f);
         Some(Go(g, Reading(Waiting(PlanFor(reason, count, base, allowUARefresh, a.configuredCookie), a.jitter)))))
      else None
    case Waiting(_, _) =>
      if a.Advance? then Some(Go(f, Connecting(ReconnectEnter)))
      else if a.WaitCut? && f.cancelled then Some(Go(f, LEAVE)) else None
  }

  function ActClean(f: Fields, k: CleanPc, a: Action): Option<Effect> {
    if !a.Advance? then None
    else
      match k
      case CleanupTake => (var (g, dropped) := TakeConnSection(f); Some(Go(g, Cleaning(CleanupClose(dropped)))))
      case CleanupClose(dropped) => Some(Effect(f, Cleaning(CleanupRelease), dropped, None, None))
      case CleanupRelease => Some(Go(ReleaseSection(f), Cleaning(Finish)))
      case Finish => Some(Go(FinishSection(f), Calling(Idle)))
  }

  function Resume(after: After): Pc {
    match after
    case StoreNext(first) => Connecting(StoreHeartbeat(first))
    case CloseOldNext(dropped) => Connecting(CloseOld(dropped))
    case CleanupNext => Cleaning(CleanupTake)
    case TakeConnNext(dispose) => Calling(CloseTake(dispose))
  }

  function ActStop(f: Fields, s: StopPc, a: Action): Option<Effect> {
    if !a.Advance? then None
    else
      match s
      case Swap(after) => (var (g, stop) := TakeHeartbeatSection(f); Some(Go(g, Stopping(CloseStop(after, stop)))))
      case CloseStop(after, stopping) => Some(Effect(f, Resume(after), stopping, None, None))
  }

  function ActCall(f: Fields, l: CallPc, a: Action): Option<Effect> {
    match l
    case Idle =>
      if a.CallStart? then (var (g, r) := BeginStartSection(f);
                            Some(Go(g, if r.StartOk? then Connecting(OfflineCheck) else Calling(Idle))))
      else if a.CallClose? then Some(Go(BeginCloseSection(f), Calling(CloseLive(a.dispose)))) else None
    case CloseLive(dispose) =>
      if a.Advance? then Some(Go(LiveSection(f, false), Calling(CloseSignal(dispose)))) else None
    case CloseSignal(dispose) =>
      if a.Advance? then Some(Go(f.(cancelled := true), Stopping(Swap(TakeConnNext(dispose))))) else None
    case CloseTake(dispose) =>
      if a.Advance? then (var (g, dropped) := TakeConnSection(f); Some(Go(g, Calling(CloseConn(dropped, dispose)))))
        else None
    case CloseConn(dropped, dispose) =>
      if a.Advance? then Some(Effect(f, Calling(if dispose then DisposeRelease else Idle), dropped, None, None))
        else None
    case DisposeRelease => if a.Advance? then Some(Go(ReleaseSection(f), Calling(Idle))) else None
  }

  /** `stopped` tells whether the goroutine's stop channel is closed. */
  function ActBeat(f: Fields, b: BeatPc, a: Action, stopped: bool): Option<Effect> {
    match b
    case BeatCheck(stop) =>
      if a.Advance? then Some(Go(f, Beating(if f.manualClose || !f.isLive then BeatDone else BeatSend(stop))))
        else None
    case BeatSend(stop) =>
      if a.Advance? then Some(Go(f, Beating(BeatWait(stop)))) else if a.SendFailed? then Some(Go(f, Beating(BeatTake)))
        else None
    case BeatWait(stop) =>
      if a.Advance? then Some(Go(f, Beating(BeatCheck(stop))))
      else if a.Stopped? && stopped then Some(Go(f, Beating(BeatDone))) else None
    case BeatTake =>
      if a.Advance? then (var (g, dropped) := TakeConnSection(f); Some(Go(g, Beating(BeatClose(dropped))))) else None
    case BeatClose(dropped) => if a.Advance? then Some(Effect(f, Beating(BeatDone), dropped, None, None)) else None
    case BeatDone => None
  }

  function Act(f: Fields, pc: Pc, a: Action, next: HandleId, stopped: bool): Option<Effect> {
    match pc
    case Connecting(c) => ActConnect(f, c, a, next)
    case Reading(r) => ActRead(f, r, a)
    case Cleaning(k) => ActClean(f, k, a)
    case Stopping(s) => ActStop(f, s, a)
    case Calling(l) => ActCall(f, l, a)
    case Beating(b) => ActBeat(f, b, a, stopped)
  }

  // ----- all goroutines together

  datatype Handle = Handle(kind: Kind, closes: nat)

  datatype State = State(fields: Fields, handles: seq<Handle>, threads: seq<Pc>)

  function StopClosed(s: State, pc: Pc): bool {
    pc.Beating? && pc.b.BeatWait? && pc.b.stop < |s.handles| && s.handles[pc.b.stop].closes > 0
  }

  function ThreadEffect(s: State, t: nat, a: Action): Option<Effect>
    requires t < |s.threads|
  {
    Act(s.fields, s.threads[t], a, |s.handles|, StopClosed(s, s.threads[t]))
  }

  /** A move of goroutine `thread`, or a change of the live status by some other caller of the public API. */
  datatype Move = Move(thread: nat, action: Action) | StatusSet(live: bool) | StatusCleared

  predicate Enabled(s: State, m: Move) {
    m.Move? ==> m.thread < |s.threads| && ThreadEffect(s, m.thread, m.action).Some?
  }

  function CloseHandle(hs: seq<Handle>, h: Option<HandleId>): seq<Handle> {
    if h.Some? && h.value < |hs| then hs[h.value := hs[h.value].(closes := hs[h.value].closes + 1)] else hs
  }

  function Apply(s: State, t: nat, e: Effect): State
    requires t < |s.threads|
  {
    State(e.fields,
          CloseHandle(s.handles, e.closed) + (if e.made.Some? then [Handle(e.made.value, 0)] else []),
          s.threads[t := e.pc] + (if e.spawned.Some? then [e.spawned.value] else []))
  }

  function Step(s: State, m: Move): State
    requires Enabled(s, m)
  {
    match m
    case Move(t, a) => Apply(s, t, ThreadEffect(s, t, a).value)
    case StatusSet(live) => s.(fields := LiveSection(s.fields, live))
    case StatusCleared => s.(fields := ClearSection(s.fields))
  }

  /** A new listener and any number of goroutines that may call it. */
  function Initial(callers: nat): State {
    State(FRESH, [], seq(callers, _ => Calling(Idle)))
  }

  /** The state after a run, if every move of it was possible. */
  function Run(s: State, moves: seq<Move>): Option<State> {
    if moves == [] then Some(s)
    else
      match Run(s, moves[..|moves| - 1])
      case None => None
      case Some(u) =>
        var m := moves[|moves| - 1];
        if Enabled(u, m) then Some(Step(u, m)) else None
  }

  // ----- who is responsible for a handle

  function Slots(f: Fields, h: HandleId): nat {
    (if f.conn == Some(h) then 1 else 0) + (if f.heartbeat == Some(h) then 1 else 0)
  }

  function Carry(pc: Pc, h: HandleId): nat {
    (if pc.Conn() == Some(h) then 1 else 0) + (if pc.Stop() == Some(h) then 1 else 0)
  }

  function Carriers(threads: seq<Pc>, h: HandleId): nat {
    if threads == [] then 0 else Carriers(threads[..|threads| - 1], h) + Carry(threads[|threads| - 1], h)
  }

  function Closes(s: State, h: HandleId): nat {
    if h < |s.handles| then s.handles[h].closes else 0
  }

  /** Every connection and every stop channel ever made has been closed once, or is stored in its field, or
      is carried by one goroutine: exactly one of the three. Other ids occur nowhere. */
  ghost predicate Accounted(s: State) {
    forall h: HandleId :: Closes(s, h) + Slots(s.fields, h) + Carriers(s.threads, h) == if h < |s.handles| then 1 else 0
  }

  // ----- what goroutines know

  ghost predicate OneMain(s: State) {
    && (forall t :: 0 <= t < |s.threads| && s.threads[t].InStart() ==> s.fields.phase in {Running, Closing})
    && (forall t, u ::
          0 <= t < |s.threads| && 0 <= u < |s.threads| && s.threads[t].InStart() && s.threads[u].InStart() ==> t == u)
  }

  /** Outside Start nothing is stored, and each ledger counts at most one. */
  ghost predicate Settled(f: Fields) {
    && (f.phase in {New, Closed} ==> f.conn.None? && f.heartbeat.None?)
    && (f.phase.New? ==> f.failures == 0 && f.offline == 0)
    && f.readyCloses == (if f.readyClosed then 1 else 0)
    && f.releases == (if f.released then 1 else 0)
  }

  predicate NothingStored(f: Fields) {
    f.conn.None? && f.heartbeat.None?
  }

  predicate CountersZero(f: Fields) {
    f.failures == 0 && f.offline == 0
  }

  predicate ShortWait(reason: Reason, base: int) {
    BASE_DELAY <= Delay(reason, base, 1) <= 5 * SECOND
  }

  predicate FreshIf(first: bool, f: Fields) {
    first ==> f.failures == 0
  }

  predicate ConnectKnows(f: Fields, c: ConnectPc) {
    match c
    case OfflineCheck => NothingStored(f) && CountersZero(f)
    case Dial(first, _) => NothingStored(f) && FreshIf(first, f)
    case Install(first, _) => NothingStored(f) && FreshIf(first, f)
    case SetLive(first) => f.heartbeat.None? && FreshIf(first, f)
    case MarkReady(first) => f.heartbeat.None? && f.offline == 0 && FreshIf(first, f)
    case StoreHeartbeat(first) => f.heartbeat.None? && FreshIf(first, f)
    case Spawn(first, _) => f.offline == 0 && FreshIf(first, f)
    case ResetTracking => f.offline == 0
    case ReconnectEnter => true
    case ReconnectTake => true
    case CloseOld(_) => NothingStored(f)
  }

  predicate ReadKnows(f: Fields, r: ReadPc) {
    match r
    case Decide(_) => f.failures == 0
    case Record(reason, base, _) => f.failures == 0 && ShortWait(reason, base)
    case Waiting(plan, jitter) =>
      f.failures == 1 && BASE_DELAY <= plan.delay <= 5 * SECOND && jitter < MAX_JITTER && !plan.rebuildHttp
    case _ => CountersZero(f)
  }

  predicate StopKnows(f: Fields, s: StopPc) {
    && (s.CloseStop? && !s.after.TakeConnNext? ==> f.heartbeat.None?)
    && match s.after
       case StoreNext(first) => FreshIf(first, f)
       case CloseOldNext(_) => f.conn.None?
       case _ => true
  }

  /** What the goroutine of Start knows at each of its steps, whatever the others do meanwhile. */
  predicate Knows(f: Fields, pc: Pc) {
    match pc
    case Connecting(c) => ConnectKnows(f, c)
    case Reading(r) => ReadKnows(f, r)
    case Cleaning(k) => f.heartbeat.None? && (!k.CleanupTake? ==> f.conn.None?)
    case Stopping(s) => StopKnows(f, s)
    case Calling(_) => true
    case Beating(_) => true
  }

  ghost predicate Inv(s: State) {
    && Accounted(s) && OneMain(s) && Settled(s.fields)
    && (forall t :: 0 <= t < |s.threads| ==> Knows(s.fields, s.threads[t]))
  }

  // ----- one step of one goroutine

  /** A step hands each handle on: the fields and the goroutine together change what they have of it only
      by closing or making it. */
  predicate TokensKept(f: Fields, pc: Pc, e: Effect, next: HandleId, h: HandleId) {
    && Slots(e.fields, h) + Carry(e.pc, h) + (if e.closed == Some(h) then 1 else 0)
       == Slots(f, h) + Carry(pc, h) + (if e.made.Some? && h == next then 1 else 0)
    && (e.spawned.Some? ==> Carry(e.spawned.value, h) == 0)
    && (e.closed == Some(h) ==> Carry(pc, h) > 0)
  }

  /** What a goroutine other than Start's leaves alone. */
  predicate Frame(f: Fields, g: Fields) {
    g.conn in {f.conn, None} && g.heartbeat in {f.heartbeat, None} && g.offline in {f.offline, 0}
      && g.failures == f.failures
  }

  /** A step of Start's goroutine keeps it in Start until its last one; any other step leaves Start's
      phases alone and enters Start only from phase New. */
  predicate MainKept(f: Fields, pc: Pc, e: Effect) {
    && (e.spawned.Some? ==> e.spawned.value.Beating?)
    && (if pc.InStart() then (if e.pc.InStart() then e.fields.phase == f.phase else e.fields.phase.Closed?)
        else
          && (f.phase in {Running, Closing} ==> e.fields.phase in {Running, Closing} && !e.pc.InStart())
          && (e.pc.InStart() ==> e.fields.phase.Running?))
  }

  lemma ConnectStep(f: Fields, c: ConnectPc, a: Action, next: HandleId)
    requires Settled(f) && ActConnect(f, c, a, next).Some?
    requires f.phase in {Running, Closing}
    ensures var e := ActConnect(f, c, a, next).value; MainKept(f, Connecting(c), e) && Settled(e.fields)
  {
    hide Knows;
  }

  lemma ConnectLearns(f: Fields, c: ConnectPc, a: Action, next: HandleId)
    requires ConnectKnows(f, c) && ActConnect(f, c, a, next).Some?
    ensures var e := ActConnect(f, c, a, next).value; Knows(e.fields, e.pc)
  {
  }

  lemma ConnectTokens(f: Fields, c: ConnectPc, a: Action, next: HandleId, h: HandleId)
    requires Knows(f, Connecting(c)) && ActConnect(f, c, a, next).Some?
    ensures TokensKept(f, Connecting(c), ActConnect(f, c, a, next).value, next, h)
  {
  }

  lemma DecisionWaitsShortly(manualClose: bool, err: ReadError)
    ensures var d := ReconnectDecision(manualClose, err); d.Retry? ==> ShortWait(d.reason, d.base)
  {
  }

  lemma PlanWaitsShortly(reason: Reason, base: int, allowUARefresh: bool, configuredCookie: bool)
    requires ShortWait(reason, base)
    ensures var plan := PlanFor(reason, 1, base, allowUARefresh, configuredCookie);
            BASE_DELAY <= plan.delay <= 5 * SECOND && !plan.rebuildHttp
  {
  }

  lemma ReadStep(f: Fields, r: ReadPc, a: Action)
    requires Settled(f) && ActRead(f, r, a).Some?
    requires f.phase in {Running, Closing}
    ensures var e := ActRead(f, r, a).value; MainKept(f, Reading(r), e) && Settled(e.fields)
  {
    hide ReconnectDecision, PlanFor;
    match r {
      case Check(err, live) =>
      case Decide(err) =>
      case Record(reason, base, allowUARefresh) =>
      case _ =>
    }
  }

  lemma ReadLearns(f: Fields, r: ReadPc, a: Action)
    requires ReadKnows(f, r) && ActRead(f, r, a).Some?
    ensures var e := ActRead(f, r, a).value; Knows(e.fields, e.pc)
  {
    hide ReconnectDecision, PlanFor, Delay;
    match r {
      case Decide(err) => DecisionWaitsShortly(f.manualClose, err);
      case Record(reason, base, allowUARefresh) =>
        if a.Jitter? {
          PlanWaitsShortly(reason, base, allowUARefresh, a.configuredCookie);
        }
      case Check(err, live) =>
      case _ =>
    }
  }

  lemma ReadHoldsNothing(f: Fields, r: ReadPc, a: Action)
    requires ActRead(f, r, a).Some?
    ensures var e := ActRead(f, r, a).value;
            && e.pc.Conn() == None && e.pc.Stop() == None && e.fields.conn == f.conn
              && e.fields.heartbeat == f.heartbeat
            && e.closed == None && e.made == None && e.spawned == None
  {
    hide ReconnectDecision, PlanFor;
    match r {
      case Check(err, live) =>
      case Decide(err) =>
      case Record(reason, base, allowUARefresh) =>
      case _ =>
    }
  }

  lemma ReadTokens(f: Fields, r: ReadPc, a: Action, next: HandleId, h: HandleId)
    requires ActRead(f, r, a).Some?
    ensures TokensKept(f, Reading(r), ActRead(f, r, a).value, next, h)
  {
    hide ActRead;
    ReadHoldsNothing(f, r, a);
  }

  lemma CleanStep(f: Fields, k: CleanPc, a: Action)
    requires Settled(f) && Knows(f, Cleaning(k)) && ActClean(f, k, a).Some?
    requires f.phase in {Running, Closing}
    ensures var e := ActClean(f, k, a).value;
            MainKept(f, Cleaning(k), e) && Settled(e.fields) && Knows(e.fields, e.pc)
  {
  }

  lemma CleanTokens(f: Fields, k: CleanPc, a: Action, next: HandleId, h: HandleId)
    requires ActClean(f, k, a).Some?
    ensures TokensKept(f, Cleaning(k), ActClean(f, k, a).value, next, h)
  {
  }

  lemma StopStep(f: Fields, s: StopPc, a: Action)
    requires Settled(f) && Knows(f, Stopping(s)) && ActStop(f, s, a).Some?
    requires Stopping(s).InStart() ==> f.phase in {Running, Closing}
    ensures var e := ActStop(f, s, a).value;
            MainKept(f, Stopping(s), e) && Settled(e.fields) && Knows(e.fields, e.pc)
              && (!Stopping(s).InStart() ==> Frame(f, e.fields))
  {
  }

  lemma StopTokens(f: Fields, s: StopPc, a: Action, next: HandleId, h: HandleId)
    requires ActStop(f, s, a).Some?
    ensures TokensKept(f, Stopping(s), ActStop(f, s, a).value, next, h)
  {
  }

  lemma CallStep(f: Fields, l: CallPc, a: Action)
    requires Settled(f) && ActCall(f, l, a).Some?
    ensures var e := ActCall(f, l, a).value; Settled(e.fields) && Knows(e.fields, e.pc)
  {
  }

  lemma CallKeepsMain(f: Fields, l: CallPc, a: Action)
    requires ActCall(f, l, a).Some?
    ensures MainKept(f, Calling(l), ActCall(f, l, a).value)
  {
  }

  lemma CallFrame(f: Fields, l: CallPc, a: Action)
    requires ActCall(f, l, a).Some?
    ensures Frame(f, ActCall(f, l, a).value.fields)
  {
  }

  lemma CallTokens(f: Fields, l: CallPc, a: Action, next: HandleId, h: HandleId)
    requires ActCall(f, l, a).Some?
    ensures TokensKept(f, Calling(l), ActCall(f, l, a).value, next, h)
  {
  }

  lemma BeatStep(f: Fields, b: BeatPc, a: Action, stopped: bool)
    requires Settled(f) && Knows(f, Beating(b)) && ActBeat(f, b, a, stopped).Some?
    ensures var e := ActBeat(f, b, a, stopped).value;
            MainKept(f, Beating(b), e) && Settled(e.fields) && Knows(e.fields, e.pc) && Frame(f, e.fields)
  {
  }

  lemma BeatTokens(f: Fields, b: BeatPc, a: Action, stopped: bool, next: HandleId, h: HandleId)
    requires ActBeat(f, b, a, stopped).Some?
    ensures TokensKept(f, Beating(b), ActBeat(f, b, a, stopped).value, next, h)
  {
  }

  /** Together: what one step of any goroutine does. */
  lemma ActStep(f: Fields, pc: Pc, a: Action, next: HandleId, stopped: bool)
    requires Settled(f) && Knows(f, pc) && Act(f, pc, a, next, stopped).Some?
    requires pc.InStart() ==> f.phase in {Running, Closing}
    ensures var e := Act(f, pc, a, next, stopped).value;
            MainKept(f, pc, e) && Settled(e.fields) && Knows(e.fields, e.pc) && (!pc.InStart() ==> Frame(f, e.fields))
  {
    hide Settled, MainKept, Frame, ConnectKnows, ReadKnows, StopKnows, ActConnect, ActRead, ActClean, ActStop, ActCall,
      ActBeat;
    match pc
    case Connecting(c) => ConnectStep(f, c, a, next); ConnectLearns(f, c, a, next);
    case Reading(r) => ReadStep(f, r, a); ReadLearns(f, r, a);
    case Cleaning(k) => CleanStep(f, k, a);
    case Stopping(s) => StopStep(f, s, a);
    case Calling(l) => CallStep(f, l, a); CallKeepsMain(f, l, a); CallFrame(f, l, a);
    case Beating(b) => BeatStep(f, b, a, stopped);
  }

  lemma ActTokens(f: Fields, pc: Pc, a: Action, next: HandleId, stopped: bool, h: HandleId)
    requires Knows(f, pc) && Act(f, pc, a, next, stopped).Some?
    ensures TokensKept(f, pc, Act(f, pc, a, next, stopped).value, next, h)
  {
    hide Knows, TokensKept, ActConnect, ActRead, ActClean, ActStop, ActCall, ActBeat;
    match pc
    case Connecting(c) => ConnectTokens(f, c, a, next, h);
    case Reading(r) => ReadTokens(f, r, a, next, h);
    case Cleaning(k) => CleanTokens(f, k, a, next, h);
    case Stopping(s) => StopTokens(f, s, a, next, h);
    case Calling(l) => CallTokens(f, l, a, next, h);
    case Beating(b) => BeatTokens(f, b, a, stopped, next, h);
  }

  /** What Start's goroutine knows survives every step of the others. */
  lemma FrameKeepsKnowledge(f: Fields, g: Fields, pc: Pc)
    requires Frame(f, g) && Knows(f, pc)
    ensures Knows(g, pc)
  {
  }

  // ----- one step of everything

  lemma {:induction false} CarriersUpdate(threads: seq<Pc>, t: nat, pc: Pc, h: HandleId)
    requires t < |threads|
    ensures Carriers(threads[t := pc], h) + Carry(threads[t], h) == Carriers(threads, h) + Carry(pc, h)
  {
    hide Carry;
    var n := |threads| - 1;
    if t < n {
      CarriersUpdate(threads[..n], t, pc, h);
      assert threads[t := pc][..n] == threads[..n][t := pc];
    } else {
      assert threads[t := pc][..n] == threads[..n];
    }
  }

  lemma {:induction false} CarriedByOne(threads: seq<Pc>, t: nat, h: HandleId)
    requires t < |threads|
    ensures Carriers(threads, h) >= Carry(threads[t], h)
  {
    hide Carry;
    var n := |threads| - 1;
    if t < n {
      CarriedByOne(threads[..n], t, h);
    }
  }

  lemma CarriersAppend(threads: seq<Pc>, pc: Pc, h: HandleId)
    ensures Carriers(threads + [pc], h) == Carriers(threads, h) + Carry(pc, h)
  {
    hide Carry;
    assert (threads + [pc])[..|threads|] == threads;
  }

  /** Applying an effect that keeps the tokens of handle `h` keeps its account. */
  lemma ApplyKeepsAccount(s: State, t: nat, e: Effect, h: HandleId)
    requires t < |s.threads| && Accounted(s) && TokensKept(s.fields, s.threads[t], e, |s.handles|, h)
    ensures var s' := Apply(s, t, e);
            Closes(s', h) + Slots(s'.fields, h) + Carriers(s'.threads, h) == if h < |s'.handles| then 1 else 0
  {
    hide Carriers, Carry, Slots;
    var moved := s.threads[t := e.pc];
    CarriersUpdate(s.threads, t, e.pc, h);
    CarriedByOne(s.threads, t, h);
    if e.spawned.Some? {
      CarriersAppend(moved, e.spawned.value, h);
    } else {
      assert moved + [] == moved;
    }
    assert Closes(s, h) + Slots(s.fields, h) + Carriers(s.threads, h) == if h < |s.handles| then 1 else 0;
    ApplyCloses(s, t, e, h);
  }

  lemma ApplyCloses(s: State, t: nat, e: Effect, h: HandleId)
    requires t < |s.threads| && (e.closed == Some(h) ==> h < |s.handles|)
    ensures var s' := Apply(s, t, e);
            && |s'.handles| == |s.handles| + (if e.made.Some? then 1 else 0)
            && Closes(s', h) == Closes(s, h) + (if e.closed == Some(h) then 1 else 0)
  {
  }

  lemma MoveKeepsAccounted(s: State, t: nat, a: Action)
    requires Inv(s) && Enabled(s, Move(t, a))
    ensures Accounted(Step(s, Move(t, a)))
  {
    hide Act, Knows, TokensKept, Apply, Slots, Closes, Carriers, Settled, OneMain;
    var e := ThreadEffect(s, t, a).value;
    forall h: HandleId
      ensures var s' := Apply(s, t, e);
              Closes(s', h) + Slots(s'.fields, h) + Carriers(s'.threads, h) == if h < |s'.handles| then 1 else 0
    {
      ActTokens(s.fields, s.threads[t], a, |s.handles|, StopClosed(s, s.threads[t]), h);
      ApplyKeepsAccount(s, t, e, h);
    }
  }

  lemma MoveKeepsRest(s: State, t: nat, a: Action)
    requires Inv(s) && Enabled(s, Move(t, a))
    ensures var s' := Step(s, Move(t, a));
            && OneMain(s') && Settled(s'.fields)
            && forall u :: 0 <= u < |s'.threads| ==> Knows(s'.fields, s'.threads[u])
  {
    hide Act, Knows, Accounted, Settled, CloseHandle;
    var e := ThreadEffect(s, t, a).value;
    var pc := s.threads[t];
    ActStep(s.fields, pc, a, |s.handles|, StopClosed(s, pc));
    var s' := Step(s, Move(t, a));
    assert forall u :: 0 <= u < |s.threads| && u != t ==> s'.threads[u] == s.threads[u];
    forall u | 0 <= u < |s'.threads|
      ensures Knows(s'.fields, s'.threads[u])
    {
      if u < |s.threads| && u != t {
        OtherStillKnows(s, t, u, s'.fields);
      } else if u == |s.threads| {
        BeatKnows(s'.fields, s'.threads[u]);
      }
    }
  }

  lemma BeatKnows(f: Fields, pc: Pc)
    requires pc.Beating? || pc.Calling? || !pc.InStart()
    ensures Knows(f, pc)
  {
  }

  lemma OtherStillKnows(s: State, t: nat, u: nat, g: Fields)
    requires OneMain(s) && t < |s.threads| && u < |s.threads| && u != t && Knows(s.fields, s.threads[u])
    requires !s.threads[t].InStart() ==> Frame(s.fields, g)
    ensures Knows(g, s.threads[u])
  {
    hide Knows;
    if s.threads[u].InStart() {
      FrameKeepsKnowledge(s.fields, g, s.threads[u]);
    } else {
      BeatKnows(g, s.threads[u]);
    }
  }

  lemma StatusKeepsInv(s: State, g: Fields)
    requires Inv(s) && g.phase == s.fields.phase && Frame(s.fields, g) && g.conn == s.fields.conn
      && g.heartbeat == s.fields.heartbeat
    requires g.readyClosed == s.fields.readyClosed && g.readyCloses == s.fields.readyCloses
    requires g.released == s.fields.released && g.releases == s.fields.releases
    ensures Inv(s.(fields := g))
  {
    hide Knows, Carriers;
    forall t | 0 <= t < |s.threads|
      ensures Knows(g, s.threads[t])
    {
      FrameKeepsKnowledge(s.fields, g, s.threads[t]);
    }
    forall h: HandleId
      ensures Closes(s.(fields := g), h) + Slots(g, h) + Carriers(s.threads, h) == if h < |s.handles| then 1 else 0
    {
      assert Closes(s, h) + Slots(s.fields, h) + Carriers(s.threads, h) == if h < |s.handles| then 1 else 0;
    }
  }

  lemma StepKeepsInv(s: State, m: Move)
    requires Inv(s) && Enabled(s, m)
    ensures Inv(Step(s, m))
  {
    hide Apply, Act, Accounted, OneMain, Settled, Knows;
    match m
    case Move(t, a) =>
      MoveKeepsAccounted(s, t, a);
      MoveKeepsRest(s, t, a);
    case StatusSet(live) => StatusKeepsInv(s, LiveSection(s.fields, live));
    case StatusCleared => StatusKeepsInv(s, ClearSection(s.fields));
  }

  lemma {:induction false} NobodyCarries(threads: seq<Pc>, h: HandleId)
    requires forall t :: 0 <= t < |threads| ==> threads[t].Conn() != Some(h) && threads[t].Stop() != Some(h)
    ensures Carriers(threads, h) == 0
  {
    if threads != [] {
      NobodyCarries(threads[..|threads| - 1], h);
    }
  }

  lemma InitialInv(callers: nat)
    ensures Inv(Initial(callers))
  {
    forall h: HandleId ensures Carriers(Initial(callers).threads, h) == 0 {
      NobodyCarries(Initial(callers).threads, h);
    }
  }

  lemma {:induction false} RunKeepsInv(callers: nat, moves: seq<Move>)
    requires Run(Initial(callers), moves).Some?
    ensures Inv(Run(Initial(callers), moves).value)
  {
    hide Inv, Step, Enabled;
    if moves == [] {
      InitialInv(callers);
    } else {
      RunKeepsInv(callers, moves[..|moves| - 1]);
      StepKeepsInv(Run(Initial(callers), moves[..|moves| - 1]).value, moves[|moves| - 1]);
    }
  }

  // ----- main results, for every number of callers and every run

  /** Every connection dialed and every stop channel made is closed once, or stored in its field, or carried
      by exactly one goroutine, and never two of these: so none is closed twice. */
  lemma EachHandleInOnePlace(callers: nat, moves: seq<Move>, h: HandleId)
    requires Run(Initial(callers), moves).Some?
    ensures var s := Run(Initial(callers), moves).value;
            h < |s.handles| ==> s.handles[h].closes + Slots(s.fields, h) + Carriers(s.threads, h) == 1
  {
    RunKeepsInv(callers, moves);
    assert Accounted(Run(Initial(callers), moves).value);
    assert Closes(Run(Initial(callers), moves).value, h) >= 0;
  }

  /** No install of a connection and no install of a heartbeat loop overwrites another one. */
  lemma NothingIsOverwritten(callers: nat, moves: seq<Move>, t: nat)
    requires Run(Initial(callers), moves).Some? && t < |Run(Initial(callers), moves).value.threads|
    ensures var s := Run(Initial(callers), moves).value;
            match s.threads[t]
            case Connecting(Install(_, dialed)) => s.fields.conn.None? && s.fields.heartbeat.None?
            case Connecting(StoreHeartbeat(_)) => s.fields.heartbeat.None?
            case _ => true
  {
    RunKeepsInv(callers, moves);
    assert Knows(Run(Initial(callers), moves).value.fields, Run(Initial(callers), moves).value.threads[t]);
  }

  /** At every read error of every run both retry counters are zero; so one offline answer never ends the
      loop there, and the plan for the wait is always the plan of a first failure. */
  lemma ReadErrorsFindZeroCounters(callers: nat, moves: seq<Move>, t: nat)
    requires Run(Initial(callers), moves).Some? && t < |Run(Initial(callers), moves).value.threads|
    ensures var s := Run(Initial(callers), moves).value;
            match s.threads[t]
            case Reading(ErrManual(_)) => s.fields.failures == 0 && s.fields.offline == 0
            case Reading(Check(_, live)) => s.fields.failures == 0 && !StatusCheckSection(s.fields, live).1
            case Reading(Record(_, _, _)) => FailureSection(s.fields).1 == 1
            case Reading(Waiting(plan, jitter)) =>
              BASE_DELAY <= plan.delay + jitter < 5 * SECOND + MAX_JITTER && !plan.rebuildHttp
            case _ => true
  {
    hide Knows, Accounted, OneMain, Settled, Run;
    RunKeepsInv(callers, moves);
    var s := Run(Initial(callers), moves).value;
    if s.threads[t].Reading? {
      ReaderFindsZero(s.fields, s.threads[t].r);
    }
  }

  lemma ReaderFindsZero(f: Fields, r: ReadPc)
    requires Knows(f, Reading(r))
    ensures match r
            case ErrManual(_) => f.failures == 0 && f.offline == 0
            case Check(_, live) => f.failures == 0 && !StatusCheckSection(f, live).1
            case Record(_, _, _) => FailureSection(f).1 == 1
            case Waiting(plan, jitter) =>
              BASE_DELAY <= plan.delay + jitter < 5 * SECOND + MAX_JITTER && !plan.rebuildHttp
            case _ => true
  {
  }

  /** The ready channel is closed and the session profile released at most once. */
  lemma ReadyAndReleasedOnce(callers: nat, moves: seq<Move>)
    requires Run(Initial(callers), moves).Some?
    ensures var f := Run(Initial(callers), moves).value.fields; f.readyCloses <= 1 && f.releases <= 1
  {
    RunKeepsInv(callers, moves);
  }

  predicate CarriesConnection(s: State, t: nat)
    requires t < |s.threads|
  {
    s.threads[t].Conn().Some? || s.threads[t].Stop().Some?
  }

  /** When the lifecycle is Closed, in particular once Start has returned, nothing is stored any more, and
      everything ever made is closed exactly once if and only if no Close, Dispose or heartbeat goroutine is
      still on its way to close something. */
  lemma ClosedListenerIff(callers: nat, moves: seq<Move>)
    requires Run(Initial(callers), moves).Some?
    ensures var s := Run(Initial(callers), moves).value;
            s.fields.phase.Closed? ==>
              && s.fields.conn.None? && s.fields.heartbeat.None?
              && (forall t :: 0 <= t < |s.threads| ==> !s.threads[t].InStart())
              && ((forall h :: 0 <= h < |s.handles| ==> s.handles[h].closes == 1)
                  <==> forall t :: 0 <= t < |s.threads| ==> !CarriesConnection(s, t))
  {
    RunKeepsInv(callers, moves);
    var s := Run(Initial(callers), moves).value;
    if s.fields.phase.Closed? {
      ClosedStateIff(s);
    }
  }

  /** Neither in a call nor a heartbeat that is still running. */
  predicate Quiet(pc: Pc) {
    pc == Calling(Idle) || pc == Beating(BeatDone)
  }

  /** Once the lifecycle is Closed, every call has returned and every heartbeat goroutine has ended, all
      connections and stop channels ever made are closed exactly once. */
  lemma QuietListenerLeaksNothing(callers: nat, moves: seq<Move>)
    requires Run(Initial(callers), moves).Some?
    ensures var s := Run(Initial(callers), moves).value;
            s.fields.phase.Closed? && (forall t :: 0 <= t < |s.threads| ==> Quiet(s.threads[t])) ==>
              s.fields.conn.None? && forall h :: 0 <= h < |s.handles| ==> s.handles[h].closes == 1
  {
    ClosedListenerIff(callers, moves);
    var s := Run(Initial(callers), moves).value;
    hide Run;
    if forall t :: 0 <= t < |s.threads| ==> Quiet(s.threads[t]) {
      forall t | 0 <= t < |s.threads| ensures !CarriesConnection(s, t) {
        assert Quiet(s.threads[t]);
      }
    }
  }

  lemma ClosedStateIff(s: State)
    requires Inv(s) && s.fields.phase.Closed?
    ensures (forall h :: 0 <= h < |s.handles| ==> s.handles[h].closes == 1)
            <==> forall t :: 0 <= t < |s.threads| ==> !CarriesConnection(s, t)
  {
    hide Knows;
    if forall t :: 0 <= t < |s.threads| ==> !CarriesConnection(s, t) {
      forall h | 0 <= h < |s.handles|
        ensures s.handles[h].closes == 1
      {
        forall t | 0 <= t < |s.threads| ensures s.threads[t].Conn() != Some(h) && s.threads[t].Stop() != Some(h) {
          assert !CarriesConnection(s, t);
        }
        NobodyCarries(s.threads, h);
        assert Closes(s, h) + Slots(s.fields, h) + Carriers(s.threads, h) == 1;
      }
    } else {
      var t :| 0 <= t < |s.threads| && CarriesConnection(s, t);
      var h := if s.threads[t].Conn().Some? then s.threads[t].Conn().value else s.threads[t].Stop().value;
      CarriedByOne(s.threads, t, h);
      assert Closes(s, h) + Slots(s.fields, h) + Carriers(s.threads, h) == if h < |s.handles| then 1 else 0;
      assert h < |s.handles| && s.handles[h].closes == 0;
    }
  }

  // ----- the lifecycle only moves forward

  function Rank(p: Phase): nat {
    match p
    case New => 0
    case Running => 1
    case Closing => 2
    case Closed => 3
  }

  predicate Forward(f: Fields, g: Fields) {
    && Rank(f.phase) <= Rank(g.phase)
    && (f.manualClose ==> g.manualClose) && (f.cancelled ==> g.cancelled)
    && (f.readyClosed ==> g.readyClosed) && (f.released ==> g.released)
  }

  lemma ActForward(f: Fields, pc: Pc, a: Action, next: HandleId, stopped: bool)
    requires Act(f, pc, a, next, stopped).Some?
    ensures Forward(f, Act(f, pc, a, next, stopped).value.fields)
  {
    hide ActConnect, ActRead, ActCall, ActClean, ActStop, ActBeat, Forward;
    match pc
    case Connecting(c) => ConnectForward(f, c, a, next);
    case Reading(r) => ReadForward(f, r, a);
    case Cleaning(k) => CleanForward(f, k, a);
    case Stopping(s) => StopForward(f, s, a);
    case Calling(l) => CallForward(f, l, a);
    case Beating(b) => BeatForward(f, b, a, stopped);
  }

  lemma StopForward(f: Fields, s: StopPc, a: Action)
    requires ActStop(f, s, a).Some?
    ensures Forward(f, ActStop(f, s, a).value.fields)
  {
  }

  lemma BeatForward(f: Fields, b: BeatPc, a: Action, stopped: bool)
    requires ActBeat(f, b, a, stopped).Some?
    ensures Forward(f, ActBeat(f, b, a, stopped).value.fields)
  {
  }

  lemma CleanForward(f: Fields, k: CleanPc, a: Action)
    requires ActClean(f, k, a).Some?
    ensures Forward(f, ActClean(f, k, a).value.fields)
  {
  }

  lemma CallForward(f: Fields, l: CallPc, a: Action)
    requires ActCall(f, l, a).Some?
    ensures Forward(f, ActCall(f, l, a).value.fields)
  {
  }

  lemma ConnectForward(f: Fields, c: ConnectPc, a: Action, next: HandleId)
    requires ActConnect(f, c, a, next).Some?
    ensures Forward(f, ActConnect(f, c, a, next).value.fields)
  {
  }

  lemma ReadForward(f: Fields, r: ReadPc, a: Action)
    requires ActRead(f, r, a).Some?
    ensures Forward(f, ActRead(f, r, a).value.fields)
  {
    hide ReconnectDecision, PlanFor;
    match r {
      case Check(err, live) =>
      case Decide(err) =>
      case Record(reason, base, allowUARefresh) =>
      case _ =>
    }
  }

  lemma StepForward(s: State, m: Move)
    requires Enabled(s, m)
    ensures Forward(s.fields, Step(s, m).fields)
  {
    hide Act;
    match m
    case Move(t, a) => ActForward(s.fields, s.threads[t], a, |s.handles|, StopClosed(s, s.threads[t]));
    case StatusSet(live) =>
    case StatusCleared =>
  }

  /** Over any continuation of any run the lifecycle moves only forward through New, Running, Closing and
      Closed, and `manualClose`, the cancelled context, the ready mark and the release mark never go back. */
  lemma {:induction false} RunMovesForward(s: State, moves: seq<Move>)
    requires Run(s, moves).Some?
    ensures Forward(s.fields, Run(s, moves).value.fields)
  {
    hide Step, Enabled;
    if moves != [] {
      RunMovesForward(s, moves[..|moves| - 1]);
      StepForward(Run(s, moves[..|moves| - 1]).value, moves[|moves| - 1]);
    }
  }

  /** How many calls of Start in a run got past beginStart. */
  function Starts(s: State, moves: seq<Move>): nat {
    if moves == [] then 0
    else
      var u := Run(s, moves[..|moves| - 1]);
      var m := moves[|moves| - 1];
      Starts(s, moves[..|moves| - 1])
      + (if u.Some? && m.Move? && m.action.CallStart? && BeginStartSection(u.value.fields).1.StartOk? then 1 else 0)
  }

  /** At most one call of Start ever succeeds. */
  lemma {:induction false} StartsAtMostOnce(s: State, moves: seq<Move>)
    requires Run(s, moves).Some?
    ensures Starts(s, moves) <= 1
    ensures Starts(s, moves) == 1 ==> !Run(s, moves).value.fields.phase.New?
  {
    hide Step, Enabled, Act;
    if moves != [] {
      var u := Run(s, moves[..|moves| - 1]).value;
      var m := moves[|moves| - 1];
      StartsAtMostOnce(s, moves[..|moves| - 1]);
      StepForward(u, m);
      if m.Move? && m.action.CallStart? && BeginStartSection(u.fields).1.StartOk? {
        StartLeavesNew(u, m.thread);
      }
    }
  }

  lemma StartLeavesNew(s: State, t: nat)
    requires Enabled(s, Move(t, CallStart)) && BeginStartSection(s.fields).1.StartOk?
    ensures !Step(s, Move(t, CallStart)).fields.phase.New?
  {
  }

  // ----- Start may return before the last connection is closed

  lemma Extend(s: State, moves: seq<Move>, m: Move)
    requires Run(s, moves).Some? && Enabled(Run(s, moves).value, m)
    ensures Run(s, moves + [m]) == Some(Step(Run(s, moves).value, m))
  {
    hide Step, Enabled;
    assert (moves + [m])[..|moves|] == moves;
  }

  /** Some run leads from `s` to `u`. */
  ghost predicate Leads(s: State, u: State) {
    exists moves :: Run(s, moves) == Some(u)
  }

  lemma LeadsOn(s: State, u: State, m: Move)
    requires Leads(s, u) && Enabled(u, m)
    ensures Leads(s, Step(u, m))
  {
    hide Step, Enabled;
    var moves :| Run(s, moves) == Some(u);
    Extend(s, moves, m);
  }

  lemma LeadsOnBy(s: State, u: State, t: nat, a: Action, v: State)
    requires Leads(s, u) && Enabled(u, Move(t, a)) && v == Step(u, Move(t, a))
    ensures Leads(s, v)
  {
    hide Step, Enabled, Leads;
    LeadsOn(s, u, Move(t, a));
  }

  /** The first caller reads its first connection. */
  const READING := State(
    Fields(Running, false, false, Some(0), Some(1), true, true, 0, 0, true, 1, false, 0),
    [Handle(Connection, 0), Handle(StopChannel, 0)],
    [Reading(Receive), Calling(Idle), Beating(BeatCheck(1))])

  function Dialing(f: Fields, hs: seq<Handle>, pc: Pc): State {
    State(f, hs, [pc, Calling(Idle)])
  }

  lemma LeadsToReading()
    ensures Leads(Initial(2), READING)
  {
    hide Leads;
    var s := Initial(2);
    assert s == Dialing(FRESH, [], Calling(Idle));
    StartsEmpty(s);
    var f := FRESH.(phase := Running);
    var hs := [Handle(Connection, 0)];
    LeadsOnBy(s, s, 0, CallStart, Dialing(f, [], Connecting(OfflineCheck)));
    LeadsOnBy(s, Dialing(f, [], Connecting(OfflineCheck)), 0, Advance, Dialing(f, [], Connecting(Dial(true, 0))));
    LeadsOnBy(s, Dialing(f, [], Connecting(Dial(true, 0))), 0, DialOk, Dialing(f, hs, Connecting(Install(true, 0))));
    var g := f.(conn := Some(0));
    LeadsOnBy(s, Dialing(f, hs, Connecting(Install(true, 0))), 0, Advance, Dialing(g, hs, Connecting(SetLive(true))));
    LiveLeadsToReading(s, g);
  }

  lemma StartsEmpty(s: State)
    ensures Leads(s, s)
  {
    assert Run(s, []) == Some(s);
  }

  lemma LiveLeadsToReading(s: State, g: Fields)
    requires g == FRESH.(phase := Running, conn := Some(0))
    requires Leads(s, Dialing(g, [Handle(Connection, 0)], Connecting(SetLive(true))))
    ensures Leads(s, READING)
  {
    hide Leads;
    var hs := [Handle(Connection, 0)];
    var live := g.(isLive := true, known := true);
    var ready := live.(readyClosed := true, readyCloses := 1);
    LeadsOnBy(s, Dialing(g, hs, Connecting(SetLive(true))), 0, Advance, Dialing(live, hs, Connecting(MarkReady(true))));
    LeadsOnBy(s, Dialing(live, hs, Connecting(MarkReady(true))), 0, Advance,
              Dialing(ready, hs, Stopping(Swap(StoreNext(true)))));
    LeadsOnBy(s, Dialing(ready, hs, Stopping(Swap(StoreNext(true)))), 0, Advance,
              Dialing(ready, hs, Stopping(CloseStop(StoreNext(true), None))));
    LeadsOnBy(s, Dialing(ready, hs, Stopping(CloseStop(StoreNext(true), None))), 0, Advance,
              Dialing(ready, hs, Connecting(StoreHeartbeat(true))));
    var beating := ready.(heartbeat := Some(1));
    var hs2 := [Handle(Connection, 0), Handle(StopChannel, 0)];
    LeadsOnBy(s, Dialing(ready, hs, Connecting(StoreHeartbeat(true))), 0, Advance,
              Dialing(beating, hs2, Connecting(Spawn(true, 1))));
    var looping := State(beating, hs2, [Reading(LoopTest), Calling(Idle), Beating(BeatCheck(1))]);
    LeadsOnBy(s, Dialing(beating, hs2, Connecting(Spawn(true, 1))), 0, Advance, looping);
    LeadsOnBy(s, looping, 0, Advance, READING);
  }

  function Racing(f: Fields, stops: nat, pc: Pc, closer: Pc): State {
    State(f, [Handle(Connection, 0), Handle(StopChannel, stops)], [pc, closer, Beating(BeatCheck(1))])
  }

  /** The second caller has run Close up to the point where it holds the connection. */
  lemma LeadsToTaken(s: State)
    requires Leads(s, READING)
    ensures Leads(s, Racing(READING.fields.(phase := Closing, manualClose := true, cancelled := true, isLive := false,
                                            conn := None, heartbeat := None),
                            1, Reading(Receive), Calling(CloseConn(Some(0), false))))
  {
    hide Leads;
    var r := Reading(Receive);
    assert READING == Racing(READING.fields, 0, r, Calling(Idle));
    var f := READING.fields.(phase := Closing, manualClose := true);
    LeadsOnBy(s, READING, 1, CallClose(false), Racing(f, 0, r, Calling(CloseLive(false))));
    var g := f.(isLive := false);
    LeadsOnBy(s, Racing(f, 0, r, Calling(CloseLive(false))), 1, Advance, Racing(g, 0, r, Calling(CloseSignal(false))));
    var h := g.(cancelled := true);
    LeadsOnBy(s, Racing(g, 0, r, Calling(CloseSignal(false))), 1, Advance,
              Racing(h, 0, r, Stopping(Swap(TakeConnNext(false)))));
    var i := h.(heartbeat := None);
    LeadsOnBy(s, Racing(h, 0, r, Stopping(Swap(TakeConnNext(false)))), 1, Advance,
              Racing(i, 0, r, Stopping(CloseStop(TakeConnNext(false), Some(1)))));
    LeadsOnBy(s, Racing(i, 0, r, Stopping(CloseStop(TakeConnNext(false), Some(1)))), 1, Advance,
              Racing(i, 1, r, Calling(CloseTake(false))));
    LeadsOnBy(s, Racing(i, 1, r, Calling(CloseTake(false))), 1, Advance,
              Racing(i.(conn := None), 1, r, Calling(CloseConn(Some(0), false))));
  }

  /** Start leaves its loop from there. */
  lemma LeadsToCleanup(s: State, f: Fields, closer: Pc)
    requires Leads(s, Racing(f, 1, Reading(Receive), closer)) && f.manualClose && NothingStored(f)
    ensures Leads(s, Racing(f, 1, Cleaning(CleanupTake), closer))
  {
    hide Leads, ActConnect, ActClean, ActCall, ActBeat;
    LeadsOnBy(s, Racing(f, 1, Reading(Receive), closer), 0, ReadFailed(Network),
              Racing(f, 1, Reading(ErrManual(Network)), closer));
    LeadsOnBy(s, Racing(f, 1, Reading(ErrManual(Network)), closer), 0, Advance, Racing(f, 1, LEAVE, closer));
    hide ActRead;
    LeadsOnBy(s, Racing(f, 1, LEAVE, closer), 0, Advance, Racing(f, 1, Stopping(CloseStop(CleanupNext, None)), closer));
    LeadsOnBy(s, Racing(f, 1, Stopping(CloseStop(CleanupNext, None)), closer), 0, Advance,
              Racing(f, 1, Cleaning(CleanupTake), closer));
  }

  lemma LeadsToReleased(s: State, f: Fields, closer: Pc)
    requires Leads(s, Racing(f, 1, Cleaning(CleanupTake), closer)) && NothingStored(f)
    ensures Leads(s, Racing(f, 1, Cleaning(CleanupRelease), closer))
  {
    hide Leads, ActConnect, ActRead, ActStop, ActCall, ActBeat;
    LeadsOnBy(s, Racing(f, 1, Cleaning(CleanupTake), closer), 0, Advance,
              Racing(f, 1, Cleaning(CleanupClose(None)), closer));
    LeadsOnBy(s, Racing(f, 1, Cleaning(CleanupClose(None)), closer), 0, Advance,
              Racing(f, 1, Cleaning(CleanupRelease), closer));
  }

  lemma LeadsToReturn(s: State, f: Fields, closer: Pc)
    requires Leads(s, Racing(f, 1, Cleaning(CleanupRelease), closer)) && !f.released && f.releases == 0
    ensures Leads(s, Racing(f.(phase := Closed, released := true, releases := 1), 1, Calling(Idle), closer))
  {
    hide Leads, ActConnect, ActRead, ActStop, ActCall, ActBeat;
    var g := f.(released := true, releases := 1);
    LeadsOnBy(s, Racing(f, 1, Cleaning(CleanupRelease), closer), 0, Advance, Racing(g, 1, Cleaning(Finish), closer));
    LeadsOnBy(s, Racing(g, 1, Cleaning(Finish), closer), 0, Advance,
              Racing(g.(phase := Closed), 1, Calling(Idle), closer));
  }

  /** The condition of ClosedListenerIff matters: Close may take the connection out, and Start see the manual
      close and return, before Close gets to closing the connection. */
  lemma StartMayReturnBeforeTheClose()
    ensures exists moves ::
              Run(Initial(2), moves).Some? &&
              var s := Run(Initial(2), moves).value;
              && s.fields.phase.Closed? && |s.threads| > 0 && s.threads[0] == Calling(Idle)
              && |s.handles| > 0 && s.handles[0] == Handle(Connection, 0)
  {
    var s := Initial(2);
    LeadsToReading();
    LeadsToTaken(s);
    var f := READING.fields.(phase := Closing, manualClose := true, cancelled := true, isLive := false, conn := None,
                             heartbeat := None);
    LeadsToCleanup(s, f, Calling(CloseConn(Some(0), false)));
    LeadsToReleased(s, f, Calling(CloseConn(Some(0), false)));
    LeadsToReturn(s, f, Calling(CloseConn(Some(0), false)));
    var end := Racing(f.(phase := Closed, released := true, releases := 1), 1, Calling(Idle),
                      Calling(CloseConn(Some(0), false)));
    var moves :| Run(s, moves) == Some(end);
    hide Run;
  }
}
