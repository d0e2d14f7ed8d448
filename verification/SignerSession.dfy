/**
 The local WebSocket signer of `websocket_signer.go` (lines 96-319). Its state is guarded by `mu`;
 `fallbackMu` serialises the three methods that replace the JavaScript runtime, one of which releases
 `mu` while a new runtime is built. `Close` takes `mu` only and may run in that window.

 `Session` is the guarded state, and each critical section of the code is a function on it. `Signer` is
 the object with those sections as methods. `State` adds the threads, the lock and all runtimes ever
 built, and its steps are the sections, the lock operations, and building or closing a runtime.
 */
module SignerSession {
  import opened Options

  type RuntimeId = nat

  /** A runtime remembers the profile it was built for and how often it has been closed. */
  datatype Runtime = Runtime(userAgent: string, cookie: string, profile: string, closes: nat) {
    predicate Matches(ua: string, ck: string, id: string) {
      closes == 0 && userAgent == ua && cookie == ck && (id == "" || profile == id)
    }
  }

  datatype Session = Session(
    runtime: Option<RuntimeId>, userAgent: string, cookie: string, profile: string, useFallback: bool, closed: bool)

  datatype Outcome = Done | Switched | AlreadyActive | ErrClosed | ErrProfile | ErrBuild

  // ----- the critical sections

  /** The first section of Prepare either finishes the call or takes the old runtime out. */
  datatype Prepared = Finished(outcome: Outcome) | Swapped(previous: Option<RuntimeId>, fallback: bool)

  predicate AlreadyPrepared(s: Session, ua: string, ck: string, held: Option<Runtime>) {
    s.userAgent == ua && s.cookie == ck && (!s.useFallback || (held.Some? && held.value.Matches(ua, ck, s.profile)))
  }

  function PrepareSection(s: Session, ua: string, ck: string, held: Option<Runtime>): (Session, Prepared) {
    if s.closed then (s, Finished(ErrClosed))
    else if AlreadyPrepared(s, ua, ck, held) then (s, Finished(Done))
    else (s.(runtime := None, userAgent := ua, cookie := ck), Swapped(s.runtime, s.useFallback))
  }

  function UpdateSection(s: Session, profile: string): (Session, Option<RuntimeId>) {
    if s.closed || s.profile == profile then (s, None)
    else (s.(runtime := None, profile := profile), s.runtime)
  }

  datatype Activation = Return(outcome: Outcome) | BuildFor(ua: string, ck: string, profile: string)

  function ActivateSection(s: Session): Activation {
    if s.closed then Return(ErrClosed)
    else if s.useFallback && s.runtime.Some? then Return(AlreadyActive)
    else BuildFor(s.userAgent, s.cookie, s.profile)
  }

  /** Installing a built runtime: the new state, what to close afterwards, and the outcome. */
  function InstallSection(s: Session, ua: string, ck: string, profile: string, built: RuntimeId, success: Outcome)
    : (Session, Option<RuntimeId>, Outcome)
  {
    if s.closed then (s, Some(built), ErrClosed)
    else if s.userAgent != ua || s.cookie != ck || (s.profile != "" && s.profile != profile)
      then (s, Some(built), ErrProfile)
    else (s.(runtime := Some(built), useFallback := true), s.runtime, success)
  }

  function CloseSection(s: Session): (Session, Option<RuntimeId>) {
    if s.closed then (s, None)
    else (s.(closed := true, runtime := None, userAgent := "", cookie := "", profile := ""), s.runtime)
  }

  datatype Signing = RefusedClosed | RefusedProfile | NotPrepared | WithRuntime(id: RuntimeId) | Native

  function SignSection(s: Session, ua: string): Signing {
    if s.closed then RefusedClosed
    else if ua != "" && s.userAgent != ua then RefusedProfile
    else if s.useFallback then (if s.runtime.None? then NotPrepared else WithRuntime(s.runtime.value))
    else Native
  }

  /** The object with its critical sections as methods. */
  class Signer {
    var runtime: Option<RuntimeId>
    var userAgent: string
    var cookie: string
    var profile: string
    var useFallback: bool
    var closed: bool

    function View(): Session
      reads this
    {
      Session(runtime, userAgent, cookie, profile, useFallback, closed)
    }

    constructor ()
      ensures View() == Session(None, "", "", "", false, false)
    {
      runtime, userAgent, cookie, profile, useFallback, closed := None, "", "", "", false, false;
    }

    method Prepare(ua: string, ck: string, held: Option<Runtime>) returns (r: Prepared)
      modifies this
      ensures (View(), r) == PrepareSection(old(View()), ua, ck, held)
    {
      if closed { return Finished(ErrClosed); }
      if userAgent == ua && cookie == ck && (!useFallback || (held.Some? && held.value.Matches(ua, ck, profile))) {
        return Finished(Done);
      }
      var oldRuntime := runtime;
      runtime := None;
      userAgent := ua;
      cookie := ck;
      return Swapped(oldRuntime, useFallback);
    }

    method UpdateBrowserFingerprint(id: string) returns (toClose: Option<RuntimeId>)
      modifies this
      ensures (View(), toClose) == UpdateSection(old(View()), id)
    {
      if closed || profile == id { return None; }
      toClose := runtime;
      runtime := None;
      profile := id;
    }

    method ActivateFallback() returns (r: Activation)
      ensures r == ActivateSection(View())
    {
      if closed { return Return(ErrClosed); }
      if useFallback && runtime.Some? { return Return(AlreadyActive); }
      return BuildFor(userAgent, cookie, profile);
    }

    method Install(ua: string, ck: string, id: string, built: RuntimeId, success: Outcome)
      returns (toClose: Option<RuntimeId>, outcome: Outcome)
      modifies this
      ensures (View(), toClose, outcome) == InstallSection(old(View()), ua, ck, id, built, success)
    {
      if closed { return Some(built), ErrClosed; }
      if userAgent != ua || cookie != ck || (profile != "" && profile != id) { return Some(built), ErrProfile; }
      toClose := runtime;
      runtime := Some(built);
      useFallback := true;
      outcome := success;
    }

    method Close() returns (toClose: Option<RuntimeId>)
      modifies this
      ensures (View(), toClose) == CloseSection(old(View()))
    {
      if closed { return None; }
      closed := true;
      toClose := runtime;
      runtime := None;
      userAgent := "";
      cookie := "";
      profile := "";
    }

    method Sign(ua: string) returns (r: Signing)
      ensures r == SignSection(View(), ua)
    {
      if closed { return RefusedClosed; }
      if ua != "" && userAgent != ua { return RefusedProfile; }
      if useFallback {
        if runtime.None? { return NotPrepared; }
        return WithRuntime(runtime.value);
      }
      return Native;
    }
  }

  // ----- the threads

  /** Where a thread is. From `PrepareEnter` to `Leave` it holds `fallbackMu`, except in `CloseDrop`. */
  datatype Pc =
    | Idle
    | PrepareWait(ua: string, ck: string)
    | PrepareEnter(ua: string, ck: string)
    | PrepareSwapped(ua: string, ck: string, previous: Option<RuntimeId>, fallback: bool)
    | PrepareProfile(ua: string, ck: string)
    | UpdateWait(profile: string)
    | UpdateEnter(profile: string)
    | ActivateWait
    | ActivateEnter
    | Build(ua: string, ck: string, profile: string, success: Outcome)
    | Install(ua: string, ck: string, profile: string, built: RuntimeId, success: Outcome)
    | Drop(toClose: Option<RuntimeId>, outcome: Outcome)
    | Leave(outcome: Outcome)
    | CloseDrop(toClose: Option<RuntimeId>)
  {
    predicate HoldsFallback() {
      PrepareEnter? || PrepareSwapped? || PrepareProfile? || UpdateEnter? || ActivateEnter? || Build? || Install?
        || Drop? || Leave?
    }

    /** The runtime that this thread alone is responsible for. */
    function InFlight(): Option<RuntimeId> {
      match this
      case PrepareSwapped(_, _, previous, _) => previous
      case Install(_, _, _, built, _) => Some(built)
      case Drop(toClose, _) => toClose
      case CloseDrop(toClose) => toClose
      case _ => None
    }
  }

  datatype State = State(session: Session, fallbackMu: Option<nat>, runtimes: seq<Runtime>, threads: seq<Pc>)

  /** What a thread does next: start a call, take the next step of its call, or build a runtime with
      a freshly generated profile ID or fail to. */
  datatype Action =
    | CallPrepare(ua: string, ck: string)
    | CallUpdate(profile: string)
    | CallActivate
    | CallClose
    | Advance
    | BuildOk(generated: string)
    | BuildFail

  function Held(s: State): Option<Runtime> {
    if s.session.runtime.Some? && s.session.runtime.value < |s.runtimes|
    then Some(s.runtimes[s.session.runtime.value]) else None
  }

  predicate Enabled(s: State, t: nat, a: Action) {
    t < |s.threads| &&
    match a
    case CallPrepare(_, _) => s.threads[t].Idle?
    case CallUpdate(_) => s.threads[t].Idle?
    case CallActivate => s.threads[t].Idle?
    case CallClose => s.threads[t].Idle?
    case BuildOk(generated) => s.threads[t].Build? && generated != ""
    case BuildFail => s.threads[t].Build?
    case Advance =>
      match s.threads[t]
      case Idle => false
      case Build(_, _, _, _) => false
      case PrepareWait(_, _) => s.fallbackMu.None?
      case UpdateWait(_) => s.fallbackMu.None?
      case ActivateWait => s.fallbackMu.None?
      case _ => true
  }

  function At(s: State, t: nat, pc: Pc): State
    requires t < |s.threads|
  {
    s.(threads := s.threads[t := pc])
  }

  /** `Close` of a runtime; ids outside the list do not occur. */
  function CloseRuntime(rs: seq<Runtime>, id: Option<RuntimeId>): seq<Runtime> {
    if id.Some? && id.value < |rs| then rs[id.value := rs[id.value].(closes := rs[id.value].closes + 1)] else rs
  }

  function Step(s: State, t: nat, a: Action): State
    requires Enabled(s, t, a)
  {
    match a
    case CallPrepare(ua, ck) => At(s, t, PrepareWait(ua, ck))
    case CallUpdate(profile) => At(s, t, UpdateWait(profile))
    case CallActivate => At(s, t, ActivateWait)
    case CallClose =>
      var (session, toClose) := CloseSection(s.session);
      At(s.(session := session), t, CloseDrop(toClose))
    case BuildFail => At(s, t, Leave(ErrBuild))
    case BuildOk(generated) =>
      var b := s.threads[t];
      var profile := if b.profile == "" then generated else b.profile;
      At(s.(runtimes := s.runtimes + [Runtime(b.ua, b.ck, profile, 0)]), t,
         Install(b.ua, b.ck, profile, |s.runtimes|, b.success))
    case Advance =>
      match s.threads[t]
      case PrepareWait(ua, ck) => At(s.(fallbackMu := Some(t)), t, PrepareEnter(ua, ck))
      case UpdateWait(profile) => At(s.(fallbackMu := Some(t)), t, UpdateEnter(profile))
      case ActivateWait => At(s.(fallbackMu := Some(t)), t, ActivateEnter)
      case PrepareEnter(ua, ck) =>
        var (session, r) := PrepareSection(s.session, ua, ck, Held(s));
        At(s.(session := session), t,
           if r.Finished? then Leave(r.outcome) else PrepareSwapped(ua, ck, r.previous, r.fallback))
      case PrepareSwapped(ua, ck, previous, fallback) =>
        At(s.(runtimes := CloseRuntime(s.runtimes, previous)), t,
           if fallback then PrepareProfile(ua, ck) else Leave(Done))
      case PrepareProfile(ua, ck) => At(s, t, Build(ua, ck, s.session.profile, Done))
      case UpdateEnter(profile) =>
        var (session, toClose) := UpdateSection(s.session, profile);
        At(s.(session := session), t, Drop(toClose, Done))
      case ActivateEnter =>
        var r := ActivateSection(s.session);
        At(s, t, if r.Return? then Leave(r.outcome) else Build(r.ua, r.ck, r.profile, Switched))
      case Install(ua, ck, profile, built, success) =>
        var (session, toClose, outcome) := InstallSection(s.session, ua, ck, profile, built, success);
        At(s.(session := session), t, Drop(toClose, outcome))
      case Drop(toClose, outcome) => At(s.(runtimes := CloseRuntime(s.runtimes, toClose)), t, Leave(outcome))
      case Leave(_) => At(s.(fallbackMu := None), t, Idle)
      case CloseDrop(toClose) => At(s.(runtimes := CloseRuntime(s.runtimes, toClose)), t, Idle)
      case _ => s
  }

  // ----- runs

  datatype Move = Move(thread: nat, action: Action)

  function Initial(threads: nat): State {
    State(Session(None, "", "", "", false, false), None, [], seq(threads, _ => Idle))
  }

  /** The state after a run, if every move of it was possible. */
  function Run(s: State, moves: seq<Move>): Option<State> {
    if moves == [] then Some(s)
    else
      match Run(s, moves[..|moves| - 1])
      case None => None
      case Some(u) =>
        var m := moves[|moves| - 1];
        if Enabled(u, m.thread, m.action) then Some(Step(u, m.thread, m.action)) else None
  }

  // ----- the invariant

  /** How many threads are responsible for runtime `r`. */
  function Carriers(threads: seq<Pc>, r: RuntimeId): nat {
    if threads == [] then 0
    else Carriers(threads[..|threads| - 1], r) + (if threads[|threads| - 1].InFlight() == Some(r) then 1 else 0)
  }

  function HeldCount(s: Session, r: RuntimeId): nat {
    if s.runtime == Some(r) then 1 else 0
  }

  /** Every runtime ever built has been closed once, or is held, or is in flight with one thread: exactly
      one of the three. Ids that were never built occur nowhere. */
  ghost predicate Accounted(s: State) {
    && (forall r :: 0 <= r < |s.runtimes| ==>
        s.runtimes[r].closes + HeldCount(s.session, r) + Carriers(s.threads, r) == 1)
    && (forall r :: r >= |s.runtimes| ==> HeldCount(s.session, r) + Carriers(s.threads, r) == 0)
  }

  ghost predicate LockHeld(s: State) {
    forall t :: 0 <= t < |s.threads| ==> (s.threads[t].HoldsFallback() <==> s.fallbackMu == Some(t))
  }

  /** The held runtime was built for the current profile and is in use. */
  ghost predicate HeldMatches(s: State) {
    s.session.runtime.Some? ==>
      && s.session.useFallback && !s.session.closed
      && s.session.runtime.value < |s.runtimes|
      && var r := s.runtimes[s.session.runtime.value];
         r.userAgent == s.session.userAgent && r.cookie == s.session.cookie
         && (s.session.profile == "" || r.profile == s.session.profile)
  }

  /** What a thread knows while it holds `fallbackMu`: until Close runs, the profile it is working for
      is the current one and no runtime is held. */
  ghost predicate Knows(s: State, pc: Pc) {
    match pc
    case PrepareSwapped(ua, ck, _, fallback) =>
      !s.session.closed ==>
        && s.session.userAgent == ua && s.session.cookie == ck && s.session.runtime.None?
        && s.session.useFallback == fallback
    case PrepareProfile(ua, ck) =>
      !s.session.closed ==> s.session.userAgent == ua && s.session.cookie == ck && s.session.runtime.None?
    case Build(ua, ck, profile, success) =>
      && success in {Done, Switched}
      && (!s.session.closed ==>
            && s.session.userAgent == ua && s.session.cookie == ck && s.session.runtime.None?
            && s.session.profile == profile)
    case Install(ua, ck, profile, built, success) =>
      && success in {Done, Switched}
      && built < |s.runtimes| && s.runtimes[built].userAgent == ua && s.runtimes[built].cookie == ck
        && s.runtimes[built].profile == profile
      && (!s.session.closed ==>
            s.session.userAgent == ua && s.session.cookie == ck && s.session.runtime.None?
              && s.session.profile in {"", profile})
    case Drop(_, outcome) => outcome != ErrProfile
    case Leave(outcome) => outcome != ErrProfile
    case _ => true
  }

  ghost predicate Inv(s: State) {
    && Accounted(s) && LockHeld(s) && HeldMatches(s)
    && (forall t :: 0 <= t < |s.threads| ==> Knows(s, s.threads[t]))
  }

  // ----- every step keeps it

  lemma {:induction false} CarriersUpdate(threads: seq<Pc>, t: nat, pc: Pc, r: RuntimeId)
    requires t < |threads|
    ensures Carriers(threads[t := pc], r) + (if threads[t].InFlight() == Some(r) then 1 else 0)
            == Carriers(threads, r) + (if pc.InFlight() == Some(r) then 1 else 0)
  {
    var n := |threads| - 1;
    if t < n {
      CarriersUpdate(threads[..n], t, pc, r);
      assert threads[t := pc][..n] == threads[..n][t := pc];
    } else {
      assert threads[t := pc][..n] == threads[..n];
    }
  }

  lemma {:induction false} CarriedByOne(threads: seq<Pc>, t: nat, r: RuntimeId)
    requires t < |threads| && threads[t].InFlight() == Some(r)
    ensures Carriers(threads, r) >= 1
  {
    var n := |threads| - 1;
    if t < n {
      CarriedByOne(threads[..n], t, r);
    }
  }

  /** A thread carries only runtimes that exist. */
  lemma CarriedExists(s: State, t: nat)
    requires Accounted(s) && t < |s.threads| && s.threads[t].InFlight().Some?
    ensures s.threads[t].InFlight().value < |s.runtimes|
  {
    CarriedByOne(s.threads, t, s.threads[t].InFlight().value);
  }

  lemma HeldExists(s: State)
    requires Accounted(s) && s.session.runtime.Some?
    ensures s.session.runtime.value < |s.runtimes|
  {
    assert HeldCount(s.session, s.session.runtime.value) == 1;
  }

  function Carry(pc: Pc, r: RuntimeId): nat {
    if pc.InFlight() == Some(r) then 1 else 0
  }

  function Closes(s: State, r: RuntimeId): nat {
    if r < |s.runtimes| then s.runtimes[r].closes else 0
  }

  /** A step hands each runtime on: what the list, the session and the moving thread have of it together
      only changes for the runtime being built. */
  lemma TokensMove(s: State, t: nat, a: Action, r: RuntimeId)
    requires Accounted(s) && Enabled(s, t, a)
    ensures var s' := Step(s, t, a);
            && s'.threads == s.threads[t := s'.threads[t]] && |s.threads| == |s'.threads|
            && |s'.runtimes| == |s.runtimes| + (if a.BuildOk? then 1 else 0)
            && Closes(s', r) + HeldCount(s'.session, r) + Carry(s'.threads[t], r) ==
               Closes(s, r) + HeldCount(s.session, r) + Carry(s.threads[t], r)
               + (if a.BuildOk? && r == |s.runtimes| then 1 else 0)
  {
    if s.threads[t].InFlight().Some? {
      CarriedExists(s, t);
    }
  }

  lemma StepKeepsAccounted(s: State, t: nat, a: Action)
    requires Accounted(s) && Enabled(s, t, a)
    ensures Accounted(Step(s, t, a))
  {
    var s' := Step(s, t, a);
    forall r: RuntimeId
      ensures Closes(s', r) + HeldCount(s'.session, r) + Carriers(s'.threads, r) == if r < |s'.runtimes| then 1 else 0
    {
      TokensMove(s, t, a, r);
      CarriersUpdate(s.threads, t, s'.threads[t], r);
    }
    forall r | 0 <= r < |s'.runtimes|
      ensures s'.runtimes[r].closes + HeldCount(s'.session, r) + Carriers(s'.threads, r) == 1
    {
      assert Closes(s', r) == s'.runtimes[r].closes;
    }
    forall r | r >= |s'.runtimes|
      ensures HeldCount(s'.session, r) + Carriers(s'.threads, r) == 0
    {
      assert Closes(s', r) == 0;
    }
  }

  lemma StepKeepsLock(s: State, t: nat, a: Action)
    requires LockHeld(s) && Enabled(s, t, a)
    ensures LockHeld(Step(s, t, a))
  {
  }

  lemma StepKeepsHeld(s: State, t: nat, a: Action)
    requires Inv(s) && Enabled(s, t, a)
    ensures HeldMatches(Step(s, t, a))
  {
  }

  lemma StepKeepsOwnKnowledge(s: State, t: nat, a: Action)
    requires Inv(s) && Enabled(s, t, a)
    ensures Knows(Step(s, t, a), Step(s, t, a).threads[t])
  {
  }

  /** Another thread's step cannot take away what a holder of `fallbackMu` knows. */
  lemma StepKeepsKnowledge(s: State, t: nat, a: Action, u: nat)
    requires Inv(s) && Enabled(s, t, a) && u < |s.threads| && u != t
    ensures Knows(Step(s, t, a), s.threads[u])
  {
    assert Knows(s, s.threads[u]);
    assert !(s.threads[u].HoldsFallback() && s.threads[t].HoldsFallback());
  }

  lemma StepKeepsInv(s: State, t: nat, a: Action)
    requires Inv(s) && Enabled(s, t, a)
    ensures Inv(Step(s, t, a))
  {
    StepKeepsAccounted(s, t, a);
    StepKeepsLock(s, t, a);
    StepKeepsHeld(s, t, a);
    TokensMove(s, t, a, 0);
    var s' := Step(s, t, a);
    hide Step, Accounted, LockHeld, HeldMatches, Knows;
    forall u | 0 <= u < |s'.threads|
      ensures Knows(s', s'.threads[u])
    {
      if u == t {
        StepKeepsOwnKnowledge(s, t, a);
      } else {
        StepKeepsKnowledge(s, t, a, u);
      }
    }
  }

  lemma {:induction false} RunKeepsInv(threads: nat, moves: seq<Move>)
    ensures Run(Initial(threads), moves).Some? ==> Inv(Run(Initial(threads), moves).value)
  {
    if moves == [] {
      InitialInv(threads);
    } else {
      RunKeepsInv(threads, moves[..|moves| - 1]);
      var u := Run(Initial(threads), moves[..|moves| - 1]);
      var m := moves[|moves| - 1];
      if u.Some? && Enabled(u.value, m.thread, m.action) {
        StepKeepsInv(u.value, m.thread, m.action);
      }
    }
  }

  lemma InitialInv(threads: nat)
    ensures Inv(Initial(threads))
  {
    forall r: RuntimeId ensures Carriers(Initial(threads).threads, r) == 0 {
      IdleCarriesNothing(Initial(threads).threads, r);
    }
  }

  lemma {:induction false} IdleCarriesNothing(threads: seq<Pc>, r: RuntimeId)
    requires forall t :: 0 <= t < |threads| ==> threads[t].Idle?
    ensures Carriers(threads, r) == 0
  {
    if threads != [] {
      IdleCarriesNothing(threads[..|threads| - 1], r);
    }
  }

  // ----- main results, for every number of threads and every run

  /** Every runtime built is closed exactly once, or held, or in flight with exactly one thread, and
      never two of these. */
  lemma EachRuntimeInOnePlace(threads: nat, moves: seq<Move>, r: RuntimeId)
    requires Run(Initial(threads), moves).Some?
    ensures var s := Run(Initial(threads), moves).value;
            r < |s.runtimes| ==> s.runtimes[r].closes + HeldCount(s.session, r) + Carriers(s.threads, r) == 1
  {
    RunKeepsInv(threads, moves);
  }

  /** Whenever Sign uses a runtime, that runtime is open and was built for the current user agent, cookie
      and, if one is set, profile. */
  lemma SignEntersMatchingOpenRuntime(threads: nat, moves: seq<Move>, ua: string)
    requires Run(Initial(threads), moves).Some?
    ensures var s := Run(Initial(threads), moves).value;
            match SignSection(s.session, ua)
            case WithRuntime(r) =>
              r < |s.runtimes| && s.runtimes[r].Matches(s.session.userAgent, s.session.cookie, s.session.profile)
              && (ua == "" || ua == s.session.userAgent)
            case _ => true
  {
    RunKeepsInv(threads, moves);
    var s := Run(Initial(threads), moves).value;
    if s.session.runtime.Some? {
      HeldExists(s);
      assert HeldCount(s.session, s.session.runtime.value) == 1;
    }
  }

  /** A held runtime always serves the signer as it is now: the signer is open and in fallback mode, and the
      runtime was built for its user agent, its cookie and, if one is set, its profile. */
  lemma HeldRuntimeServesSigner(threads: nat, moves: seq<Move>)
    requires Run(Initial(threads), moves).Some?
    ensures var s := Run(Initial(threads), moves).value;
            s.session.runtime.Some? ==>
              && !s.session.closed && s.session.useFallback && s.session.runtime.value < |s.runtimes|
              && s.runtimes[s.session.runtime.value].Matches(s.session.userAgent, s.session.cookie, s.session.profile)
  {
    RunKeepsInv(threads, moves);
    var s := Run(Initial(threads), moves).value;
    if s.session.runtime.Some? {
      HeldExists(s);
      assert HeldCount(s.session, s.session.runtime.value) == 1;
    }
  }

  /** A thread about to install a runtime finds the signer closed or unchanged, with no runtime held: the
      profile-mismatch branch is never taken and no held runtime is ever replaced. */
  lemma InstallNeverMismatches(threads: nat, moves: seq<Move>, t: nat)
    requires Run(Initial(threads), moves).Some? && t < threads
    ensures var s := Run(Initial(threads), moves).value;
            && |s.threads| == threads
            && match s.threads[t]
               case Install(ua, ck, profile, built, success) =>
                 var (_, toClose, outcome) := InstallSection(s.session, ua, ck, profile, built, success);
                 if s.session.closed then outcome == ErrClosed && toClose == Some(built)
                 else outcome == success && toClose == None
               case Leave(outcome) => outcome != ErrProfile
               case _ => true
  {
    RunKeepsInv(threads, moves);
    RunKeepsThreads(threads, moves);
    assert Knows(Run(Initial(threads), moves).value, Run(Initial(threads), moves).value.threads[t]);
  }

  lemma {:induction false} RunKeepsThreads(threads: nat, moves: seq<Move>)
    requires Run(Initial(threads), moves).Some?
    ensures |Run(Initial(threads), moves).value.threads| == threads
  {
    if moves != [] {
      RunKeepsThreads(threads, moves[..|moves| - 1]);
    }
  }

  /** Once the signer is closed and every call has returned, no runtime is left open and none was closed twice. */
  lemma ClosedSignerLeaksNothing(threads: nat, moves: seq<Move>)
    requires Run(Initial(threads), moves).Some?
    ensures var s := Run(Initial(threads), moves).value;
            s.session.closed && (forall t :: 0 <= t < |s.threads| ==> s.threads[t].Idle?) ==>
              forall r :: 0 <= r < |s.runtimes| ==> s.runtimes[r].closes == 1
  {
    RunKeepsInv(threads, moves);
    var s := Run(Initial(threads), moves).value;
    if s.session.closed && (forall t :: 0 <= t < |s.threads| ==> s.threads[t].Idle?) {
      forall r | 0 <= r < |s.runtimes|
        ensures s.runtimes[r].closes == 1
      {
        IdleCarriesNothing(s.threads, r);
      }
    }
  }

  /** `closed` never goes back. */
  lemma ClosedStaysClosed(s: State, t: nat, a: Action)
    requires Enabled(s, t, a) && s.session.closed
    ensures Step(s, t, a).session.closed
  {
  }
}
