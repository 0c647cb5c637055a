/** One agent instance: its connection handle, the watchdog that restarts it, and the
    stop that may race with any step of a restart. */
module Instance {
  import opened Options

  type HandleId = nat

  datatype Status = Starting | Running | Stopped | Error | Warning

  /** The fields the instance's lock guards. */
  datatype Fields = Fields(
    status: Status,
    handle: Option<HandleId>,
    manualStop: bool,
    closed: bool,
    restarts: nat)

  predicate Stopping(f: Fields) { f.manualStop || f.closed }

  // -- One function per critical section ------------------------------------------

  /** `setState` with a predicate on the current state. */
  function SetIf(f: Fields, s: Status, from: set<Status>): Fields {
    if f.status in from then f.(status := s) else f
  }

  const ANY_STATUS := {Starting, Running, Stopped, Error, Warning}

  function Install(f: Fields, h: HandleId, count: nat): Fields {
    if Stopping(f) then f else f.(handle := Some(h), restarts := count + 1)
  }

  function Stop(f: Fields): Fields {
    if f.closed then f else f.(closed := true, manualStop := true, status := Stopped)
  }

  class InstanceObject {
    var status: Status
    var handle: Option<HandleId>
    var manualStop: bool
    var closed: bool
    var restarts: nat

    function View(): Fields
      reads this
    {
      Fields(status, handle, manualStop, closed, restarts)
    }

    constructor ()
      ensures View() == Fields(Starting, None, false, false, 0)
    {
      status, handle, manualStop, closed, restarts := Starting, None, false, false, 0;
    }

    method SetState(s: Status, from: set<Status>) returns (changed: bool)
      modifies this`status
      ensures View() == SetIf(old(View()), s, from) && changed == (old(status) in from)
    {
      changed := status in from;
      if changed { status := s; }
    }

    /** The watchdog's last critical section: take the new handle, unless a stop came first. */
    method InstallHandle(h: HandleId, count: nat) returns (abandon: bool)
      modifies this
      ensures View() == Install(old(View()), h, count) && abandon == Stopping(old(View()))
    {
      if manualStop || closed { return true; }
      handle := Some(h);
      restarts := count + 1;
      abandon := false;
    }

    /** Returns the handle the caller has to close. */
    method StopSection() returns (h: Option<HandleId>)
      modifies this
      ensures View() == Stop(old(View())) && h == if old(closed) then None else old(handle)
    {
      if closed { return None; }
      closed, manualStop, status := true, true, Stopped;
      h := handle;
    }
  }

  // -- The instance with its environment ---------------------------------------------

  /** A connection dies by itself, or is closed by the instance. */
  datatype Conn = Conn(dead: bool, closed: bool)

  predicate Down(c: Conn) { c.dead || c.closed }

  /** Bringing the instance up; nobody can stop it before that is over. */
  datatype Boot = NotStarted | Connected(h: HandleId) | Up | Failed

  /** The watchdog. It spawns its successor as its last act, so there is one at a time. */
  datatype Dog =
    | NoDog
    | Watching(h: HandleId)
    | Suspecting(h: HandleId)
    | Marked(h: HandleId)
    | Restarting(h: HandleId, count: nat)
    | Connecting(h: HandleId, count: nat)
    | Spawned(h: HandleId, count: nat, spawn: HandleId)
    | Abandoning(spawn: HandleId)
    | Installed(spawn: HandleId)
    | GivingUp
    | Gone

  /** What `stop` still has to do. */
  datatype Stopper = NotCalled | Closing(h: Option<HandleId>) | Done

  datatype State = State(
    f: Fields,
    conns: map<HandleId, Conn>,
    connects: nat,
    boot: Boot,
    dog: Dog,
    stopper: Stopper)

  const Init := State(Fields(Starting, None, false, false, 0), map[], 0, NotStarted, NoDog, NotCalled)

  /** The restart policy the instance was configured with. */
  datatype Policy = Policy(enabled: bool, limit: int)

  datatype Action =
    | StartConnects(h: HandleId)
    | StartFails
    | StartLocal                 // no spawner, so nothing to connect
    | StartInstalls
    | ConnectionDies(h: HandleId)
    | DogWakes
    | DogMarksError
    | DogDecides
    | DogMarksStarting
    | DogConnects(spawn: HandleId)
    | DogConnectFails
    | DogInstalls
    | DogAbandons
    | DogResumes
    | DogGivesUp
    | StopCalled
    | StopCloses

  predicate Enabled(s: State, a: Action) {
    match a
    case StartConnects(h) => s.boot == NotStarted && h !in s.conns
    case StartFails => s.boot == NotStarted
    case StartLocal => s.boot == NotStarted
    case StartInstalls => s.boot.Connected?
    case ConnectionDies(h) => h in s.conns
    case DogWakes => s.dog.Watching? && s.dog.h in s.conns && Down(s.conns[s.dog.h])
    case DogMarksError => s.dog.Suspecting?
    case DogDecides => s.dog.Marked?
    case DogMarksStarting => s.dog.Restarting?
    case DogConnects(n) => s.dog.Connecting? && n !in s.conns
    case DogConnectFails => s.dog.Connecting?
    case DogInstalls => s.dog.Spawned?
    case DogAbandons => s.dog.Abandoning? && s.dog.spawn in s.conns
    case DogResumes => s.dog.Installed?
    case DogGivesUp => s.dog == GivingUp
    case StopCalled => s.boot == Up
    case StopCloses => s.stopper.Closing? && (s.stopper.h.Some? ==> s.stopper.h.value in s.conns)
  }

  function CloseConn(conns: map<HandleId, Conn>, h: HandleId): map<HandleId, Conn>
    requires h in conns
  {
    conns[h := conns[h].(closed := true)]
  }

  function Do(policy: Policy, s: State, a: Action): State
    requires Enabled(s, a)
  {
    match a
    case StartConnects(h) => s.(connects := s.connects + 1, conns := s.conns[h := Conn(false, false)], boot := Connected(h))
    case StartFails => s.(connects := s.connects + 1, boot := Failed, f := s.f.(status := Error))
    case StartLocal => s.(boot := Up, f := s.f.(status := Running), dog := Gone)
    case StartInstalls =>
      s.(f := s.f.(handle := Some(s.boot.h), status := Running), boot := Up, dog := Watching(s.boot.h))
    case ConnectionDies(h) => s.(conns := s.conns[h := s.conns[h].(dead := true)])
    case DogWakes =>
      s.(dog := if Stopping(s.f) || s.f.handle != Some(s.dog.h) then Gone else Suspecting(s.dog.h))
    case DogMarksError => s.(f := SetIf(s.f, Error, {Running, Starting}), dog := Marked(s.dog.h))
    case DogDecides =>
      s.(dog := if Stopping(s.f) || !policy.enabled then Gone
                else if s.f.restarts >= policy.limit then GivingUp
                else Restarting(s.dog.h, s.f.restarts))
    case DogMarksStarting => s.(f := SetIf(s.f, Starting, {Error}), dog := Connecting(s.dog.h, s.dog.count))
    case DogConnects(n) =>
      s.(connects := s.connects + 1, conns := s.conns[n := Conn(false, false)], dog := Spawned(s.dog.h, s.dog.count, n))
    case DogConnectFails => s.(connects := s.connects + 1, dog := GivingUp)
    case DogInstalls =>
      s.(f := Install(s.f, s.dog.spawn, s.dog.count),
         dog := if Stopping(s.f) then Abandoning(s.dog.spawn) else Installed(s.dog.spawn))
    case DogAbandons => s.(conns := CloseConn(s.conns, s.dog.spawn), dog := Gone)
    case DogResumes => s.(f := SetIf(s.f, Running, {Starting}), dog := Watching(s.dog.spawn))
    case DogGivesUp => s.(f := SetIf(s.f, Warning, ANY_STATUS), dog := Gone)
    case StopCalled =>
      s.(f := Stop(s.f), stopper := if s.f.closed then s.stopper else Closing(s.f.handle))
    case StopCloses =>
      s.(conns := if s.stopper.h.Some? then CloseConn(s.conns, s.stopper.h.value) else s.conns, stopper := Done)
  }

  function Run(policy: Policy, s: State, trace: seq<Action>): Option<State>
    decreases |trace|
  {
    if trace == [] then Some(s)
    else if Enabled(s, trace[0]) then Run(policy, Do(policy, s, trace[0]), trace[1..])
    else None
  }

  // -- What every step keeps ------------------------------------------------------------

  /** A handle the code still has in its hands: installed, being brought up, or being spawned. */
  predicate Held(s: State, h: HandleId) {
    || s.f.handle == Some(h)
    || s.boot == Connected(h)
    || (s.dog.Spawned? && s.dog.spawn == h)
    || s.dog == Abandoning(h)
  }

  ghost predicate NoneForgotten(s: State) {
    && (forall h :: h in s.conns ==> Down(s.conns[h]) || Held(s, h))
    && (forall h :: Held(s, h) ==> h in s.conns)
  }

  /** Between waking and installing, the watchdog's handle is the installed one, and down. */
  ghost predicate DogWell(s: State) {
    match s.dog
    case NoDog => s.boot != Up
    case Watching(h) => s.boot == Up && s.f.handle == Some(h)
    case Suspecting(h) => s.boot == Up && DownAndInstalled(s, h)
    case Marked(h) => s.boot == Up && DownAndInstalled(s, h)
    case Restarting(h, _) => s.boot == Up && DownAndInstalled(s, h)
    case Connecting(h, _) => s.boot == Up && DownAndInstalled(s, h)
    case Spawned(h, _, n) => s.boot == Up && DownAndInstalled(s, h) && n in s.conns && n != h
    case Abandoning(n) => s.boot == Up && Stopping(s.f) && n in s.conns
    case Installed(n) => s.boot == Up && s.f.handle == Some(n)
    case GivingUp => s.boot == Up
    case Gone => s.boot == Up
  }

  ghost predicate DownAndInstalled(s: State, h: HandleId) {
    s.f.handle == Some(h) && h in s.conns && Down(s.conns[h])
  }

  ghost predicate StopWell(s: State) {
    && (s.f.closed == s.f.manualStop) && (s.f.closed == (s.stopper != NotCalled)) && (s.f.closed ==> s.boot == Up)
    && (s.stopper.Closing? ==> s.stopper.h == s.f.handle)
    && (s.stopper == Done && s.f.handle.Some? ==> s.f.handle.value in s.conns && s.conns[s.f.handle.value].closed)
    && (s.boot != Up ==> s.f.handle == None) && (s.f.status == Stopped ==> s.f.closed)
  }

  function Budget(policy: Policy): nat { if policy.enabled && policy.limit > 0 then policy.limit else 0 }

  /** How many connects the watchdog's position accounts for. */
  ghost predicate ConnectsCounted(policy: Policy, s: State) {
    && s.f.restarts <= Budget(policy)
    && (s.dog.Restarting? || s.dog.Connecting? || s.dog.Spawned? ==>
          s.dog.count == s.f.restarts && policy.enabled && s.f.restarts < policy.limit)
    && s.connects <= Budget(policy) + 1
    && (s.boot == NotStarted ==> s.connects == 0)
    && (!s.dog.Gone? && !s.dog.GivingUp? && !s.dog.Abandoning? ==>
          s.connects <= s.f.restarts + (if s.dog.Spawned? then 2 else 1))
  }

  ghost predicate Inv(policy: Policy, s: State) {
    NoneForgotten(s) && DogWell(s) && StopWell(s) && ConnectsCounted(policy, s)
  }

  lemma ForgottenStep(policy: Policy, s: State, a: Action)
    requires Inv(policy, s) && Enabled(s, a)
    ensures NoneForgotten(Do(policy, s, a))
  {}

  lemma DogStep(policy: Policy, s: State, a: Action)
    requires Inv(policy, s) && Enabled(s, a)
    ensures DogWell(Do(policy, s, a))
  {}

  lemma StopStep(policy: Policy, s: State, a: Action)
    requires Inv(policy, s) && Enabled(s, a)
    ensures StopWell(Do(policy, s, a))
  {}

  lemma CountStep(policy: Policy, s: State, a: Action)
    requires Inv(policy, s) && Enabled(s, a)
    ensures ConnectsCounted(policy, Do(policy, s, a))
  {}

  lemma InvStep(policy: Policy, s: State, a: Action)
    requires Inv(policy, s) && Enabled(s, a)
    ensures Inv(policy, Do(policy, s, a))
  {
    ForgottenStep(policy, s, a);
    DogStep(policy, s, a);
    StopStep(policy, s, a);
    CountStep(policy, s, a);
  }

  lemma {:induction false} AlwaysInv(policy: Policy, s: State, trace: seq<Action>)
    requires Inv(policy, s) && Run(policy, s, trace).Some?
    ensures Inv(policy, Run(policy, s, trace).value)
    decreases |trace|
  {
    if trace != [] {
      InvStep(policy, s, trace[0]);
      AlwaysInv(policy, Do(policy, s, trace[0]), trace[1..]);
    }
  }

  // -- What the instance promises ------------------------------------------------------------

  /** Over every interleaving `Connect` is called at most once more than the restart limit
      allows, and only once when restarts are off. */
  lemma ConnectsBounded(policy: Policy, trace: seq<Action>)
    requires Run(policy, Init, trace).Some?
    ensures Run(policy, Init, trace).value.connects <= Budget(policy) + 1
    ensures !policy.enabled ==> Run(policy, Init, trace).value.connects <= 1
  {
    AlwaysInv(policy, Init, trace);
  }

  /** A stop is through, and the watchdog holds no handle of its own. */
  predicate StoppedQuietly(s: State) { s.stopper == Done && !s.dog.Spawned? && !s.dog.Abandoning? }

  /** Then every handle ever connected has died or been closed. */
  lemma NoLeakAfterStop(policy: Policy, trace: seq<Action>, h: HandleId)
    requires Run(policy, Init, trace).Some?
    requires StoppedQuietly(Run(policy, Init, trace).value) && h in Run(policy, Init, trace).value.conns
    ensures Down(Run(policy, Init, trace).value.conns[h])
  {
    AlwaysInv(policy, Init, trace);
    QuietMeansDown(policy, Run(policy, Init, trace).value, h);
  }

  lemma QuietMeansDown(policy: Policy, s: State, h: HandleId)
    requires Inv(policy, s) && StoppedQuietly(s) && h in s.conns
    ensures Down(s.conns[h])
  {}

  /** A stop that wins the race makes the watchdog close what it spawned, and install nothing. */
  lemma StopWinsTheRace(policy: Policy, trace: seq<Action>)
    requires Run(policy, Init, trace).Some?
    requires var s := Run(policy, Init, trace).value; s.f.closed && s.dog.Spawned?
    ensures var s := Run(policy, Init, trace).value; var n := s.dog.spawn;
            var s1 := Do(policy, s, DogInstalls);
            && s1.f == s.f && Enabled(s1, DogAbandons)
            && Do(policy, s1, DogAbandons).conns[n].closed && Do(policy, s1, DogAbandons).dog == Gone
  {
    AlwaysInv(policy, Init, trace);
  }

  // -- When the promises hold as they are documented -----------------------------------------------

  lemma {:induction false} RunSnoc(policy: Policy, s: State, trace: seq<Action>, a: Action)
    requires Run(policy, s, trace).Some? && Enabled(Run(policy, s, trace).value, a)
    ensures Run(policy, s, trace + [a]) == Some(Do(policy, Run(policy, s, trace).value, a))
    decreases |trace|
  {
    if trace == [] {
      assert trace + [a] == [a] && [a][1..] == [];
    } else {
      assert (trace + [a])[1..] == trace[1..] + [a] && (trace + [a])[0] == trace[0];
      RunSnoc(policy, Do(policy, s, trace[0]), trace[1..], a);
    }
  }

  /** `trace` leads to `s`. */
  ghost predicate Comes(policy: Policy, trace: seq<Action>, s: State) { Run(policy, Init, trace) == Some(s) }

  lemma Then(policy: Policy, trace: seq<Action>, s: State, a: Action) returns (trace': seq<Action>)
    requires Comes(policy, trace, s) && Enabled(s, a)
    ensures Comes(policy, trace', Do(policy, s, a))
  {
    RunSnoc(policy, Init, trace, a);
    trace' := trace + [a];
  }

  lemma Begun(policy: Policy) returns (trace: seq<Action>, s: State)
    ensures Comes(policy, trace, s) && s.dog == Watching(0) && s.f == Fields(Running, Some(0), false, false, 0)
    ensures s.conns == map[0 := Conn(false, false)] && s.connects == 1 && s.boot == Up && s.stopper == NotCalled
  {
    trace, s := [], Init;
    trace := Then(policy, trace, s, StartConnects(0));
    s := Do(policy, s, StartConnects(0));
    trace := Then(policy, trace, s, StartInstalls);
    s := Do(policy, s, StartInstalls);
  }

  /** The connection dies, and the watchdog comes to its decision. */
  lemma Suspected(policy: Policy, trace: seq<Action>, s: State, h: HandleId) returns (trace': seq<Action>, s': State)
    requires Comes(policy, trace, s) && s.dog == Watching(h) && s.f.handle == Some(h) && h in s.conns
    requires !Stopping(s.f) && s.f.status == Running && s.boot == Up
    ensures Comes(policy, trace', s') && s'.dog == Marked(h) && s'.f == s.f.(status := Error)
    ensures s'.conns.Keys == s.conns.Keys && s'.connects == s.connects && s'.boot == Up && s'.stopper == s.stopper
  {
    trace' := Then(policy, trace, s, ConnectionDies(h));
    s' := Do(policy, s, ConnectionDies(h));
    trace' := Then(policy, trace', s', DogWakes);
    s' := Do(policy, s', DogWakes);
    trace' := Then(policy, trace', s', DogMarksError);
    s' := Do(policy, s', DogMarksError);
  }

  /** With restarts on, whatever the limit, a watchdog can come to give up before a stop and to
      say so after it. */
  lemma Overwritten(policy: Policy) returns (trace: seq<Action>, s: State)
    requires policy.enabled
    ensures Comes(policy, trace, s) && s.f.status == Stopped && s.dog == GivingUp
  {
    trace, s := Begun(policy);
    trace, s := Suspected(policy, trace, s, 0);
    trace := Then(policy, trace, s, DogDecides);
    s := Do(policy, s, DogDecides);
    if s.dog != GivingUp {
      trace := Then(policy, trace, s, DogMarksStarting);
      s := Do(policy, s, DogMarksStarting);
      trace := Then(policy, trace, s, DogConnectFails);
      s := Do(policy, s, DogConnectFails);
    }
    trace := Then(policy, trace, s, StopCalled);
    s := Do(policy, s, StopCalled);
  }

  /** The watchdog of an instance without restarts never gets past its decision. */
  predicate DogIdle(d: Dog) { d.NoDog? || d.Watching? || d.Suspecting? || d.Marked? || d.Gone? }

  lemma {:induction false} StaysIdle(policy: Policy, s: State, trace: seq<Action>)
    requires !policy.enabled && DogIdle(s.dog) && Run(policy, s, trace).Some?
    ensures DogIdle(Run(policy, s, trace).value.dog)
    decreases |trace|
  {
    if trace != [] { StaysIdle(policy, Do(policy, s, trace[0]), trace[1..]); }
  }

  ghost predicate StoppedStays(policy: Policy, trace: seq<Action>, a: Action) {
    var s := Run(policy, Init, trace);
    s.Some? && s.value.f.status == Stopped && Enabled(s.value, a) ==> Do(policy, s.value, a).f.status == Stopped
  }

  /** `Stopped` is final exactly when restarts are off. */
  lemma StoppedIsFinalIff(policy: Policy)
    ensures (forall trace, a :: StoppedStays(policy, trace, a)) <==> !policy.enabled
  {
    if policy.enabled {
      var trace, s := Overwritten(policy);
      assert !StoppedStays(policy, trace, DogGivesUp);
    } else {
      forall trace, a ensures StoppedStays(policy, trace, a) {
        if Run(policy, Init, trace).Some? {
          AlwaysInv(policy, Init, trace);
          StaysIdle(policy, Init, trace);
        }
      }
    }
  }

  ghost predicate WithinLimit(policy: Policy, trace: seq<Action>) {
    Run(policy, Init, trace).Some? ==> Run(policy, Init, trace).value.connects <= policy.limit + 1
  }

  /** At most one connect more than the configured limit: exactly for limits that are not
      negative. With a negative one the first connect is already too many. */
  lemma LimitKeptIff(policy: Policy)
    ensures (forall trace :: WithinLimit(policy, trace)) <==> policy.limit >= 0
  {
    if policy.limit >= 0 {
      forall trace ensures WithinLimit(policy, trace) {
        if Run(policy, Init, trace).Some? { ConnectsBounded(policy, trace); }
      }
    } else {
      var trace := Then(policy, [], Init, StartFails);
      assert !WithinLimit(policy, trace);
    }
  }

  /** The bound is met: some run uses up every connect it allows. */
  lemma BoundIsMet(policy: Policy) returns (trace: seq<Action>)
    ensures Run(policy, Init, trace).Some? && Run(policy, Init, trace).value.connects == Budget(policy) + 1
  {
    var s;
    trace, s := Restarted(policy, Budget(policy));
  }

  lemma {:induction false} Restarted(policy: Policy, n: nat) returns (trace: seq<Action>, s: State)
    requires n <= Budget(policy)
    ensures Comes(policy, trace, s) && s.connects == n + 1 && s.f == Fields(Running, Some(n), false, false, n)
    ensures s.dog == Watching(n) && s.boot == Up && n in s.conns && forall h :: h in s.conns ==> h <= n
    decreases n
  {
    if n == 0 {
      trace, s := Begun(policy);
    } else {
      trace, s := Restarted(policy, n - 1);
      trace, s := Suspected(policy, trace, s, n - 1);
      trace := Then(policy, trace, s, DogDecides);
      s := Do(policy, s, DogDecides);
      trace := Then(policy, trace, s, DogMarksStarting);
      s := Do(policy, s, DogMarksStarting);
      trace, s := Reconnected(policy, trace, s, n);
    }
  }

  lemma Reconnected(policy: Policy, trace: seq<Action>, s: State, n: nat) returns (trace': seq<Action>, s': State)
    requires n > 0 && Comes(policy, trace, s) && s.dog == Connecting(n - 1, n - 1) && s.boot == Up && n !in s.conns
    requires s.f == Fields(Starting, Some(n - 1), false, false, n - 1)
    ensures Comes(policy, trace', s') && s'.connects == s.connects + 1 && s'.f == Fields(Running, Some(n), false, false, n)
    ensures s'.dog == Watching(n) && s'.boot == Up && s'.conns == s.conns[n := Conn(false, false)]
  {
    trace' := Then(policy, trace, s, DogConnects(n));
    s' := Do(policy, s, DogConnects(n));
    trace' := Then(policy, trace', s', DogInstalls);
    s' := Do(policy, s', DogInstalls);
    trace' := Then(policy, trace', s', DogResumes);
    s' := Do(policy, s', DogResumes);
  }
}
