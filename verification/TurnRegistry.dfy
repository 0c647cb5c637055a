/** Native turns that outlive the connection that started them: the registry of
    in-flight turns, their viewers, grace timers, and the one teardown of each. */
module TurnRegistry {
  import opened Options

  type SessionId = string
  type TurnId = nat
  type ViewerId = string
  type Time = int

  /** How far the teardown of a turn has come; the compare-and-swap lets one through. */
  datatype Teardown = NotBegun | Claimed | ContextCancelled | Unregistered | Complete

  /** `cancelled` is the turn's context: by a teardown, by its deadline, after it
      finished, or with the registry's root. */
  datatype Turn = Turn(
    sid: SessionId,
    viewers: set<ViewerId>,
    finished: bool,
    cancelled: bool,
    grace: Option<Time>,       // the deadline of an armed grace timer
    teardown: Teardown)

  datatype State = State(sessions: map<SessionId, TurnId>, turns: map<TurnId, Turn>, closed: bool)

  const Init := State(map[], map[], false)

  function NewTurn(sid: SessionId): Turn { Turn(sid, {}, false, false, None, NotBegun) }

  // -- One function per critical section ---------------------------------------------

  datatype Started = RegistryClosed | Joined(turn: TurnId) | Fresh

  /** What `Start` decides under the registry lock. */
  function StartDecision(s: State, sid: SessionId): Started {
    if s.closed then RegistryClosed
    else if sid in s.sessions && s.sessions[sid] in s.turns && !s.turns[s.sessions[sid]].finished
    then Joined(s.sessions[sid])
    else Fresh
  }

  function Start(s: State, sid: SessionId, t: TurnId): State {
    if StartDecision(s, sid) == Fresh
    then s.(sessions := s.sessions[sid := t], turns := s.turns[t := NewTurn(sid)])
    else s
  }

  /** Attaching disarms the grace timer; an id already attached is refused. */
  function Attach(u: Turn, v: ViewerId): Turn {
    if v == "" || v in u.viewers then u else u.(viewers := u.viewers + {v}, grace := None)
  }

  /** The last viewer to leave an unfinished turn arms the timer. */
  function Detach(u: Turn, v: ViewerId, deadline: Time): Turn {
    if v !in u.viewers then u
    else
      var left := u.viewers - {v};
      u.(viewers := left, grace := if left == {} && !u.finished then Some(deadline) else u.grace)
  }

  function MarkFinished(u: Turn): Turn {
    if u.finished then u else u.(finished := true, grace := None)
  }

  /** Only the turn itself is unregistered, never a successor. */
  function RemoveSession(s: State, t: TurnId): State
    requires t in s.turns
  {
    var sid := s.turns[t].sid;
    if sid in s.sessions && s.sessions[sid] == t then s.(sessions := s.sessions - {sid}) else s
  }

  function Close(s: State): State {
    if s.closed then s else s.(closed := true, sessions := map[])
  }

  function SetTurn(s: State, t: TurnId, u: Turn): State { s.(turns := s.turns[t := u]) }

  /** The registry object; every method is one critical section. */
  class Registry {
    var sessions: map<SessionId, TurnId>
    var turns: map<TurnId, Turn>
    var closed: bool

    function View(): State
      reads this
    {
      State(sessions, turns, closed)
    }

    constructor ()
      ensures View() == Init
    {
      sessions, turns, closed := map[], map[], false;
    }

    method StartTurn(sid: SessionId, t: TurnId) returns (r: Started)
      requires t !in turns
      modifies this
      ensures r == StartDecision(old(View()), sid) && View() == Start(old(View()), sid, t)
    {
      if closed { return RegistryClosed; }
      if sid in sessions && sessions[sid] in turns && !turns[sessions[sid]].finished { return Joined(sessions[sid]); }
      sessions := sessions[sid := t];
      turns := turns[t := NewTurn(sid)];
      r := Fresh;
    }

    method AttachViewer(t: TurnId, v: ViewerId) returns (ok: bool)
      requires t in turns
      modifies this`turns
      ensures View() == SetTurn(old(View()), t, Attach(old(turns[t]), v))
      ensures ok <==> v != "" && v !in old(turns[t]).viewers
    {
      var u := turns[t];
      ok := v != "" && v !in u.viewers;
      if ok {
        turns := turns[t := u.(viewers := u.viewers + {v}, grace := None)];
      }
    }

    /** The deadline is now plus the grace window. Reports whether the caller must tear down. */
    method DetachViewer(t: TurnId, v: ViewerId, deadline: Time) returns (reap: bool)
      requires t in turns
      modifies this`turns
      ensures View() == SetTurn(old(View()), t, Detach(old(turns[t]), v, deadline))
      ensures reap <==> v in old(turns[t]).viewers && turns[t].viewers == {} && turns[t].finished
    {
      var u := turns[t];
      if v !in u.viewers { return false; }
      var left := u.viewers - {v};
      turns := turns[t := u.(viewers := left)];
      if left == {} && !u.finished {
        turns := turns[t := turns[t].(grace := Some(deadline))];
      }
      reap := left == {} && u.finished;
    }

    method FinishTurn(t: TurnId) returns (reap: bool)
      requires t in turns
      modifies this`turns
      ensures View() == SetTurn(old(View()), t, MarkFinished(old(turns[t])))
      ensures reap <==> !old(turns[t]).finished && turns[t].viewers == {}
    {
      var u := turns[t];
      if u.finished { return false; }
      turns := turns[t := u.(finished := true, grace := None)];
      reap := u.viewers == {};
    }

    method Unregister(t: TurnId)
      requires t in turns
      modifies this`sessions
      ensures View() == RemoveSession(old(View()), t)
    {
      var sid := turns[t].sid;
      if sid in sessions && sessions[sid] == t { sessions := sessions - {sid}; }
    }

    /** Empties the map and hands every turn that was in it to the caller's teardown loop. */
    method CloseAll() returns (live: set<TurnId>)
      modifies this`sessions, this`closed
      ensures View() == Close(old(View()))
      ensures live == if old(closed) then {} else set sid | sid in old(sessions) :: old(sessions)[sid]
    {
      live := {};
      if closed { return; }
      closed := true;
      while sessions != map[]
        invariant sessions.Keys <= old(sessions).Keys && forall sid :: sid in sessions ==> sessions[sid] == old(sessions)[sid]
        invariant closed
        invariant live == set sid | sid in old(sessions) && sid !in sessions :: old(sessions)[sid]
        decreases sessions.Keys
      {
        assert sessions.Keys != {};
        var sid :| sid in sessions.Keys;
        live := live + {sessions[sid]};
        sessions := sessions - {sid};
      }
    }
  }

  // -- Every interleaving ----------------------------------------------------------------

  datatype Action =
    | StartCalled(sid: SessionId, t: TurnId)
    | Attached(t: TurnId, v: ViewerId)                    // by Start or AttachIfRunning
    | Detached(t: TurnId, v: ViewerId, deadline: Time)
    | FunctionReturned(t: TurnId)                         // the turn's work ended
    | FinishCancels(t: TurnId)                            // ... and then releases its context
    | DeadlinePassed(t: TurnId)
    | TeardownClaimed(t: TurnId)                          // Cancel, grace expiry, ReapIdle, last detach, Close
    | TeardownCancels(t: TurnId)
    | TeardownUnregisters(t: TurnId)
    | TeardownStopsTimer(t: TurnId)
    | CloseCalled
    | RootCancelled

  predicate Enabled(s: State, a: Action) {
    match a
    case StartCalled(_, t) => t !in s.turns
    case Attached(t, _) => t in s.turns
    case Detached(t, _, _) => t in s.turns
    case FunctionReturned(t) => t in s.turns
    case FinishCancels(t) => t in s.turns && s.turns[t].finished
    case DeadlinePassed(t) => t in s.turns
    case TeardownClaimed(t) => t in s.turns && s.turns[t].teardown == NotBegun
    case TeardownCancels(t) => t in s.turns && s.turns[t].teardown == Claimed
    case TeardownUnregisters(t) => t in s.turns && s.turns[t].teardown == ContextCancelled
    case TeardownStopsTimer(t) => t in s.turns && s.turns[t].teardown == Unregistered
    case CloseCalled => true
    case RootCancelled => s.closed
  }

  function Do(s: State, a: Action): State
    requires Enabled(s, a)
  {
    match a
    case StartCalled(sid, t) => Start(s, sid, t)
    case Attached(t, v) => SetTurn(s, t, Attach(s.turns[t], v))
    case Detached(t, v, d) => SetTurn(s, t, Detach(s.turns[t], v, d))
    case FunctionReturned(t) => SetTurn(s, t, MarkFinished(s.turns[t]))
    case FinishCancels(t) => SetTurn(s, t, s.turns[t].(cancelled := true))
    case DeadlinePassed(t) => SetTurn(s, t, s.turns[t].(cancelled := true))
    case TeardownClaimed(t) => SetTurn(s, t, s.turns[t].(teardown := Claimed))
    case TeardownCancels(t) => SetTurn(s, t, s.turns[t].(teardown := ContextCancelled, cancelled := true))
    case TeardownUnregisters(t) => SetTurn(RemoveSession(s, t), t, s.turns[t].(teardown := Unregistered))
    case TeardownStopsTimer(t) => SetTurn(s, t, s.turns[t].(teardown := Complete, grace := None))
    case CloseCalled => Close(s)
    case RootCancelled => s.(turns := map t | t in s.turns :: s.turns[t].(cancelled := true))
  }

  function Run(s: State, trace: seq<Action>): Option<State>
    decreases |trace|
  {
    if trace == [] then Some(s)
    else if Enabled(s, trace[0]) then Run(Do(s, trace[0]), trace[1..])
    else None
  }

  // -- What every step keeps --------------------------------------------------------------

  /** Unfinished, and its context not cancelled: the turn may still be working. */
  predicate Working(s: State, t: TurnId) {
    t in s.turns && !s.turns[t].finished && !s.turns[t].cancelled
  }

  predicate Registered(s: State, t: TurnId) {
    t in s.turns && s.turns[t].sid in s.sessions && s.sessions[s.turns[t].sid] == t
  }

  ghost predicate SessionsWell(s: State) {
    forall sid :: sid in s.sessions ==> s.sessions[sid] in s.turns && s.turns[s.sessions[sid]].sid == sid
  }

  /** A turn's own record. */
  predicate TurnWell(u: Turn) {
    && (u.teardown != NotBegun && u.teardown != Claimed ==> u.cancelled)
    && (u.grace.Some? ==> u.viewers == {} && !u.finished)
  }

  predicate TornDown(u: Turn) { u.teardown == Unregistered || u.teardown == Complete }

  ghost predicate TurnsWell(s: State) {
    forall t :: t in s.turns ==> TurnWell(s.turns[t]) && (TornDown(s.turns[t]) ==> !Registered(s, t))
  }

  ghost predicate WorkingWell(s: State) {
    && (forall t :: Working(s, t) ==> Registered(s, t) || s.closed)
    && forall t, t' :: Working(s, t) && Working(s, t') && s.turns[t].sid == s.turns[t'].sid ==> t == t'
  }

  ghost predicate Inv(s: State) { SessionsWell(s) && TurnsWell(s) && WorkingWell(s) }

  lemma SessionsStep(s: State, a: Action)
    requires Inv(s) && Enabled(s, a)
    ensures SessionsWell(Do(s, a))
  {}

  lemma TurnsStep(s: State, a: Action)
    requires Inv(s) && Enabled(s, a)
    ensures TurnsWell(Do(s, a))
  {
    forall t | t in Do(s, a).turns
      ensures TurnWell(Do(s, a).turns[t]) && (TornDown(Do(s, a).turns[t]) ==> !Registered(Do(s, a), t))
    {
      if t in s.turns {
        RecordStep(s, a, t);
        TornDownStep(s, a, t);
      }
    }
  }

  lemma RecordStep(s: State, a: Action, t: TurnId)
    requires Enabled(s, a) && t in s.turns && TurnWell(s.turns[t])
    ensures t in Do(s, a).turns && TurnWell(Do(s, a).turns[t]) && Do(s, a).turns[t].sid == s.turns[t].sid
  {
    match a
    case Attached(_, v) => AttachWell(s.turns[t], v);
    case Detached(_, v, d) => DetachWell(s.turns[t], v, d);
    case _ =>
  }

  lemma AttachWell(u: Turn, v: ViewerId)
    requires TurnWell(u)
    ensures TurnWell(Attach(u, v))
  {}

  lemma DetachWell(u: Turn, v: ViewerId, deadline: Time)
    requires TurnWell(u)
    ensures TurnWell(Detach(u, v, deadline))
  {}

  lemma TornDownStep(s: State, a: Action, t: TurnId)
    requires SessionsWell(s) && Enabled(s, a) && t in s.turns && (TornDown(s.turns[t]) ==> !Registered(s, t))
    ensures t in Do(s, a).turns && (TornDown(Do(s, a).turns[t]) ==> !Registered(Do(s, a), t))
  {}

  lemma WorkingStep(s: State, a: Action)
    requires Inv(s) && Enabled(s, a)
    ensures WorkingWell(Do(s, a))
  {
    var s' := Do(s, a);
    forall t | Working(s', t) ensures Registered(s', t) || s'.closed {
      WorkingRegistered(s, a, t);
    }
    forall t, t' | Working(s', t) && Working(s', t') && s'.turns[t].sid == s'.turns[t'].sid ensures t == t' {
      WorkingBefore(s, a, t);
      WorkingBefore(s, a, t');
    }
  }

  /** What works has been working, or starts just now on a session where nothing does. */
  lemma WorkingBefore(s: State, a: Action, t: TurnId)
    requires Inv(s) && Enabled(s, a) && Working(Do(s, a), t)
    ensures if t in s.turns then Working(s, t) && Do(s, a).turns[t].sid == s.turns[t].sid
            else a.StartCalled? && a.t == t && Do(s, a).turns[t].sid == a.sid
                 && forall u :: Working(s, u) ==> s.turns[u].sid != a.sid
  {}

  lemma WorkingRegistered(s: State, a: Action, t: TurnId)
    requires Inv(s) && Enabled(s, a) && Working(Do(s, a), t)
    ensures Registered(Do(s, a), t) || Do(s, a).closed
  {
    WorkingBefore(s, a, t);
  }

  lemma {:induction false} AlwaysInv(s: State, trace: seq<Action>)
    requires Inv(s) && Run(s, trace).Some?
    ensures Inv(Run(s, trace).value)
    decreases |trace|
  {
    if trace != [] {
      SessionsStep(s, trace[0]);
      TurnsStep(s, trace[0]);
      WorkingStep(s, trace[0]);
      AlwaysInv(Do(s, trace[0]), trace[1..]);
    }
  }

  // -- What the registry promises ------------------------------------------------------------

  /** At every point of every interleaving a session has at most one working turn, and an open
      registry can reach it. */
  lemma OneWorkingTurn(trace: seq<Action>, t: TurnId, t': TurnId)
    requires Run(Init, trace).Some?
    requires var s := Run(Init, trace).value;
             Working(s, t) && Working(s, t') && s.turns[t].sid == s.turns[t'].sid
    ensures t == t' && (Registered(Run(Init, trace).value, t) || Run(Init, trace).value.closed)
  {
    AlwaysInv(Init, trace);
  }

  /** A late teardown leaves every other registration alone. */
  lemma TeardownSparesSuccessor(trace: seq<Action>, t: TurnId, next: TurnId)
    requires Run(Init, trace).Some? && Enabled(Run(Init, trace).value, TeardownUnregisters(t))
    requires next != t && Registered(Run(Init, trace).value, next)
    ensures Registered(Do(Run(Init, trace).value, TeardownUnregisters(t)), next)
    ensures !Registered(Do(Run(Init, trace).value, TeardownUnregisters(t)), t)
  {
    AlwaysInv(Init, trace);
  }

  /** An armed grace timer means nobody watches and the turn has not finished. */
  lemma GraceMeansUnwatched(trace: seq<Action>, t: TurnId)
    requires Run(Init, trace).Some? && t in Run(Init, trace).value.turns && Run(Init, trace).value.turns[t].grace.Some?
    ensures var u := Run(Init, trace).value.turns[t]; u.viewers == {} && !u.finished
  {
    AlwaysInv(Init, trace);
  }

  /** Nothing starts after `Close`, and once the root is cancelled nothing works any more. */
  lemma {:induction false} CloseIsFinal(s: State, trace: seq<Action>)
    requires s.closed && Run(s, trace).Some?
    ensures var s' := Run(s, trace).value;
            && s'.closed && s'.turns.Keys == s.turns.Keys
            && (forall t :: Working(s', t) ==> Working(s, t))
            && (RootCancelled in trace ==> forall t :: !Working(s', t))
    decreases |trace|
  {
    if trace != [] {
      var s1 := Do(s, trace[0]);
      assert s1.turns.Keys == s.turns.Keys;
      CloseIsFinal(s1, trace[1..]);
      assert forall t :: Working(s1, t) ==> Working(s, t);
      if trace[0] == RootCancelled {
        assert forall t :: !Working(s1, t);
      } else {
        assert RootCancelled in trace ==> RootCancelled in trace[1..];
      }
    }
  }
}
