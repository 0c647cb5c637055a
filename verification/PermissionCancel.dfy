/** The client side of an ACP connection: how cancelling a prompt turn answers the
    permission requests of its session, whatever the interleaving of the read loop,
    the request handlers and any number of `CancelPrompt` calls. */
module PermissionCancel {
  import opened Options

  type Session = string
  type TurnId = nat
  type ReqId = nat
  type CancelId = nat

  /** The fields the locks of the connection guard. A request is in `perms` from its
      registration until a handler or a cancellation takes it out. */
  datatype Conn = Conn(turns: map<Session, TurnId>, cancelled: set<TurnId>, perms: map<ReqId, Session>)

  // -- One function per critical section --------------------------------------

  function BeginTurn(c: Conn, s: Session, t: TurnId): Conn { c.(turns := c.turns[s := t]) }

  /** The deferred half of `Prompt`: only the turn itself unregisters itself. */
  function EndTurn(c: Conn, s: Session, t: TurnId): Conn {
    if s in c.turns && c.turns[s] == t then c.(turns := c.turns - {s}) else c
  }

  function MarkCancelled(c: Conn, s: Session): Conn {
    if s in c.turns then c.(cancelled := c.cancelled + {c.turns[s]}) else c
  }

  function Register(c: Conn, r: ReqId, s: Session): Conn { c.(perms := c.perms[r := s]) }

  function Unregister(c: Conn, r: ReqId): Conn { c.(perms := c.perms - {r}) }

  function Matches(c: Conn, s: Session): set<ReqId> { set r | r in c.perms && c.perms[r] == s }

  function TakeMatches(c: Conn, s: Session): Conn { c.(perms := c.perms - Matches(c, s)) }

  function TurnOf(c: Conn, s: Session): Option<TurnId> {
    if s in c.turns then Some(c.turns[s]) else None
  }

  /** The connection object. Each method is one critical section. */
  class ClientConnection {
    var promptTurns: map<Session, TurnId>
    var cancelledTurns: set<TurnId>
    var pendingPerms: map<ReqId, Session>

    function View(): Conn
      reads this
    {
      Conn(promptTurns, cancelledTurns, pendingPerms)
    }

    constructor ()
      ensures View() == Conn(map[], {}, map[])
    {
      promptTurns, cancelledTurns, pendingPerms := map[], {}, map[];
    }

    method BeginPrompt(s: Session, t: TurnId)
      modifies this`promptTurns
      ensures View() == BeginTurn(old(View()), s, t)
    {
      promptTurns := promptTurns[s := t];
    }

    method EndPrompt(s: Session, t: TurnId)
      modifies this`promptTurns
      ensures View() == EndTurn(old(View()), s, t)
    {
      if s in promptTurns && promptTurns[s] == t {
        promptTurns := promptTurns - {s};
      }
    }

    method CancelTurn(s: Session) returns (found: Option<TurnId>)
      modifies this`cancelledTurns
      ensures View() == MarkCancelled(old(View()), s) && found == TurnOf(View(), s)
    {
      if s in promptTurns {
        cancelledTurns := cancelledTurns + {promptTurns[s]};
        found := Some(promptTurns[s]);
      } else {
        found := None;
      }
    }

    method RegisterPendingPerm(r: ReqId, s: Session)
      modifies this`pendingPerms
      ensures View() == Register(old(View()), r, s)
    {
      pendingPerms := pendingPerms[r := s];
    }

    method UnregisterPendingPerm(r: ReqId)
      modifies this`pendingPerms
      ensures View() == Unregister(old(View()), r)
    {
      pendingPerms := pendingPerms - {r};
    }

    /** Walks the map, collecting and deleting the session's entries. */
    method TakeSessionPermissions(s: Session) returns (matches: seq<ReqId>)
      modifies this`pendingPerms
      ensures View() == TakeMatches(old(View()), s)
      ensures forall r :: r in matches <==> r in Matches(old(View()), s)
      ensures forall i, j :: 0 <= i < j < |matches| ==> matches[i] != matches[j]
    {
      matches := [];
      var rest := pendingPerms.Keys;
      while rest != {}
        invariant rest <= old(pendingPerms).Keys
        invariant forall r :: r in matches <==> r in old(pendingPerms) && r !in rest && old(pendingPerms)[r] == s
        invariant forall i, j :: 0 <= i < j < |matches| ==> matches[i] != matches[j]
        invariant pendingPerms == old(pendingPerms) - (set r | r in matches)
        decreases rest
      {
        var r :| r in rest;
        rest := rest - {r};
        if pendingPerms[r] == s {
          matches := matches + [r];
          pendingPerms := pendingPerms - {r};
        }
      }
      assert (set r | r in matches) == Matches(old(View()), s);
    }
  }

  // -- The whole system --------------------------------------------------------

  datatype Outcome = Cancelled | Other

  datatype Answer = Answer(outcome: Outcome, forced: bool)

  /** Where the goroutine of one request stands. */
  datatype Phase =
    | Dispatched                          // registered by the read loop
    | Refused                             // not admitted: the connection is draining
    | Admitted                            // its handler runs
    | Looked(turn: Option<TurnId>)        // the handler has looked its turn up
    | Decided(outcome: Outcome)           // the handler has its result
    | Written                             // the handler went through the write-once gate
    | Released(admitted: bool)            // unregistered

  /** `session` is missing when the request's parameters name none; such a
      request is never registered. Parameters may name a session and still not
      `parse` as a whole. */
  datatype Request = Request(session: Option<Session>, parses: bool, phase: Phase, answers: seq<Answer>)

  /** One `CancelPrompt` call, after it found a turn: flag set, then the snapshot,
      whose members are then answered one by one. */
  datatype Cancel = Marked(session: Session, turn: TurnId) | Forcing(queue: set<ReqId>)

  datatype State = State(
    conn: Conn,
    used: map<TurnId, Session>,           // turns ever begun, and for which session
    swept: set<TurnId>,                   // turns for which a cancel has taken its snapshot
    reqs: map<ReqId, Request>,
    cancels: map<CancelId, Cancel>)

  const Init := State(Conn(map[], {}, map[]), map[], {}, map[], map[])

  datatype Action =
    | PromptStarts(s: Session, t: TurnId)
    | PromptEnds(s: Session, t: TurnId)
    | Dispatch(r: ReqId, session: Option<Session>, parses: bool)
    | Refuse(r: ReqId)
    | Admit(r: ReqId)
    | Reject(r: ReqId)                    // invalid parameters, found before the turn is looked up
    | LookUp(r: ReqId)
    | Decide(r: ReqId, outcome: Outcome)
    | HandlerWrite(r: ReqId)
    | Release(r: ReqId)
    | CancelMark(k: CancelId, s: Session)
    | CancelSnapshot(k: CancelId)
    | CancelForce(k: CancelId, r: ReqId)

  predicate InPhase(s: State, r: ReqId, p: Phase) { r in s.reqs && s.reqs[r].phase == p }

  /** The handler must answer "cancelled" when the turn it looked up is being cancelled. */
  predicate MustCancel(s: State, turn: Option<TurnId>) { turn.Some? && turn.value in s.conn.cancelled }

  predicate Enabled(s: State, a: Action) {
    match a
    case PromptStarts(_, t) => t !in s.used
    case PromptEnds(_, _) => true
    case Dispatch(r, _, _) => r !in s.reqs
    case Refuse(r) => InPhase(s, r, Dispatched)
    case Admit(r) => InPhase(s, r, Dispatched)
    case Reject(r) => InPhase(s, r, Admitted) && !s.reqs[r].parses
    case LookUp(r) => InPhase(s, r, Admitted) && s.reqs[r].parses
    case Decide(r, o) =>
      r in s.reqs && s.reqs[r].phase.Looked? && (MustCancel(s, s.reqs[r].phase.turn) ==> o == Cancelled)
    case HandlerWrite(r) => r in s.reqs && s.reqs[r].phase.Decided?
    case Release(r) => InPhase(s, r, Written) || InPhase(s, r, Refused)
    case CancelMark(k, _) => k !in s.cancels
    case CancelSnapshot(k) => k in s.cancels && s.cancels[k].Marked?
    case CancelForce(k, r) => k in s.cancels && s.cancels[k].Forcing? && r in s.cancels[k].queue && r in s.reqs
  }

  function SetPhase(s: State, r: ReqId, p: Phase): State
    requires r in s.reqs
  {
    s.(reqs := s.reqs[r := s.reqs[r].(phase := p)])
  }

  /** The write-once gate; a request never registered has no gate. */
  function WriteOnce(q: Request, a: Answer): Request {
    if q.session.Some? && q.answers != [] then q else q.(answers := q.answers + [a])
  }

  function Do(s: State, a: Action): State
    requires Enabled(s, a)
  {
    match a
    case PromptStarts(ss, t) => s.(conn := BeginTurn(s.conn, ss, t), used := s.used[t := ss])
    case PromptEnds(ss, t) => s.(conn := EndTurn(s.conn, ss, t))
    case Dispatch(r, ss, parses) =>
      s.(reqs := s.reqs[r := Request(ss, parses, Dispatched, [])],
         conn := if ss.Some? then Register(s.conn, r, ss.value) else s.conn)
    case Refuse(r) => SetPhase(s, r, Refused)
    case Admit(r) => SetPhase(s, r, Admitted)
    case Reject(r) => SetPhase(s, r, Decided(Other))
    case LookUp(r) =>
      var ss := s.reqs[r].session;
      SetPhase(s, r, Looked(if ss.Some? then TurnOf(s.conn, ss.value) else None))
    case Decide(r, o) => SetPhase(s, r, Decided(o))
    case HandlerWrite(r) =>
      var q := s.reqs[r];
      s.(reqs := s.reqs[r := WriteOnce(q, Answer(q.phase.outcome, false)).(phase := Written)])
    case Release(r) =>
      var s' := SetPhase(s, r, Released(s.reqs[r].phase == Written));
      if s.reqs[r].session.Some? then s'.(conn := Unregister(s.conn, r)) else s'
    case CancelMark(k, ss) =>
      if ss in s.conn.turns
      then s.(conn := MarkCancelled(s.conn, ss), cancels := s.cancels[k := Marked(ss, s.conn.turns[ss])])
      else s.(cancels := s.cancels[k := Forcing({})])
    case CancelSnapshot(k) =>
      var Marked(ss, t) := s.cancels[k];
      s.(conn := TakeMatches(s.conn, ss), swept := s.swept + {t},
         cancels := s.cancels[k := Forcing(Matches(s.conn, ss))])
    case CancelForce(k, r) =>
      s.(reqs := s.reqs[r := WriteOnce(s.reqs[r], Answer(Cancelled, true))],
         cancels := s.cancels[k := Forcing(s.cancels[k].queue - {r})])
  }

  function Run(trace: seq<Action>): Option<State> {
    var n := |trace|;
    if n == 0 then Some(Init)
    else
      var before := Run(trace[..n - 1]);
      if before.Some? && Enabled(before.value, trace[n - 1]) then Some(Do(before.value, trace[n - 1])) else None
  }

  // -- What every step keeps ---------------------------------------------------

  /** A forced write of `r` is still to come. */
  ghost predicate Queued(s: State, r: ReqId) {
    exists k :: k in s.cancels && s.cancels[k].Forcing? && r in s.cancels[k].queue
  }

  /** `r` has not been answered and its handler can still answer it. */
  predicate Open(q: Request) { q.answers == [] && !q.phase.Released? }

  /** The only ways an open request can stand once its turn has been swept. */
  ghost predicate Doomed(s: State, r: ReqId)
    requires r in s.reqs
  {
    var p := s.reqs[r].phase;
    || Queued(s, r)
    || p == Dispatched || p == Admitted || p == Refused
    || (p.Looked? && MustCancel(s, p.turn))
    || p == Decided(Cancelled)
  }

  ghost predicate OneAnswer(q: Request) {
    && |q.answers| <= 1
    && (q.phase == Written || q.phase == Released(true) ==> |q.answers| == 1)
    && (q.session.None? && q.answers != [] ==> q.phase == Written || q.phase.Released?)
  }

  /** Nothing is lost between the pending map and the cancellers' queues. */
  ghost predicate NoLoss(s: State) {
    Listed(s) && forall r :: OpenPermission(s, r) ==> r in s.conn.perms || Queued(s, r)
  }

  /** What is pending or queued are permission requests of the session it is listed under. */
  ghost predicate Listed(s: State) {
    && (forall r :: r in s.conn.perms ==> r in s.reqs && s.reqs[r].session == Some(s.conn.perms[r]))
    && (forall k, r :: k in s.cancels && s.cancels[k].Forcing? && r in s.cancels[k].queue ==>
                       r in s.reqs && s.reqs[r].session.Some?)
  }

  predicate OpenPermission(s: State, r: ReqId) { r in s.reqs && s.reqs[r].session.Some? && Open(s.reqs[r]) }

  /** A turn belongs to one session, and only marked turns are swept. */
  ghost predicate Turns(s: State) {
    && (forall ss :: ss in s.conn.turns ==> s.conn.turns[ss] in s.used && s.used[s.conn.turns[ss]] == ss)
    && (forall k :: k in s.cancels && s.cancels[k].Marked? ==> MarkedWell(s, s.cancels[k]))
    && s.swept <= s.conn.cancelled && s.swept <= s.used.Keys
  }

  ghost predicate Inv(s: State) {
    (forall r :: r in s.reqs ==> OneAnswer(s.reqs[r])) && NoLoss(s) && Turns(s) && Swept(s)
  }

  ghost predicate MarkedWell(s: State, c: Cancel)
    requires c.Marked?
  {
    c.turn in s.conn.cancelled && c.turn in s.used && s.used[c.turn] == c.session
  }

  /** While a swept turn stays registered, every open request of its session is doomed. */
  ghost predicate Swept(s: State) {
    forall ss, r :: SweptRequest(s, ss, r) && s.reqs[r].parses && Open(s.reqs[r]) ==> Doomed(s, r)
  }

  predicate SweptSession(s: State, ss: Session) { ss in s.conn.turns && s.conn.turns[ss] in s.swept }

  /** `r` belongs to a session whose registered turn has been swept. */
  predicate SweptRequest(s: State, ss: Session, r: ReqId) {
    SweptSession(s, ss) && r in s.reqs && s.reqs[r].session == Some(ss)
  }

  lemma QueuedKept(s: State, a: Action, r: ReqId)
    requires Enabled(s, a) && Queued(s, r)
    ensures Queued(Do(s, a), r) || (a.CancelForce? && a.r == r)
  {
    var k :| k in s.cancels && s.cancels[k].Forcing? && r in s.cancels[k].queue;
    assert k in Do(s, a).cancels;
  }

  lemma OneAnswerStep(s: State, a: Action)
    requires Inv(s) && Enabled(s, a)
    ensures forall r :: r in Do(s, a).reqs ==> OneAnswer(Do(s, a).reqs[r])
  {}

  lemma TurnsStep(s: State, a: Action)
    requires Turns(s) && Enabled(s, a)
    ensures Turns(Do(s, a))
  {}

  lemma ListedStep(s: State, a: Action)
    requires Listed(s) && Enabled(s, a)
    ensures Listed(Do(s, a))
  {
    forall r | r in Do(s, a).conn.perms
      ensures r in Do(s, a).reqs && Do(s, a).reqs[r].session == Some(Do(s, a).conn.perms[r])
    {
      if r in s.reqs { RequestKept(s, a, r); }
    }
    forall k, r | k in Do(s, a).cancels && Do(s, a).cancels[k].Forcing? && r in Do(s, a).cancels[k].queue
      ensures r in Do(s, a).reqs && Do(s, a).reqs[r].session.Some?
    {
      QueueStep(s, a, k, r);
      RequestKept(s, a, r);
    }
  }

  /** What is queued was queued before, or pending at the snapshot. */
  lemma QueueStep(s: State, a: Action, k: CancelId, r: ReqId)
    requires Listed(s) && Enabled(s, a)
    requires k in Do(s, a).cancels && Do(s, a).cancels[k].Forcing? && r in Do(s, a).cancels[k].queue
    ensures r in s.reqs && s.reqs[r].session.Some?
  {}

  lemma NoLossStep(s: State, a: Action)
    requires NoLoss(s) && Enabled(s, a)
    ensures NoLoss(Do(s, a))
  {
    ListedStep(s, a);
    forall r | OpenPermission(Do(s, a), r) ensures r in Do(s, a).conn.perms || Queued(Do(s, a), r) {
      NotLost(s, a, r);
    }
  }

  lemma NotLost(s: State, a: Action, r: ReqId)
    requires NoLoss(s) && Enabled(s, a) && OpenPermission(Do(s, a), r)
    ensures r in Do(s, a).conn.perms || Queued(Do(s, a), r)
  {
    var s' := Do(s, a);
    if r in s.reqs {
      assert OpenPermission(s, r);
      if Queued(s, r) {
        QueuedKept(s, a, r);
      } else if a.CancelSnapshot? && r !in s'.conn.perms {
        assert a.k in s'.cancels && r in s'.cancels[a.k].queue;
      }
    }
  }

  lemma SweptStep(s: State, a: Action)
    requires Inv(s) && Enabled(s, a)
    ensures Swept(Do(s, a))
  {
    var s' := Do(s, a);
    forall ss, r | SweptRequest(s', ss, r) && s'.reqs[r].parses && Open(s'.reqs[r]) ensures Doomed(s', r) {
      if r in s.reqs { StaysDoomed(s, a, ss, r); }
    }
  }

  lemma StaysDoomed(s: State, a: Action, ss: Session, r: ReqId)
    requires Inv(s) && Enabled(s, a) && r in s.reqs
    requires SweptRequest(Do(s, a), ss, r) && Do(s, a).reqs[r].parses && Open(Do(s, a).reqs[r])
    ensures Doomed(Do(s, a), r)
  {
    RequestKept(s, a, r);
    if Queued(s, r) {
      QueuedKept(s, a, r);
    } else if a.CancelSnapshot? {
      SnapshotQueues(s, a.k, ss, r);
    } else {
      SweptBefore(s, a, ss);
      StepKeepsDoomed(s, a, ss, r);
    }
  }

  /** A request keeps its session, and an answer given stays given. */
  lemma RequestKept(s: State, a: Action, r: ReqId)
    requires Enabled(s, a) && r in s.reqs
    ensures var q, q' := s.reqs[r], Do(s, a).reqs[r];
            && q'.session == q.session && q'.parses == q.parses
            && q.answers <= q'.answers && (q.phase.Released? ==> q'.phase.Released?)
  {}

  lemma SweptBefore(s: State, a: Action, ss: Session)
    requires Turns(s) && Enabled(s, a) && SweptSession(Do(s, a), ss) && !a.CancelSnapshot?
    ensures SweptSession(s, ss)
  {}

  lemma SnapshotQueues(s: State, k: CancelId, ss: Session, r: ReqId)
    requires Inv(s) && Enabled(s, CancelSnapshot(k)) && OpenPermission(s, r) && s.reqs[r].session == Some(ss)
    requires SweptRequest(Do(s, CancelSnapshot(k)), ss, r) && s.reqs[r].parses && !Queued(s, r)
    ensures Doomed(Do(s, CancelSnapshot(k)), r)
  {
    var s' := Do(s, CancelSnapshot(k));
    if s.cancels[k].session == ss {
      assert k in s'.cancels && r in s'.cancels[k].queue;
    } else {
      assert s.used[s.cancels[k].turn] != ss;
      assert SweptRequest(s, ss, r);
    }
  }

  lemma StepKeepsDoomed(s: State, a: Action, ss: Session, r: ReqId)
    requires Turns(s) && Swept(s) && Enabled(s, a) && !a.CancelSnapshot? && !Queued(s, r)
    requires SweptRequest(s, ss, r) && s.reqs[r].parses && Open(s.reqs[r]) && Open(Do(s, a).reqs[r])
    ensures Doomed(Do(s, a), r)
  {
    assert Doomed(s, r);
    assert s.conn.turns[ss] in s.conn.cancelled;
  }

  lemma InvStep(s: State, a: Action)
    requires Inv(s) && Enabled(s, a)
    ensures Inv(Do(s, a))
  {
    OneAnswerStep(s, a);
    NoLossStep(s, a);
    TurnsStep(s, a);
    SweptStep(s, a);
  }

  /** The invariant holds at every point of every interleaving. */
  lemma {:induction false} AlwaysInv(trace: seq<Action>)
    requires Run(trace).Some?
    ensures Inv(Run(trace).value)
    decreases |trace|
  {
    var n := |trace|;
    if n > 0 {
      AlwaysInv(trace[..n - 1]);
      InvStep(Run(trace[..n - 1]).value, trace[n - 1]);
    }
  }

  // -- What the protocol promises ------------------------------------------------

  /** A permission request gets at most one response, and exactly one once an
      admitted handler is through. */
  lemma OneResponse(trace: seq<Action>, r: ReqId)
    requires Run(trace).Some? && r in Run(trace).value.reqs
    ensures var q := Run(trace).value.reqs[r];
            && |q.answers| <= 1
            && (q.phase == Written || q.phase == Released(true) ==> |q.answers| == 1)
  {
    AlwaysInv(trace);
  }

  /** No window: after the snapshot of a turn's cancellation, and while that turn stays
      registered, whatever answers a request of its session answers "cancelled", unless it
      is the handler's own write, made while a forced write of that request is still to come. */
  lemma NoWindow(trace: seq<Action>, a: Action, ss: Session, r: ReqId)
    requires Run(trace + [a]).Some? && Run(trace).Some?
    requires r in Run(trace).value.reqs && Run(trace).value.reqs[r].parses
    ensures !Escapes(Run(trace).value, a, ss, r)
  {
    assert (trace + [a])[..|trace|] == trace;
    AlwaysInv(trace);
    if Escapes(Run(trace).value, a, ss, r) { DoomedAnswer(Run(trace).value, a, ss, r); }
  }

  /** The step answers a request of a swept session with something else than "cancelled", and
      no forced write of it was to come. */
  ghost predicate Escapes(s: State, a: Action, ss: Session, r: ReqId) {
    && SweptRequest(s, ss, r) && s.reqs[r].answers == [] && Enabled(s, a)
    && Do(s, a).reqs[r].answers != [] && Do(s, a).reqs[r].answers[0].outcome != Cancelled
    && !(a == HandlerWrite(r) && Queued(s, r))
  }

  lemma DoomedAnswer(s: State, a: Action, ss: Session, r: ReqId)
    requires Inv(s) && Enabled(s, a) && SweptRequest(s, ss, r) && s.reqs[r].parses
    requires s.reqs[r].answers == [] && Do(s, a).reqs[r].answers != []
    ensures Do(s, a).reqs[r].answers[0].outcome == Cancelled || (a == HandlerWrite(r) && Queued(s, r))
  {
    if a == HandlerWrite(r) {
      assert Open(s.reqs[r]) && Doomed(s, r);
    } else {
      OnlyWritesAnswer(s, a, r);
    }
  }

  lemma OnlyWritesAnswer(s: State, a: Action, r: ReqId)
    requires Enabled(s, a) && r in s.reqs && s.reqs[r].answers == [] && Do(s, a).reqs[r].answers != [] && a != HandlerWrite(r)
    ensures a.CancelForce? && Do(s, a).reqs[r].answers == [Answer(Cancelled, true)]
  {}

  lemma RunSnoc(trace: seq<Action>, a: Action)
    requires Run(trace).Some? && Enabled(Run(trace).value, a)
    ensures Run(trace + [a]) == Some(Do(Run(trace).value, a))
  {
    assert (trace + [a])[..|trace|] == trace;
  }

  /** `r`, dispatched at the end of `trace`, escapes in some continuation. */
  ghost predicate MayEscape(trace: seq<Action>, ss: Session, r: ReqId) {
    exists more, a :: Run(trace + more).Some? && Escapes(Run(trace + more).value, a, ss, r)
  }

  /** A request that arrives after the sweep, while the swept turn is registered, can be answered
      with something else than "cancelled" if and only if its parameters do not parse. */
  lemma WindowExact(trace: seq<Action>, ss: Session, r: ReqId, parses: bool)
    requires Run(trace).Some? && SweptSession(Run(trace).value, ss) && r !in Run(trace).value.reqs
    ensures MayEscape(trace + [Dispatch(r, Some(ss), parses)], ss, r) <==> !parses
  {
    var all := trace + [Dispatch(r, Some(ss), parses)];
    RunSnoc(trace, Dispatch(r, Some(ss), parses));
    if parses {
      forall more, a | Run(all + more).Some? ensures !Escapes(Run(all + more).value, a, ss, r) {
        ParsesKept(all, more, r);
        if Enabled(Run(all + more).value, a) {
          RunSnoc(all + more, a);
          NoWindow(all + more, a, ss, r);
        }
      }
    } else {
      AlwaysInv(trace);
      UnreadableEscapes(all, ss, r);
    }
  }

  lemma {:induction false} ParsesKept(trace: seq<Action>, more: seq<Action>, r: ReqId)
    requires Run(trace).Some? && r in Run(trace).value.reqs && Run(trace + more).Some?
    ensures r in Run(trace + more).value.reqs
    ensures Run(trace + more).value.reqs[r].parses == Run(trace).value.reqs[r].parses
    decreases |more|
  {
    if more == [] {
      assert trace + more == trace;
    } else {
      var n := |more| - 1;
      assert (trace + more)[..|trace + more| - 1] == trace + more[..n];
      ParsesKept(trace, more[..n], r);
      RequestKept(Run(trace + more[..n]).value, more[n], r);
    }
  }

  /** Its handler rejects it before it looks the turn up. */
  lemma UnreadableEscapes(trace: seq<Action>, ss: Session, r: ReqId)
    requires Run(trace).Some? && SweptRequest(Run(trace).value, ss, r) && !Queued(Run(trace).value, r)
    requires var q := Run(trace).value.reqs[r]; q.phase == Dispatched && q.answers == [] && !q.parses
    ensures MayEscape(trace, ss, r)
  {
    RunSnoc(trace, Admit(r));
    RunSnoc(trace + [Admit(r)], Reject(r));
    var more := [Admit(r), Reject(r)];
    assert trace + more == trace + [Admit(r)] + [Reject(r)];
    assert Escapes(Run(trace + more).value, HandlerWrite(r), ss, r);
  }

  /** The shortest such run: a turn is cancelled and swept, then the request arrives. */
  lemma WindowForUnreadable()
    ensures MayEscape([PromptStarts("s", 0), CancelMark(0, "s"), CancelSnapshot(0), Dispatch(7, Some("s"), false)], "s", 7)
  {
    var t0, t1, t2 := [PromptStarts("s", 0)], [PromptStarts("s", 0), CancelMark(0, "s")],
                      [PromptStarts("s", 0), CancelMark(0, "s"), CancelSnapshot(0)];
    RunSnoc([], PromptStarts("s", 0));
    RunSnoc(t0, CancelMark(0, "s"));
    RunSnoc(t1, CancelSnapshot(0));
    assert [] + t0 == t0 && t0 + [CancelMark(0, "s")] == t1 && t1 + [CancelSnapshot(0)] == t2;
    WindowExact(t2, "s", 7, false);
    assert t2 + [Dispatch(7, Some("s"), false)] ==
           [PromptStarts("s", 0), CancelMark(0, "s"), CancelSnapshot(0), Dispatch(7, Some("s"), false)];
  }

  /** At the snapshot itself every open request of the session is caught: it is queued
      for a forced write, whatever its handler has already looked up or decided. */
  lemma SnapshotCatchesAll(trace: seq<Action>, k: CancelId, r: ReqId)
    requires Run(trace).Some? && Enabled(Run(trace).value, CancelSnapshot(k))
    requires var s := Run(trace).value;
             r in s.reqs && s.reqs[r].session == Some(s.cancels[k].session) && Open(s.reqs[r])
    ensures Queued(Do(Run(trace).value, CancelSnapshot(k)), r)
  {
    var s := Run(trace).value;
    AlwaysInv(trace);
    if Queued(s, r) {
      QueuedKept(s, CancelSnapshot(k), r);
    } else {
      var s' := Do(s, CancelSnapshot(k));
      assert k in s'.cancels && r in s'.cancels[k].queue;
    }
  }

  /** A forced write leaves the request answered, and answers it "cancelled" if nobody had. */
  lemma ForcedWriteAnswers(trace: seq<Action>, k: CancelId, r: ReqId)
    requires Run(trace).Some? && Enabled(Run(trace).value, CancelForce(k, r))
    ensures var s := Run(trace).value; var q, q' := s.reqs[r], Do(s, CancelForce(k, r)).reqs[r];
            |q'.answers| == 1 && (if q.answers == [] then q'.answers == [Answer(Cancelled, true)] else q'.answers == q.answers)
  {
    AlwaysInv(trace);
  }
}
