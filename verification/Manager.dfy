/** The owner of the running instances: after a close no connection of any instance stays up,
    however bring-ups, stops, restarts and the close interleave. */
module Manager {
  import opened Options
  import I = Instance

  type InstanceId = nat

  /** The fields the manager's lock guards. */
  datatype Fields = Fields(instances: set<InstanceId>, closed: bool)

  // -- One function per critical section ------------------------------------------

  function Enter(f: Fields, id: InstanceId): Fields { if f.closed then f else f.(instances := f.instances + {id}) }

  function Leave(f: Fields, id: InstanceId): Fields { f.(instances := f.instances - {id}) }

  function Shut(f: Fields): Fields { if f.closed then f else Fields({}, true) }

  /** The manager object. Instances are named by their ids. */
  class ManagerObject {
    var instances: set<InstanceId>
    var closed: bool

    function View(): Fields
      reads this
    {
      Fields(instances, closed)
    }

    constructor ()
      ensures View() == Fields({}, false)
    {
      instances, closed := {}, false;
    }

    /** The end of a bring-up. A closed manager refuses, and the caller stops the instance. */
    method Register(id: InstanceId) returns (refused: bool)
      modifies this`instances
      ensures View() == Enter(old(View()), id) && refused == closed
    {
      if closed { return true; }
      instances := instances + {id};
      refused := false;
    }

    /** Whoever removes the instance stops it. */
    method Take(id: InstanceId) returns (found: bool)
      modifies this`instances
      ensures View() == Leave(old(View()), id) && found == (id in old(instances))
    {
      found := id in instances;
      instances := instances - {id};
    }

    /** Empties the map for the caller's stop loop; a second close finds nothing. */
    method TakeAll() returns (taken: seq<InstanceId>)
      modifies this
      ensures View() == Shut(old(View()))
      ensures forall id :: id in taken <==> !old(closed) && id in old(instances)
      ensures forall i, j :: 0 <= i < j < |taken| ==> taken[i] != taken[j]
    {
      taken := [];
      if closed { return; }
      closed := true;
      while instances != {}
        invariant closed && instances <= old(instances)
        invariant forall id :: id in taken <==> id in old(instances) && id !in instances
        invariant forall i, j :: 0 <= i < j < |taken| ==> taken[i] != taken[j]
        decreases instances
      {
        var id :| id in instances;
        taken := taken + [id];
        instances := instances - {id};
      }
    }
  }

  // -- Every interleaving ----------------------------------------------------------------

  /** Who has the instance: the bring-up that starts it, the manager's map, a caller about to
      stop it, or nobody once that stop has run. */
  datatype Owner = BringUp | Map | Stopper | Nobody

  /** An instance, with all that happens inside it. */
  datatype Part = Part(policy: I.Policy, inst: I.State, owner: Owner)

  datatype State = State(f: Fields, parts: map<InstanceId, Part>)

  const Init := State(Fields({}, false), map[])

  datatype Action =
    | BringUpBegins(id: InstanceId, policy: I.Policy)
    | Inside(id: InstanceId, a: I.Action)         // a step of the instance itself
    | BringUpEnds(id: InstanceId)
    | StopCalled(id: InstanceId)
    | CloseCalled
    | StopRuns(id: InstanceId)                    // the owner stops the instance

  predicate Enabled(s: State, a: Action) {
    match a
    case BringUpBegins(id, _) => id !in s.parts
    case Inside(id, b) => id in s.parts && b != I.StopCalled && I.Enabled(s.parts[id].inst, b)
    case BringUpEnds(id) => id in s.parts && s.parts[id].owner == BringUp && s.parts[id].inst.boot == I.Up
    case StopCalled(_) => true
    case CloseCalled => true
    case StopRuns(id) => id in s.parts && s.parts[id].owner == Stopper && I.Enabled(s.parts[id].inst, I.StopCalled)
  }

  function SetOwner(s: State, id: InstanceId, o: Owner): State
    requires id in s.parts
  {
    s.(parts := s.parts[id := s.parts[id].(owner := o)])
  }

  function InstanceDoes(p: Part, a: I.Action): Part
    requires I.Enabled(p.inst, a)
  {
    p.(inst := I.Do(p.policy, p.inst, a))
  }

  function Do(s: State, a: Action): State
    requires Enabled(s, a)
  {
    match a
    case BringUpBegins(id, policy) => s.(parts := s.parts[id := Part(policy, I.Init, BringUp)])
    case Inside(id, b) => s.(parts := s.parts[id := InstanceDoes(s.parts[id], b)])
    case BringUpEnds(id) => SetOwner(s, id, if s.f.closed then Stopper else Map).(f := Enter(s.f, id))
    case StopCalled(id) =>
      if id in s.f.instances && id in s.parts then SetOwner(s, id, Stopper).(f := Leave(s.f, id)) else s
    case CloseCalled =>
      State(Shut(s.f), map id | id in s.parts :: if !s.f.closed && id in s.f.instances
                                                 then s.parts[id].(owner := Stopper) else s.parts[id])
    case StopRuns(id) => s.(parts := s.parts[id := InstanceDoes(s.parts[id], I.StopCalled).(owner := Nobody)])
  }

  function Run(s: State, trace: seq<Action>): Option<State>
    decreases |trace|
  {
    if trace == [] then Some(s)
    else if Enabled(s, trace[0]) then Run(Do(s, trace[0]), trace[1..])
    else None
  }

  // -- What every step keeps --------------------------------------------------------------

  /** The map holds exactly the instances it owns, and none once the manager is closed. */
  ghost predicate MapWell(s: State) {
    && (forall id :: id in s.f.instances <==> id in s.parts && s.parts[id].owner == Map)
    && (s.f.closed ==> s.f.instances == {})
  }

  /** The instance keeps its own invariant, has come up before it leaves its bring-up, and has
      been stopped once nobody owns it. */
  ghost predicate PartWell(p: Part) {
    && I.Inv(p.policy, p.inst)
    && (p.owner != BringUp ==> p.inst.boot == I.Up)
    && (p.owner == Nobody ==> p.inst.f.closed)
  }

  ghost predicate Inv(s: State) { MapWell(s) && forall id :: id in s.parts ==> PartWell(s.parts[id]) }

  lemma InsideStep(p: Part, a: I.Action)
    requires PartWell(p) && I.Enabled(p.inst, a)
    ensures PartWell(InstanceDoes(p, a))
  {
    I.InvStep(p.policy, p.inst, a);
    StaysUp(p, a);
  }

  lemma StaysUp(p: Part, a: I.Action)
    requires I.Enabled(p.inst, a)
    ensures p.inst.boot == I.Up ==> InstanceDoes(p, a).inst.boot == I.Up
    ensures p.inst.f.closed ==> InstanceDoes(p, a).inst.f.closed
  {}

  lemma StopStep(p: Part)
    requires PartWell(p) && I.Enabled(p.inst, I.StopCalled)
    ensures PartWell(InstanceDoes(p, I.StopCalled).(owner := Nobody))
  {
    InsideStep(p, I.StopCalled);
  }

  lemma InvStep(s: State, a: Action)
    requires Inv(s) && Enabled(s, a)
    ensures Inv(Do(s, a))
  {
    MapStep(s, a);
    forall id | id in Do(s, a).parts ensures PartWell(Do(s, a).parts[id]) {
      PartStep(s, a, id);
    }
  }

  lemma MapStep(s: State, a: Action)
    requires MapWell(s) && Enabled(s, a)
    ensures MapWell(Do(s, a))
  {}

  lemma PartStep(s: State, a: Action, id: InstanceId)
    requires MapWell(s) && Enabled(s, a) && (id in s.parts ==> PartWell(s.parts[id])) && id in Do(s, a).parts
    ensures PartWell(Do(s, a).parts[id])
  {
    match a
    case Inside(i, b) => if i == id { InsideStep(s.parts[i], b); }
    case StopRuns(i) => if i == id { StopStep(s.parts[i]); }
    case _ =>
  }

  lemma {:induction false} AlwaysInv(s: State, trace: seq<Action>)
    requires Inv(s) && Run(s, trace).Some?
    ensures Inv(Run(s, trace).value)
    decreases |trace|
  {
    if trace != [] {
      InvStep(s, trace[0]);
      AlwaysInv(Do(s, trace[0]), trace[1..]);
    }
  }

  // -- What the manager promises ---------------------------------------------------------------

  /** Nothing is under way any more with this instance: its start failed, or it has been stopped,
      the stop is through and the watchdog holds no handle. */
  predicate Settled(p: Part) {
    (p.owner == BringUp && p.inst.boot == I.Failed) || (p.owner == Nobody && I.StoppedQuietly(p.inst))
  }

  lemma SettledMeansDown(p: Part, h: I.HandleId)
    requires PartWell(p) && Settled(p) && h in p.inst.conns
    ensures I.Down(p.inst.conns[h])
  {
    if p.owner == Nobody { I.QuietMeansDown(p.policy, p.inst, h); }
  }

  /** No connection escapes a close: in every run of the manager and all its instances, whenever
      the manager is closed and nothing is under way any more, every connection ever made by any
      instance has died or been closed. */
  lemma NoneEscapesClose(trace: seq<Action>, id: InstanceId, h: I.HandleId)
    requires Run(Init, trace).Some? && Run(Init, trace).value.f.closed
    requires var s := Run(Init, trace).value;
             (forall i :: i in s.parts ==> Settled(s.parts[i])) && id in s.parts && h in s.parts[id].inst.conns
    ensures I.Down(Run(Init, trace).value.parts[id].inst.conns[h])
  {
    AlwaysInv(Init, trace);
    SettledMeansDown(Run(Init, trace).value.parts[id], h);
  }

  /** A bring-up that ends after the close hands its instance over to be stopped. */
  lemma LateBringUpIsStopped(trace: seq<Action>, id: InstanceId)
    requires Run(Init, trace).Some? && Run(Init, trace).value.f.closed
    requires Enabled(Run(Init, trace).value, BringUpEnds(id))
    ensures var s1 := Do(Run(Init, trace).value, BringUpEnds(id));
            s1.parts[id].owner == Stopper && id !in s1.f.instances && Enabled(s1, StopRuns(id))
  {
    AlwaysInv(Init, trace);
    LateStep(Run(Init, trace).value, id);
  }

  lemma LateStep(s: State, id: InstanceId)
    requires MapWell(s) && s.f.closed && Enabled(s, BringUpEnds(id))
    ensures var s1 := Do(s, BringUpEnds(id));
            s1.parts[id].owner == Stopper && id !in s1.f.instances && Enabled(s1, StopRuns(id))
  {}

  /** The step that brings an instance of a closed manager nearer to being settled. */
  function NextStep(id: InstanceId, p: Part): Action {
    if p.owner == BringUp then
      if p.inst.boot == I.NotStarted then Inside(id, I.StartFails)
      else if p.inst.boot.Connected? then Inside(id, I.StartInstalls)
      else BringUpEnds(id)
    else if p.owner != Nobody then StopRuns(id)
    else if p.inst.stopper != I.Done then Inside(id, I.StopCloses)
    else if p.inst.dog.Spawned? then Inside(id, I.DogInstalls)
    else Inside(id, I.DogAbandons)
  }

  function Distance(p: Part): nat {
    if Settled(p) then 0
    else if p.owner == BringUp then
      if p.inst.boot == I.NotStarted then 8 else if p.inst.boot.Connected? then 7 else 6
    else if p.owner != Nobody then 5
    else if p.inst.stopper != I.Done then 4
    else if p.inst.dog.Spawned? then 3
    else 2
  }

  /** After a close an instance that is not settled always has a step of its own that brings it
      nearer, whatever state it is in: none waits for something that never comes. */
  lemma CloseCompletes(trace: seq<Action>, id: InstanceId)
    requires Run(Init, trace).Some? && Run(Init, trace).value.f.closed
    requires id in Run(Init, trace).value.parts && !Settled(Run(Init, trace).value.parts[id])
    ensures var s := Run(Init, trace).value; var a := NextStep(id, s.parts[id]);
            Enabled(s, a) && id in Do(s, a).parts && Distance(Do(s, a).parts[id]) < Distance(s.parts[id])
  {
    AlwaysInv(Init, trace);
    var s := Run(Init, trace).value;
    assert PartWell(s.parts[id]) && s.parts[id].owner != Map;
    NextIsNearer(s, id);
  }

  lemma NextIsNearer(s: State, id: InstanceId)
    requires s.f.closed && id in s.parts && PartWell(s.parts[id]) && !Settled(s.parts[id]) && s.parts[id].owner != Map
    ensures var a := NextStep(id, s.parts[id]);
            Enabled(s, a) && id in Do(s, a).parts && Distance(Do(s, a).parts[id]) < Distance(s.parts[id])
  {
    var p := s.parts[id];
    if p.owner == Nobody && p.inst.stopper == I.Done { assert p.inst.dog.Spawned? || p.inst.dog.Abandoning?; }
  }
}
