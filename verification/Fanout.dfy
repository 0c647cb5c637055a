/** How a session's updates reach its viewers: journal replay on joining, then the
    live stream. Used by native turns, where updates are numbered, and by agent
    instances, where the first viewer also controls the session. */
module Fanout {
  import opened Journal

  type ViewerId = string

  /** Everything ever delivered to one session, and to each viewer attached to it.
      `joined` is how much of the history there was when the viewer came. */
  datatype Stream<T> = Stream(
    cap: nat,
    history: seq<T>,
    order: seq<ViewerId>,
    inbox: map<ViewerId, seq<T>>,
    joined: map<ViewerId, nat>)

  function Opened<T>(cap: nat): Stream<T> { Stream(cap, [], [], map[], map[]) }

  function Deliver<T>(s: Stream<T>, x: T): Stream<T> {
    s.(history := s.history + [x], inbox := map v | v in s.inbox :: s.inbox[v] + [x])
  }

  /** A viewer needs an id, and no two share one. */
  predicate MayJoin<T>(s: Stream<T>, v: ViewerId) { v != "" && v !in s.order }

  function Join<T>(s: Stream<T>, v: ViewerId): Stream<T> {
    if !MayJoin(s, v) then s
    else s.(order := s.order + [v], inbox := s.inbox[v := LastN(s.history, s.cap)], joined := s.joined[v := |s.history|])
  }

  function Without(order: seq<ViewerId>, v: ViewerId): seq<ViewerId> {
    if order == [] then [] else if order[0] == v then order[1..] else [order[0]] + Without(order[1..], v)
  }

  function Leave<T>(s: Stream<T>, v: ViewerId): Stream<T> {
    if v !in s.order then s
    else s.(order := Without(s.order, v), inbox := s.inbox - {v}, joined := s.joined - {v})
  }

  // -- What every step keeps ------------------------------------------------------

  ghost predicate DistinctIds(order: seq<ViewerId>) {
    forall i, j :: 0 <= i < j < |order| ==> order[i] != order[j]
  }

  /** What `v` has received is one unbroken piece of the history: the replayed suffix and
      everything since, in order, nothing missing and nothing twice. */
  ghost predicate Unbroken<T>(s: Stream<T>, v: ViewerId)
    requires v in s.inbox && v in s.joined
  {
    var k := s.joined[v];
    k <= |s.history| && s.inbox[v] == LastN(s.history[..k], s.cap) + s.history[k..]
  }

  ghost predicate Good<T>(s: Stream<T>) {
    && DistinctIds(s.order)
    && (forall v :: v in s.order <==> v in s.inbox) && s.joined.Keys == s.inbox.Keys
    && (forall v :: v in s.order ==> v != "")
    && forall v :: v in s.inbox ==> Unbroken(s, v)
  }

  lemma {:induction false} WithoutSpec(order: seq<ViewerId>, v: ViewerId)
    requires DistinctIds(order)
    ensures DistinctIds(Without(order, v)) && forall w :: w in Without(order, v) <==> w in order && w != v
    decreases |order|
  {
    if order != [] {
      WithoutSpec(order[1..], v);
      assert order == [order[0]] + order[1..];
      var rest := Without(order[1..], v);
      forall i | 0 <= i < |rest| ensures rest[i] != order[0] { assert rest[i] in order[1..]; }
    }
  }

  lemma DeliverGood<T>(s: Stream<T>, x: T)
    requires Good(s)
    ensures Good(Deliver(s, x))
  {
    var s' := Deliver(s, x);
    forall v | v in s'.inbox ensures Unbroken(s', v) {
      var k := s.joined[v];
      assert s'.history[..k] == s.history[..k] && s'.history[k..] == s.history[k..] + [x];
    }
  }

  lemma JoinGood<T>(s: Stream<T>, v: ViewerId)
    requires Good(s)
    ensures Good(Join(s, v))
  {
    if MayJoin(s, v) {
      assert s.history[..|s.history|] == s.history;
      assert Unbroken(Join(s, v), v);
      forall w | w in s.inbox ensures Unbroken(Join(s, v), w) { assert Unbroken(s, w); }
    }
  }

  lemma LeaveGood<T>(s: Stream<T>, v: ViewerId)
    requires Good(s)
    ensures Good(Leave(s, v))
  {
    if v in s.order {
      WithoutSpec(s.order, v);
      forall w | w in Leave(s, v).inbox ensures Unbroken(Leave(s, v), w) { assert Unbroken(s, w); }
    }
  }

  // -- Whole runs -------------------------------------------------------------------

  datatype Event<T> = Emit(x: T) | Attach(v: ViewerId) | Detach(v: ViewerId)

  function Step<T>(s: Stream<T>, e: Event<T>): Stream<T> {
    match e
    case Emit(x) => Deliver(s, x)
    case Attach(v) => Join(s, v)
    case Detach(v) => Leave(s, v)
  }

  function Steps<T>(s: Stream<T>, events: seq<Event<T>>): Stream<T> {
    if events == [] then s else Step(Steps(s, events[..|events| - 1]), events[|events| - 1])
  }

  lemma {:induction false} StepsGood<T>(s: Stream<T>, events: seq<Event<T>>)
    requires Good(s)
    ensures Good(Steps(s, events)) && Steps(s, events).cap == s.cap
    decreases |events|
  {
    if events != [] {
      var n := |events| - 1;
      StepsGood(s, events[..n]);
      var t := Steps(s, events[..n]);
      match events[n]
      case Emit(x) => DeliverGood(t, x);
      case Attach(v) => JoinGood(t, v);
      case Detach(v) => LeaveGood(t, v);
    }
  }

  /** In every run, what an attached viewer has received is exactly the history from
      `cap` updates before it joined up to now. */
  lemma ViewerSeesSuffix<T>(cap: nat, events: seq<Event<T>>, v: ViewerId)
    requires v in Steps(Opened(cap), events).order
    ensures var s := Steps(Opened(cap), events);
            && v in s.inbox && v in s.joined && s.joined[v] <= |s.history|
            && s.inbox[v] == s.history[if s.joined[v] <= cap then 0 else s.joined[v] - cap..]
  {
    StepsGood(Opened<T>(cap), events);
    GoodViewerSeesSuffix(Steps(Opened(cap), events), v);
  }

  lemma GoodViewerSeesSuffix<T>(s: Stream<T>, v: ViewerId)
    requires Good(s) && v in s.order
    ensures v in s.inbox && v in s.joined && s.joined[v] <= |s.history|
    ensures s.inbox[v] == s.history[if s.joined[v] <= s.cap then 0 else s.joined[v] - s.cap..]
  {
    assert Unbroken(s, v);
    LastNThenRest(s.history, s.joined[v], s.cap);
  }

  // -- The object ----------------------------------------------------------------------

  /** One session's fan-out. Every method runs under the session lock. */
  class Session<T(0)> {
    const journal: Ring<T>
    var order: seq<ViewerId>
    var inbox: map<ViewerId, seq<T>>     // what each viewer's Deliver has been called with
    ghost var history: seq<T>
    ghost var joined: map<ViewerId, nat>

    ghost function View(): Stream<T>
      reads this
    {
      Stream(journal.buf.Length, history, order, inbox, joined)
    }

    ghost predicate Valid()
      reads this, journal, journal.buf
    {
      && journal.Valid()
      && journal.Contents() == LastN(history, journal.buf.Length)
      && Good(View())
    }

    constructor (cap: nat)
      ensures Valid() && fresh(journal) && fresh(journal.buf) && View() == Opened(cap)
    {
      journal := new Ring<T>(cap);
      order, inbox, history, joined := [], map[], [], map[];
    }

    method Publish(x: T)
      requires Valid()
      modifies this`inbox, this`history, journal, journal.buf
      ensures Valid() && View() == Deliver(old(View()), x)
    {
      journal.Append(x);
      LastNAppend(history, x, journal.buf.Length);
      DeliverGood(View(), x);
      inbox := DeliverToAll(order, inbox, x);
      history := history + [x];
    }

    method AttachViewer(v: ViewerId) returns (ok: bool)
      requires Valid()
      modifies this
      ensures Valid() && View() == Join(old(View()), v) && ok == MayJoin(old(View()), v)
    {
      ok := v != "" && v !in order;
      JoinGood(View(), v);
      if !ok { return; }
      var backlog := journal.Snapshot();
      assert backlog == LastN(history, journal.buf.Length);
      order := order + [v];
      inbox := inbox[v := backlog];       // replayed before anything new can be published
      joined := joined[v := |history|];
    }

    method DetachViewer(v: ViewerId) returns (ok: bool)
      requires Valid()
      modifies this
      ensures Valid() && View() == Leave(old(View()), v) && ok == (v in old(order))
    {
      ok := v in inbox;
      LeaveGood(View(), v);
      if !ok { return; }
      inbox := inbox - {v};
      joined := joined - {v};
      order := RemoveFirst(order, v);
    }
  }

  /** Hands `x` to every viewer in order. */
  method DeliverToAll<T>(order: seq<ViewerId>, inbox: map<ViewerId, seq<T>>, x: T) returns (out: map<ViewerId, seq<T>>)
    requires DistinctIds(order) && forall v :: v in order <==> v in inbox
    ensures out == map v | v in inbox :: inbox[v] + [x]
  {
    out := inbox;
    for i := 0 to |order|
      invariant out.Keys == inbox.Keys
      invariant forall j :: 0 <= j < i ==> out[order[j]] == inbox[order[j]] + [x]
      invariant forall j :: i <= j < |order| ==> out[order[j]] == inbox[order[j]]
    {
      out := out[order[i] := out[order[i]] + [x]];
    }
  }

  /** Cuts the first occurrence of `v` out of the order. */
  method RemoveFirst(order: seq<ViewerId>, v: ViewerId) returns (out: seq<ViewerId>)
    requires v in order
    ensures out == Without(order, v)
  {
    var i := 0;
    while order[i] != v
      invariant i < |order| && forall j :: 0 <= j < i ==> order[j] != v
      decreases |order| - i
    {
      i := i + 1;
    }
    WithoutAt(order, i, v);
    out := order[..i] + order[i + 1..];
  }

  lemma {:induction false} WithoutAt(order: seq<ViewerId>, i: nat, v: ViewerId)
    requires i < |order| && order[i] == v && forall j :: 0 <= j < i ==> order[j] != v
    ensures Without(order, v) == order[..i] + order[i + 1..]
    decreases i
  {
    if i > 0 {
      WithoutAt(order[1..], i - 1, v);
      assert order[..i] == [order[0]] + order[1..][..i - 1];
    }
  }

  // -- Native turns: numbered updates ------------------------------------------------------

  datatype Numbered<U> = Numbered(seqNo: nat, update: U)

  /** The turn's counter and its stream. */
  datatype Turn<U> = Turn(seqNo: nat, stream: Stream<Numbered<U>>)

  function EmitNumbered<U>(t: Turn<U>, u: U): Turn<U> {
    Turn(t.seqNo + 1, Deliver(t.stream, Numbered(t.seqNo + 1, u)))
  }

  function TurnStep<U>(t: Turn<U>, e: Event<U>): Turn<U> {
    match e
    case Emit(u) => EmitNumbered(t, u)
    case Attach(v) => t.(stream := Join(t.stream, v))
    case Detach(v) => t.(stream := Leave(t.stream, v))
  }

  function TurnSteps<U>(cap: nat, events: seq<Event<U>>): Turn<U> {
    if events == [] then Turn(0, Opened(cap)) else TurnStep(TurnSteps(cap, events[..|events| - 1]), events[|events| - 1])
  }

  ghost predicate GoodTurn<U>(t: Turn<U>) {
    && Good(t.stream) && t.seqNo == |t.stream.history|
    && forall i :: 0 <= i < |t.stream.history| ==> t.stream.history[i].seqNo == i + 1
  }

  lemma {:induction false} TurnStepsGood<U>(cap: nat, events: seq<Event<U>>)
    ensures GoodTurn(TurnSteps(cap, events))
    decreases |events|
  {
    if events != [] {
      var n := |events| - 1;
      TurnStepsGood(cap, events[..n]);
      TurnStepGood(TurnSteps(cap, events[..n]), events[n]);
    }
  }

  lemma TurnStepGood<U>(t: Turn<U>, e: Event<U>)
    requires GoodTurn(t)
    ensures GoodTurn(TurnStep(t, e))
  {
    match e
    case Emit(u) => DeliverGood(t.stream, Numbered(t.seqNo + 1, u));
    case Attach(v) => JoinGood(t.stream, v);
    case Detach(v) => LeaveGood(t.stream, v);
  }

  /** A viewer of a native turn sees consecutive sequence numbers that end at the newest. */
  lemma ConsecutiveNumbers<U>(cap: nat, events: seq<Event<U>>, v: ViewerId)
    requires v in TurnSteps(cap, events).stream.inbox
    ensures var t := TurnSteps(cap, events); var got := t.stream.inbox[v];
            forall i :: 0 <= i < |got| ==> got[i].seqNo == t.seqNo - |got| + i + 1
  {
    TurnStepsGood(cap, events);
    var t := TurnSteps(cap, events);
    assert Unbroken(t.stream, v);
    LastNThenRest(t.stream.history, t.stream.joined[v], t.stream.cap);
  }

  // -- Agent instances: rooms that come and go, each with a controller ---------------------

  type RoomId = string

  datatype Room<T> = Room(stream: Stream<T>, controller: ViewerId)

  type Hub<T> = map<RoomId, Room<T>>

  function RoomOf<T>(h: Hub<T>, cap: nat, id: RoomId): Room<T> {
    if id in h then h[id] else Room(Opened(cap), "")
  }

  function HubDeliver<T>(h: Hub<T>, cap: nat, id: RoomId, x: T): Hub<T> {
    var r := RoomOf(h, cap, id);
    h[id := r.(stream := Deliver(r.stream, x))]
  }

  /** A viewer without an id is refused before the room is even looked up. */
  function HubAttach<T>(h: Hub<T>, cap: nat, id: RoomId, v: ViewerId): Hub<T> {
    if v == "" then h
    else
      var r := RoomOf(h, cap, id);
      h[id := Room(Join(r.stream, v), if MayJoin(r.stream, v) && r.controller == "" then v else r.controller)]
  }

  /** The controller's place goes to the earliest survivor; an empty room is dropped, with its journal. */
  function HubDetach<T>(h: Hub<T>, id: RoomId, v: ViewerId): Hub<T> {
    if id !in h || v !in h[id].stream.order then h
    else
      var s := Leave(h[id].stream, v);
      if s.order == [] then h - {id}
      else h[id := Room(s, if h[id].controller == v then s.order[0] else h[id].controller)]
  }

  datatype HubEvent<T> =
    | HubEmit(id: RoomId, x: T)
    | HubJoin(id: RoomId, v: ViewerId)
    | HubLeave(id: RoomId, v: ViewerId)
    | HubClose(id: RoomId)

  function HubStep<T>(h: Hub<T>, cap: nat, e: HubEvent<T>): Hub<T> {
    match e
    case HubEmit(id, x) => HubDeliver(h, cap, id, x)
    case HubJoin(id, v) => HubAttach(h, cap, id, v)
    case HubLeave(id, v) => HubDetach(h, id, v)
    case HubClose(id) => h - {id}
  }

  function HubSteps<T>(cap: nat, events: seq<HubEvent<T>>): Hub<T> {
    if events == [] then map[] else HubStep(HubSteps(cap, events[..|events| - 1]), cap, events[|events| - 1])
  }

  /** The controller is always the earliest attached viewer. */
  ghost predicate GoodRoom<T>(r: Room<T>, cap: nat) {
    && Good(r.stream) && r.stream.cap == cap
    && r.controller == if r.stream.order == [] then "" else r.stream.order[0]
  }

  lemma AttachGood<T>(h: Hub<T>, cap: nat, id: RoomId, v: ViewerId)
    requires GoodRoom(RoomOf(h, cap, id), cap) && v != ""
    ensures GoodRoom(HubAttach(h, cap, id, v)[id], cap)
  {
    var r := RoomOf(h, cap, id);
    JoinGood(r.stream, v);
    assert r.stream.order != [] ==> r.stream.order[0] in r.stream.order;
  }

  lemma DetachGood<T>(h: Hub<T>, cap: nat, id: RoomId, v: ViewerId)
    requires id in h && GoodRoom(h[id], cap)
    ensures id in HubDetach(h, id, v) ==> GoodRoom(HubDetach(h, id, v)[id], cap)
  {
    var s := h[id].stream;
    LeaveGood(s, v);
    if v in s.order && s.order[0] != v {
      assert Without(s.order, v)[0] == s.order[0];
    }
  }

  lemma HubStepGood<T>(h: Hub<T>, cap: nat, e: HubEvent<T>)
    requires forall id :: id in h ==> GoodRoom(h[id], cap)
    ensures forall id :: id in HubStep(h, cap, e) ==> GoodRoom(HubStep(h, cap, e)[id], cap)
  {
    var h' := HubStep(h, cap, e);
    assert forall id :: id in h' && id != e.id ==> id in h && h'[id] == h[id];
    if e.id in h' {
      assert GoodRoom(RoomOf(h, cap, e.id), cap);
      match e
      case HubEmit(_, x) => DeliverGood(RoomOf(h, cap, e.id).stream, x);
      case HubJoin(_, v) => if v != "" { AttachGood(h, cap, e.id, v); }
      case HubLeave(_, v) => DetachGood(h, cap, e.id, v);
      case HubClose(_) =>
    }
  }

  /** In every run of an instance's sessions each room has its earliest viewer as its
      controller, and each viewer has received an unbroken suffix of the room's history. */
  lemma {:induction false} HubAlwaysGood<T>(cap: nat, events: seq<HubEvent<T>>)
    ensures forall id :: id in HubSteps(cap, events) ==> GoodRoom(HubSteps(cap, events)[id], cap)
    decreases |events|
  {
    if events != [] {
      HubAlwaysGood(cap, events[..|events| - 1]);
      HubStepGood(HubSteps(cap, events[..|events| - 1]), cap, events[|events| - 1]);
    }
  }

  lemma HubViewerSeesSuffix<T>(cap: nat, events: seq<HubEvent<T>>, id: RoomId, v: ViewerId)
    requires id in HubSteps(cap, events) && v in HubSteps(cap, events)[id].stream.order
    ensures var s := HubSteps(cap, events)[id].stream;
            && v in s.inbox && v in s.joined && s.joined[v] <= |s.history|
            && s.inbox[v] == s.history[if s.joined[v] <= cap then 0 else s.joined[v] - cap..]
  {
    HubAlwaysGood(cap, events);
    GoodViewerSeesSuffix(HubSteps(cap, events)[id].stream, v);
  }
}
