/** Request correlation on a JSON-RPC connection: calls, the read loop delivering
    responses, cancellations and shutdown, all sharing the table of pending channels.

    Channels are Go channels of capacity one: a send on a closed channel and a second
    close are panics, a send into a full channel blocks. */
module Correlation {
  import opened Options

  type Id = nat
  type ChanId = nat

  datatype Response = Response(id: Id, body: string)

  // -- The table the lock guards ------------------------------------------------

  /** The pending table, one method per critical section. */
  class Pending {
    var table: map<Id, ChanId>
    var open: set<ChanId>

    /** Each pending call has a channel of its own, and it is open. */
    ghost predicate Valid()
      reads this
    {
      Distinct(table) && forall i :: i in table ==> table[i] in open
    }

    constructor ()
      ensures Valid() && table == map[] && open == {}
    {
      table, open := map[], {};
    }

    method Register(id: Id, ch: ChanId)
      requires Valid() && id !in table && ch in open && forall i :: i in table ==> table[i] != ch
      modifies this`table
      ensures Valid() && table == old(table)[id := ch]
    {
      table := table[id := ch];
    }

    method Take(id: Id) returns (ch: Option<ChanId>)
      requires Valid()
      modifies this`table
      ensures Valid() && table == old(table) - {id}
      ensures ch == if id in old(table) then Some(old(table)[id]) else None
    {
      if id in table {
        ch := Some(table[id]);
        table := table - {id};
      } else {
        ch := None;
      }
    }

    /** The loop of `shutdown`: closes every pending channel, none twice, and clears the table. */
    method CloseAll()
      requires Valid()
      modifies this
      ensures Valid() && table == map[] && open == old(open) - (set i | i in old(table) :: old(table)[i])
    {
      while table != map[]
        invariant Valid()
        invariant table.Keys <= old(table).Keys && forall i :: i in table ==> table[i] == old(table)[i]
        invariant open == old(open) - (set i | i in old(table) && i !in table :: old(table)[i])
        decreases table.Keys
      {
        assert table.Keys != {};
        var id :| id in table.Keys;
        var ch := table[id];
        assert ch in open;              // close(ch) does not panic
        open := open - {ch};
        table := table - {id};
      }
    }
  }

  ghost predicate Distinct(table: map<Id, ChanId>) {
    forall i, j :: i in table && j in table && table[i] == table[j] ==> i == j
  }

  // -- The whole system ---------------------------------------------------------

  datatype Chan = Chan(buf: seq<Response>, open: bool, sends: nat, closes: nat)

  datatype Result = Got(response: Response) | ConnectionClosed | ContextDone | WriteFailed

  datatype Phase =
    | Registered            // in the table, request not yet written
    | Waiting               // in the select
    | Failing               // the write failed, entry not yet deleted
    | Cancelling            // the context ended, entry not yet deleted
    | Returned(result: Result)

  datatype Call = Call(ch: ChanId, phase: Phase)

  /** The single read loop, inside `deliverResponse` or outside. */
  datatype Reader = Idle | Sending(ch: ChanId, response: Response) | Closing(ch: ChanId)

  /** `closeOnce` lets one shutdown through: it clears the table, then closes the connection. */
  datatype Shutdown = Open | Draining | Cleared | Closed

  datatype State = State(
    nextId: Id,
    numbered: set<Id>,                    // taken from the counter, channel not yet registered
    pending: map<Id, ChanId>,
    chans: map<ChanId, Chan>,
    calls: map<Id, Call>,
    reader: Reader,
    shutdown: Shutdown,
    panicked: bool)

  const Init := State(0, {}, map[], map[], map[], Idle, Open, false)

  datatype Action =
    | TakesId                             // a later marshalling error gives the id up
    | Registers(id: Id, ch: ChanId)
    | WriteDone(id: Id, ok: bool)
    | DropEntry(id: Id)
    | ContextEnds(id: Id)
    | Receive(id: Id)
    | SeeClosed(id: Id)
    | ResponseArrives(response: Response)
    | Send
    | CloseAfterSend
    | ShutdownStarts
    | ShutdownClears
    | ShutdownEnds

  predicate In(s: State, id: Id, p: Phase) { id in s.calls && s.calls[id].phase == p }

  predicate Enabled(s: State, a: Action) {
    match a
    case TakesId => true
    case Registers(id, ch) => id in s.numbered && ch !in s.chans
    case WriteDone(id, _) => In(s, id, Registered)
    case DropEntry(id) => In(s, id, Failing) || In(s, id, Cancelling)
    case ContextEnds(id) => In(s, id, Waiting)
    case Receive(id) =>
      In(s, id, Waiting) && s.calls[id].ch in s.chans && (s.chans[s.calls[id].ch].buf != [] || !s.chans[s.calls[id].ch].open)
    case SeeClosed(id) => In(s, id, Waiting) && s.shutdown == Closed
    case ResponseArrives(_) => s.reader.Idle?
    // a send into a full channel waits
    case Send => s.reader.Sending? && s.reader.ch in s.chans && |s.chans[s.reader.ch].buf| < 1
    case CloseAfterSend => s.reader.Closing? && s.reader.ch in s.chans
    case ShutdownStarts => s.shutdown == Open
    case ShutdownClears => s.shutdown == Draining
    case ShutdownEnds => s.shutdown == Cleared
  }

  function SetPhase(s: State, id: Id, p: Phase): State
    requires id in s.calls
  {
    s.(calls := s.calls[id := s.calls[id].(phase := p)])
  }

  function SendTo(c: Chan, r: Response): Chan { c.(buf := c.buf + [r], sends := c.sends + 1) }

  function Close(c: Chan): Chan { c.(open := false, closes := c.closes + 1) }

  function Do(s: State, a: Action): State
    requires Enabled(s, a)
  {
    match a
    case TakesId => s.(nextId := s.nextId + 1, numbered := s.numbered + {s.nextId + 1})
    case Registers(id, ch) =>
      s.(numbered := s.numbered - {id}, chans := s.chans[ch := Chan([], true, 0, 0)],
         calls := s.calls[id := Call(ch, Registered)], pending := s.pending[id := ch])
    case WriteDone(id, ok) => SetPhase(s, id, if ok then Waiting else Failing)
    case DropEntry(id) =>
      var result := if s.calls[id].phase == Failing then WriteFailed else ContextDone;
      SetPhase(s, id, Returned(result)).(pending := s.pending - {id})
    case ContextEnds(id) => SetPhase(s, id, Cancelling)
    case Receive(id) =>
      var ch := s.calls[id].ch;
      var buf := s.chans[ch].buf;
      if buf != [] then SetPhase(s, id, Returned(Got(buf[0]))).(chans := s.chans[ch := s.chans[ch].(buf := buf[1..])])
      else SetPhase(s, id, Returned(ConnectionClosed))
    case SeeClosed(id) => SetPhase(s, id, Returned(ConnectionClosed))
    case ResponseArrives(r) =>
      if r.id in s.pending then s.(pending := s.pending - {r.id}, reader := Sending(s.pending[r.id], r)) else s
    case Send =>
      var ch := s.reader.ch;
      s.(panicked := s.panicked || !s.chans[ch].open,
         chans := s.chans[ch := SendTo(s.chans[ch], s.reader.response)], reader := Closing(ch))
    case CloseAfterSend =>
      var ch := s.reader.ch;
      s.(panicked := s.panicked || !s.chans[ch].open, chans := s.chans[ch := Close(s.chans[ch])], reader := Idle)
    case ShutdownStarts => s.(shutdown := Draining)
    case ShutdownClears =>
      s.(shutdown := Cleared,
         panicked := s.panicked || exists i, j :: i in s.pending && j in s.pending
                                    && ((i != j && s.pending[i] == s.pending[j])
                                        || s.pending[i] !in s.chans || !s.chans[s.pending[i]].open),
         chans := map ch | ch in s.chans :: if ch in s.pending.Values then Close(s.chans[ch]) else s.chans[ch],
         pending := map[])
    case ShutdownEnds => s.(shutdown := Closed)
  }

  function Run(trace: seq<Action>): Option<State> {
    var n := |trace|;
    if n == 0 then Some(Init)
    else
      var before := Run(trace[..n - 1]);
      if before.Some? && Enabled(before.value, trace[n - 1]) then Some(Do(before.value, trace[n - 1])) else None
  }

  // -- What every step keeps ------------------------------------------------------

  /** A channel nobody has touched yet. */
  predicate Fresh(c: Chan) { c == Chan([], true, 0, 0) }

  /** An id is used by one call, and calls and their channels match one to one. */
  ghost predicate CallsDistinct(s: State) {
    && (forall i :: i in s.numbered ==> i <= s.nextId && i !in s.calls)
    && (forall i :: i in s.calls ==> i <= s.nextId && s.calls[i].ch in s.chans)
    && (forall i, j :: i in s.calls && j in s.calls && s.calls[i].ch == s.calls[j].ch ==> i == j)
  }

  /** A channel in the table belongs to the call of that id, and nobody has touched it. */
  ghost predicate TableOwns(s: State) {
    forall i :: i in s.pending ==> Owned(s, i)
  }

  predicate Owned(s: State, i: Id)
    requires i in s.pending
  {
    i in s.calls && s.pending[i] == s.calls[i].ch && s.pending[i] in s.chans && Fresh(s.chans[s.pending[i]])
  }

  /** A channel in the read loop's hands is no longer in the table. */
  ghost predicate ReaderOwns(s: State) {
    match s.reader
    case Idle => true
    case Sending(ch, r) =>
      && r.id in s.calls && r.id !in s.pending && s.calls[r.id].ch == ch
      && ch in s.chans && Fresh(s.chans[ch])
    case Closing(ch) =>
      && (exists i :: i in s.calls && i !in s.pending && s.calls[i].ch == ch)
      && ch in s.chans && s.chans[ch].open && s.chans[ch].sends == 1 && s.chans[ch].closes == 0
  }

  ghost predicate ChannelsOnce(s: State) {
    && !s.panicked
    && forall ch :: ch in s.chans ==>
         ChanOnce(s.chans[ch])
  }

  predicate ChanOnce(c: Chan) { c.sends <= 1 && c.closes <= 1 && |c.buf| <= c.sends && c.open == (c.closes == 0) }

  /** Whatever sits in a call's channel, or was taken from it, bears the call's id. */
  ghost predicate OwnResponses(s: State) {
    forall i :: i in s.calls ==> OwnResponse(s, i)
  }

  ghost predicate OwnResponse(s: State, i: Id)
    requires i in s.calls
  {
    && s.calls[i].ch in s.chans
    && (forall r :: r in s.chans[s.calls[i].ch].buf ==> r.id == i)
    && (s.calls[i].phase.Returned? && s.calls[i].phase.result.Got? ==> s.calls[i].phase.result.response.id == i)
  }

  ghost predicate Inv(s: State) {
    CallsDistinct(s) && TableOwns(s) && ReaderOwns(s) && ChannelsOnce(s) && OwnResponses(s)
  }

  lemma InvStep(s: State, a: Action)
    requires Inv(s) && Enabled(s, a)
    ensures Inv(Do(s, a))
  {
    CallsStep(s, a);
    TableStep(s, a);
    ReaderStep(s, a);
    OnceStep(s, a);
    OwnStep(s, a);
  }

  lemma CallsStep(s: State, a: Action)
    requires CallsDistinct(s) && Enabled(s, a)
    ensures CallsDistinct(Do(s, a))
  {
    IdsStep(s, a);
    forall i, j | i in Do(s, a).calls && j in Do(s, a).calls && Do(s, a).calls[i].ch == Do(s, a).calls[j].ch ensures i == j {
      CallKept(s, a, i);
      CallKept(s, a, j);
    }
  }

  lemma IdsStep(s: State, a: Action)
    requires CallsDistinct(s) && Enabled(s, a)
    ensures forall i :: i in Do(s, a).numbered ==> i <= Do(s, a).nextId && i !in Do(s, a).calls
    ensures forall i :: i in Do(s, a).calls ==> i <= Do(s, a).nextId && Do(s, a).calls[i].ch in Do(s, a).chans
  {}

  /** A call keeps its channel, and a new one has a channel of its own. */
  lemma CallKept(s: State, a: Action, i: Id)
    requires Enabled(s, a) && i in Do(s, a).calls
    ensures if i in s.calls && !(a.Registers? && a.id == i) then Do(s, a).calls[i].ch == s.calls[i].ch
            else a.Registers? && a.id == i && Do(s, a).calls[i].ch == a.ch && a.ch !in s.chans
  {}

  lemma TableStep(s: State, a: Action)
    requires Inv(s) && Enabled(s, a)
    ensures TableOwns(Do(s, a))
  {
    forall i | i in Do(s, a).pending ensures Owned(Do(s, a), i) {
      EntryStep(s, a, i);
    }
  }

  lemma EntryStep(s: State, a: Action, i: Id)
    requires CallsDistinct(s) && TableOwns(s) && ReaderOwns(s) && Enabled(s, a) && i in Do(s, a).pending
    ensures Owned(Do(s, a), i)
  {
    if i in s.pending && !a.Registers? {
      assert Owned(s, i);
      NotWithReader(s, i);
      UntouchedStaysFresh(s, a, s.pending[i]);
    }
  }

  lemma NotWithReader(s: State, i: Id)
    requires CallsDistinct(s) && TableOwns(s) && ReaderOwns(s) && i in s.pending
    ensures !s.reader.Idle? ==> s.pending[i] != s.reader.ch
  {
    assert Owned(s, i);
  }

  /** Only the read loop and a shutdown touch a channel nobody has touched yet. */
  lemma UntouchedStaysFresh(s: State, a: Action, ch: ChanId)
    requires Enabled(s, a) && ch in s.chans && Fresh(s.chans[ch]) && !a.ShutdownClears? && (a.Registers? ==> a.ch != ch)
    requires !s.reader.Idle? ==> s.reader.ch != ch
    ensures ch in Do(s, a).chans && Fresh(Do(s, a).chans[ch])
  {}

  lemma ReaderStep(s: State, a: Action)
    requires Inv(s) && Enabled(s, a)
    ensures ReaderOwns(Do(s, a))
  {
    match s.reader
    case Idle => ReaderTakes(s, a);
    case Sending(_, _) => ReaderSends(s, a);
    case Closing(_) => ReaderCloses(s, a);
  }

  lemma ReaderTakes(s: State, a: Action)
    requires CallsDistinct(s) && TableOwns(s) && s.reader.Idle? && Enabled(s, a)
    ensures ReaderOwns(Do(s, a))
  {
    if a.ResponseArrives? && a.response.id in s.pending { assert Owned(s, a.response.id); }
  }

  lemma ReaderSends(s: State, a: Action)
    requires CallsDistinct(s) && TableOwns(s) && ReaderOwns(s) && s.reader.Sending? && Enabled(s, a)
    ensures ReaderOwns(Do(s, a))
  {
    var i := s.reader.response.id;
    assert forall j :: j in s.pending ==> Owned(s, j) && s.pending[j] != s.reader.ch;
    assert i in Do(s, a).calls && i !in Do(s, a).pending;
  }

  lemma ReaderCloses(s: State, a: Action)
    requires CallsDistinct(s) && TableOwns(s) && ReaderOwns(s) && s.reader.Closing? && Enabled(s, a)
    ensures ReaderOwns(Do(s, a))
  {
    var i :| i in s.calls && i !in s.pending && s.calls[i].ch == s.reader.ch;
    assert forall j :: j in s.pending ==> Owned(s, j) && s.pending[j] != s.reader.ch;
    assert i in Do(s, a).calls && i !in Do(s, a).pending;
  }

  lemma OnceStep(s: State, a: Action)
    requires Inv(s) && Enabled(s, a)
    ensures ChannelsOnce(Do(s, a))
  {
    forall ch | ch in Do(s, a).chans ensures ChanOnce(Do(s, a).chans[ch]) {
      ChanStep(s, a, ch);
    }
  }

  lemma ChanStep(s: State, a: Action, ch: ChanId)
    requires TableOwns(s) && ReaderOwns(s) && ChannelsOnce(s) && Enabled(s, a) && ch in Do(s, a).chans
    ensures ChanOnce(Do(s, a).chans[ch])
  {
    if a.ShutdownClears? && ch in s.pending.Values {
      var i :| i in s.pending && s.pending[i] == ch;
      assert Owned(s, i);
    }
  }

  lemma OwnStep(s: State, a: Action)
    requires Inv(s) && Enabled(s, a)
    ensures OwnResponses(Do(s, a))
  {
    forall i | i in Do(s, a).calls ensures OwnResponse(Do(s, a), i) {
      ResponseStep(s, a, i);
    }
  }

  lemma ResponseStep(s: State, a: Action, i: Id)
    requires CallsDistinct(s) && ReaderOwns(s) && Enabled(s, a) && i in Do(s, a).calls
    requires i in s.calls ==> OwnResponse(s, i)
    ensures OwnResponse(Do(s, a), i)
  {
    if a.Receive? && a.id != i && i in s.calls { assert s.calls[i].ch != s.calls[a.id].ch; }
  }

  lemma {:induction false} AlwaysInv(trace: seq<Action>)
    requires Run(trace).Some?
    ensures Inv(Run(trace).value)
    decreases |trace|
  {
    var n := |trace|;
    if n > 0 {
      AlwaysInv(trace[..n - 1]);
      InvStep(Run(trace[..n - 1]).value, trace[n - 1]);
    }
  }

  // -- What the connection promises --------------------------------------------------

  /** No channel is sent to twice, closed twice, or sent to after its close. */
  lemma ChannelsNeverMisused(trace: seq<Action>, ch: ChanId)
    requires Run(trace).Some?
    ensures !Run(trace).value.panicked
    ensures ch in Run(trace).value.chans ==>
              Run(trace).value.chans[ch].sends <= 1 && Run(trace).value.chans[ch].closes <= 1
  {
    AlwaysInv(trace);
  }

  /** The read loop never waits for a caller: both halves of a delivery can always go on. */
  lemma DeliveryNeverBlocks(trace: seq<Action>)
    requires Run(trace).Some? && !Run(trace).value.reader.Idle?
    ensures Enabled(Run(trace).value, Send) || Enabled(Run(trace).value, CloseAfterSend)
  {
    AlwaysInv(trace);
  }

  /** A call that returns a response returns one that bears its own id. */
  lemma CallGetsItsOwnResponse(trace: seq<Action>, id: Id)
    requires Run(trace).Some? && id in Run(trace).value.calls
    requires var p := Run(trace).value.calls[id].phase; p.Returned? && p.result.Got?
    ensures Run(trace).value.calls[id].phase.result.response.id == id
  {
    AlwaysInv(trace);
  }

  /** A delivered response is not lost: until its call returns some other way, the
      channel of the call holds it. */
  lemma DeliveredResponseIsHeld(trace: seq<Action>, r: Response)
    requires Run(trace).Some? && Run(trace).value.reader.Sending? && Run(trace).value.reader.response == r
    ensures var s := Run(trace).value;
            Enabled(s, Send) &&
            var s' := Do(s, Send);
            In(s', r.id, Waiting) ==>
              Enabled(s', Receive(r.id)) && Do(s', Receive(r.id)).calls[r.id].phase == Returned(Got(r))
  {
    AlwaysInv(trace);
  }
}
