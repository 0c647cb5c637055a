/** Firing claims: which host may run a (trigger, event) pair, when a claim may be taken
    over, and what a reset allows. */
module Firings {
  import opened Options

  type Key = (string, int)       // trigger name, event number
  type Time = int
  type Pid = nat

  datatype Status = Running | Ok | Error | Refused

  datatype Row = Row(status: Status, request: string, updatedAt: Time)

  const SECOND := 1_000_000_000

  /** A running claim older than the bound. */
  predicate Stranded(row: Row, now: Time, stale: Time) { row.status == Running && now - row.updatedAt > stale }

  /** The condition of the takeover statement. */
  predicate Reclaimable(row: Row, now: Time, stale: Time) { row.status == Running && row.updatedAt < now - stale }

  /** The condition of the reset statement. */
  predicate Resettable(row: Row, now: Time, stale: Time) { row.status != Running || row.updatedAt < now - stale }

  // -- The statements, as effects on the table ------------------------------------------

  function Insert(rows: map<Key, Row>, k: Key, request: string, now: Time): map<Key, Row> {
    if k in rows then rows else rows[k := Row(Running, request, now)]
  }

  function Reclaim(rows: map<Key, Row>, k: Key, request: string, now: Time, stale: Time): map<Key, Row> {
    if k in rows && Reclaimable(rows[k], now, stale) then rows[k := Row(Running, request, now)] else rows
  }

  function Finish(rows: map<Key, Row>, k: Key, status: Status, now: Time): map<Key, Row> {
    if k in rows then rows[k := rows[k].(status := status, updatedAt := now)] else rows
  }

  /** Back-dates the row just beyond the bound. */
  function Reset(rows: map<Key, Row>, k: Key, now: Time, stale: Time): map<Key, Row> {
    if k in rows && Resettable(rows[k], now, stale)
    then rows[k := rows[k].(status := Running, updatedAt := now - stale - SECOND)] else rows
  }

  class FiringStore {
    const stale: Time
    var rows: map<Key, Row>

    constructor (stale: Time)
      requires stale > 0
      ensures this.stale == stale && rows == map[]
    {
      this.stale, rows := stale, map[];
    }

    /** The insert, and the takeover when the row is there already. */
    method Begin(k: Key, request: string, now: Time) returns (granted: bool)
      modifies this`rows
      ensures granted <==> k !in old(rows) || Stranded(old(rows)[k], now, stale)
      ensures rows == if granted then old(rows)[k := Row(Running, request, now)] else old(rows)
    {
      if k !in rows {
        rows := rows[k := Row(Running, request, now)];
        return true;
      }
      granted := rows[k].status == Running && rows[k].updatedAt < now - stale;
      if granted { rows := rows[k := Row(Running, request, now)]; }
    }

    method FinishFiring(k: Key, status: Status, now: Time)
      modifies this`rows
      ensures rows == Finish(old(rows), k, status, now)
    {
      if k in rows { rows := rows[k := rows[k].(status := status, updatedAt := now)]; }
    }

    method ResetFiring(k: Key, now: Time) returns (done: bool)
      modifies this`rows
      ensures rows == Reset(old(rows), k, now, stale)
      ensures done <==> k in old(rows) && (old(rows)[k].status != Running || Stranded(old(rows)[k], now, stale))
    {
      done := k in rows && (rows[k].status != Running || rows[k].updatedAt < now - stale);
      if done { rows := rows[k := rows[k].(status := Running, updatedAt := now - stale - SECOND)]; }
    }
  }

  // -- Every interleaving of hosts ----------------------------------------------------------

  /** A call that has read the clock and has a statement still to run. */
  datatype Call =
    | Inserting(k: Key, request: string, now: Time)
    | Reclaiming(k: Key, request: string, now: Time)
    | Finishing(k: Key, status: Status, now: Time)
    | Resetting(k: Key, now: Time)

  datatype Entry = Granted(k: Key, at: Time) | WasReset(k: Key)

  datatype State = State(clock: Time, rows: map<Key, Row>, calls: map<Pid, Call>, log: seq<Entry>)

  datatype Action =
    | Tick(d: nat)
    | BeginCalled(p: Pid, k: Key, request: string)
    | FinishCalled(p: Pid, k: Key, status: Status)
    | ResetCalled(p: Pid, k: Key)
    | Executes(p: Pid)             // the statement the call has to run next

  predicate Enabled(s: State, a: Action) {
    match a
    case Tick(_) => true
    case BeginCalled(p, _, _) => p !in s.calls
    case FinishCalled(p, _, _) => p !in s.calls
    case ResetCalled(p, _) => p !in s.calls
    case Executes(p) => p in s.calls
  }

  /** Whether the statement of `c` hands a claim out. */
  predicate Grants(stale: Time, rows: map<Key, Row>, c: Call) {
    match c
    case Inserting(k, _, _) => k !in rows
    case Reclaiming(k, _, now) => k in rows && Reclaimable(rows[k], now, stale)
    case _ => false
  }

  predicate Resets(stale: Time, rows: map<Key, Row>, c: Call) {
    c.Resetting? && c.k in rows && Resettable(rows[c.k], c.now, stale)
  }

  /** The table after the statement of `c`. */
  function RowsAfter(stale: Time, rows: map<Key, Row>, c: Call): map<Key, Row> {
    match c
    case Inserting(k, request, now) => Insert(rows, k, request, now)
    case Reclaiming(k, request, now) => Reclaim(rows, k, request, now, stale)
    case Finishing(k, status, now) => Finish(rows, k, status, now)
    case Resetting(k, now) => Reset(rows, k, now, stale)
  }

  function LogAfter(stale: Time, rows: map<Key, Row>, log: seq<Entry>, c: Call): seq<Entry> {
    if Grants(stale, rows, c) then log + [Granted(c.k, c.now)]
    else if Resets(stale, rows, c) then log + [WasReset(c.k)]
    else log
  }

  function Do(stale: Time, s: State, a: Action): State
    requires Enabled(s, a)
  {
    match a
    case Tick(d) => s.(clock := s.clock + d)
    case BeginCalled(p, k, request) => s.(calls := s.calls[p := Inserting(k, request, s.clock)])
    case FinishCalled(p, k, status) => s.(calls := s.calls[p := Finishing(k, status, s.clock)])
    case ResetCalled(p, k) => s.(calls := s.calls[p := Resetting(k, s.clock)])
    case Executes(p) =>
      var c := s.calls[p];
      var calls := if c.Inserting? && c.k in s.rows then s.calls[p := Reclaiming(c.k, c.request, c.now)] else s.calls - {p};
      s.(rows := RowsAfter(stale, s.rows, c), log := LogAfter(stale, s.rows, s.log, c), calls := calls)
  }

  function Run(stale: Time, s: State, trace: seq<Action>): Option<State>
    decreases |trace|
  {
    if trace == [] then Some(s)
    else if Enabled(s, trace[0]) then Run(stale, Do(stale, s, trace[0]), trace[1..])
    else None
  }

  ghost predicate Init(s: State) { s.rows == map[] && s.calls == map[] && s.log == [] }

  /** Outcomes recorded for `k` are among `outcomes`. */
  predicate Records(a: Action, k: Key, outcomes: set<Status>) { a.FinishCalled? && a.k == k ==> a.status in outcomes }

  // -- What every step keeps -------------------------------------------------------------------

  /** The time of the last grant of `k`, unless a reset came after it. */
  function LastGrant(log: seq<Entry>, k: Key): Option<Time> {
    if log == [] then None
    else
      var e := log[|log| - 1];
      if e.k != k then LastGrant(log[..|log| - 1], k)
      else if e.Granted? then Some(e.at)
      else None
  }

  /** Every grant comes more than the bound after the one before it. */
  predicate Spaced(stale: Time, log: seq<Entry>, k: Key) {
    log == [] ||
    var n := |log| - 1;
    && Spaced(stale, log[..n], k)
    && (IsGrantOf(log[n], k) && LastGrant(log[..n], k).Some? ==> log[n].at - LastGrant(log[..n], k).value > stale)
  }

  predicate IsGrantOf(e: Entry, k: Key) { e.Granted? && e.k == k }

  /** A running row is at least as new as the grant it stands for, and no call is about to
      record the outcome "running". */
  ghost predicate Inv(stale: Time, s: State, k: Key) {
    && Spaced(stale, s.log, k)
    && (LastGrant(s.log, k).Some? ==> k in s.rows)
    && (LastGrant(s.log, k).Some? && s.rows[k].status == Running ==> LastGrant(s.log, k).value <= s.rows[k].updatedAt)
    && (forall p :: p in s.calls && s.calls[p].Finishing? && s.calls[p].k == k ==> s.calls[p].status != Running)
  }

  lemma LogSnoc(stale: Time, log: seq<Entry>, e: Entry, k: Key)
    ensures LastGrant(log + [e], k) ==
            if e.k != k then LastGrant(log, k) else if e.Granted? then Some(e.at) else None
    ensures Spaced(stale, log + [e], k) <==>
            && Spaced(stale, log, k)
            && (IsGrantOf(e, k) && LastGrant(log, k).Some? ==> e.at - LastGrant(log, k).value > stale)
  {
    assert (log + [e])[..|log|] == log;
  }

  lemma InvStep(stale: Time, s: State, a: Action, k: Key, outcomes: set<Status>)
    requires stale > 0 && Inv(stale, s, k) && Enabled(s, a) && Records(a, k, outcomes) && Running !in outcomes
    ensures Inv(stale, Do(stale, s, a), k)
  {
    if a.Executes? {
      var c := s.calls[a.p];
      if Grants(stale, s.rows, c) {
        LogSnoc(stale, s.log, Granted(c.k, c.now), k);
      } else if Resets(stale, s.rows, c) {
        LogSnoc(stale, s.log, WasReset(c.k), k);
      }
    }
  }

  ghost predicate AllRecord(trace: seq<Action>, k: Key, outcomes: set<Status>) {
    forall a :: a in trace ==> Records(a, k, outcomes)
  }

  lemma {:induction false} AlwaysInv(stale: Time, s: State, trace: seq<Action>, k: Key, outcomes: set<Status>)
    requires stale > 0 && Inv(stale, s, k) && Run(stale, s, trace).Some?
    requires AllRecord(trace, k, outcomes) && Running !in outcomes
    ensures Inv(stale, Run(stale, s, trace).value, k)
    decreases |trace|
  {
    if trace != [] {
      assert trace[0] in trace && forall a :: a in trace[1..] ==> a in trace;
      InvStep(stale, s, trace[0], k, outcomes);
      AlwaysInv(stale, Do(stale, s, trace[0]), trace[1..], k, outcomes);
    }
  }

  // -- Takeovers ----------------------------------------------------------------------------------

  /** No reset of `k` in `log[i..j]`. */
  ghost predicate Unreset(log: seq<Entry>, k: Key, i: int, j: int) {
    forall n :: 0 <= n < |log| && i <= n < j ==> log[n] != WasReset(k)
  }

  /** Two grants of `k` without a reset between them are more than the bound apart. */
  ghost predicate GrantsApart(stale: Time, log: seq<Entry>, k: Key) {
    forall i, j :: 0 <= i < j < |log| && IsGrantOf(log[i], k) && IsGrantOf(log[j], k) && Unreset(log, k, i, j) ==>
      log[j].at - log[i].at > stale
  }

  /** A grant not followed by a reset is no later than the last one. */
  lemma {:induction false} LastIsLatest(stale: Time, log: seq<Entry>, k: Key, i: nat)
    requires stale > 0 && Spaced(stale, log, k) && i < |log| && IsGrantOf(log[i], k) && Unreset(log, k, i, |log|)
    ensures LastGrant(log, k).Some? && log[i].at <= LastGrant(log, k).value
    decreases |log|
  {
    var n := |log| - 1;
    if i < n {
      assert forall m :: 0 <= m < n ==> log[..n][m] == log[m];
      assert log[n] != WasReset(k);
      LastIsLatest(stale, log[..n], k, i);
    }
  }

  lemma {:induction false} SpacedIsApart(stale: Time, log: seq<Entry>, k: Key)
    requires stale > 0 && Spaced(stale, log, k)
    ensures GrantsApart(stale, log, k)
    decreases |log|
  {
    if log != [] {
      var n := |log| - 1;
      var front := log[..n];
      SpacedIsApart(stale, front, k);
      forall i, j | 0 <= i < j < |log| && IsGrantOf(log[i], k) && IsGrantOf(log[j], k) && Unreset(log, k, i, j)
        ensures log[j].at - log[i].at > stale
      {
        assert forall m :: 0 <= m < n ==> front[m] == log[m];
        if j < n {
          assert Unreset(front, k, i, j);
        } else {
          LastIsLatest(stale, front, k, i);
        }
      }
    }
  }

  /** Over every run with a monotone clock, in which calls may stall between reading the clock
      and running their statements, two grants of a firing without a reset between them are more
      than the stale bound apart, as long as nobody records the outcome "running" for it. */
  lemma NoEarlyTakeover(stale: Time, s0: State, trace: seq<Action>, k: Key, outcomes: set<Status>)
    requires stale > 0 && Init(s0) && Run(stale, s0, trace).Some?
    requires AllRecord(trace, k, outcomes) && Running !in outcomes
    ensures GrantsApart(stale, Run(stale, s0, trace).value.log, k)
  {
    AlwaysInv(stale, s0, trace, k, outcomes);
    SpacedIsApart(stale, Run(stale, s0, trace).value.log, k);
  }

  ghost predicate TakeoverSafe(stale: Time, trace: seq<Action>, k: Key, outcomes: set<Status>) {
    AllRecord(trace, k, outcomes) && Run(stale, ZERO, trace).Some? ==> GrantsApart(stale, Run(stale, ZERO, trace).value.log, k)
  }

  const ZERO := State(0, map[], map[], [])

  /** The claim of host `p` from its call to its second statement. */
  function Claims(p: Pid, k: Key): seq<Action> { [BeginCalled(p, k, ""), Executes(p), Executes(p)] }

  /** A finish that stalls past a takeover and records "running": the row it back-dates is taken
      over at once. */
  function StalledFinish(stale: nat, k: Key): seq<Action> {
    [BeginCalled(0, k, "a"), Executes(0), FinishCalled(1, k, Running), Tick(stale + 1)]
    + Claims(2, k) + [Executes(1)] + Claims(3, k)
  }

  lemma {:induction false} RunConcat(stale: Time, s: State, a: seq<Action>, b: seq<Action>)
    requires Run(stale, s, a).Some?
    ensures Run(stale, s, a + b) == Run(stale, Run(stale, s, a).value, b)
    decreases |a|
  {
    if a == [] {
      assert a + b == b;
    } else {
      assert (a + b)[1..] == a[1..] + b;
      RunConcat(stale, Do(stale, s, a[0]), a[1..], b);
    }
  }

  lemma RunFour(stale: Time, s: State, a: Action, b: Action, c: Action, d: Action)
    requires Enabled(s, a) && Enabled(Do(stale, s, a), b) && Enabled(Do(stale, Do(stale, s, a), b), c)
    requires Enabled(Do(stale, Do(stale, Do(stale, s, a), b), c), d)
    ensures Run(stale, s, [a, b, c, d]) == Some(Do(stale, Do(stale, Do(stale, Do(stale, s, a), b), c), d))
  {
    assert [a, b, c, d][1..] == [b, c, d] && [b, c, d][1..] == [c, d] && [c, d][1..] == [d] && [d][1..] == [];
    var s1 := Do(stale, s, a);
    var s2 := Do(stale, s1, b);
    var s3 := Do(stale, s2, c);
    calc {
      Run(stale, s, [a, b, c, d]);
      Run(stale, s1, [b, c, d]);
      Run(stale, s2, [c, d]);
      Run(stale, s3, [d]);
      Run(stale, Do(stale, s3, d), []);
    }
  }

  /** A claim of a row that can be taken over is granted, with the time of its call. */
  lemma ClaimGranted(stale: Time, s: State, p: Pid, k: Key)
    requires p !in s.calls && k in s.rows && Reclaimable(s.rows[k], s.clock, stale)
    ensures Run(stale, s, Claims(p, k)) ==
            Some(s.(rows := s.rows[k := Row(Running, "", s.clock)], log := s.log + [Granted(k, s.clock)]))
  {
    var s1 := Do(stale, s, BeginCalled(p, k, ""));
    var s2 := Do(stale, s1, Executes(p));
    var s3 := Do(stale, s2, Executes(p));
    var c := Claims(p, k);
    assert c[1..] == [Executes(p), Executes(p)] && c[1..][1..] == [Executes(p)] && [Executes(p)][1..] == [];
    assert s3.calls == s.calls;
    assert Run(stale, s2, [Executes(p)]) == Run(stale, s3, []);
  }

  lemma GrantThenStall(stale: nat, k: Key)
    ensures Run(stale, ZERO, [BeginCalled(0, k, "a"), Executes(0), FinishCalled(1, k, Running), Tick(stale + 1)]) ==
            Some(State(stale + 1, map[k := Row(Running, "a", 0)], map[1 := Finishing(k, Running, 0)], [Granted(k, 0)]))
  {
    RunFour(stale, ZERO, BeginCalled(0, k, "a"), Executes(0), FinishCalled(1, k, Running), Tick(stale + 1));
    var s1 := Do(stale, ZERO, BeginCalled(0, k, "a"));
    var s2 := Do(stale, s1, Executes(0));
    assert s2.calls == map[] && s2.log == [Granted(k, 0)] && s2.rows == map[k := Row(Running, "a", 0)];
  }

  /** A pending outcome "running" from before the bound makes the firing available at once. */
  lemma BackdatedIsTaken(stale: nat, s: State, k: Key)
    requires 1 in s.calls && s.calls[1] == Finishing(k, Running, 0) && 3 !in s.calls && k in s.rows && s.clock > stale
    ensures Run(stale, s, [Executes(1)] + Claims(3, k)).Some?
    ensures Run(stale, s, [Executes(1)] + Claims(3, k)).value.log == s.log + [Granted(k, s.clock)]
  {
    var s3 := Do(stale, s, Executes(1));
    assert [Executes(1)][1..] == [] && Run(stale, s, [Executes(1)]) == Run(stale, s3, []);
    ClaimGranted(stale, s3, 3, k);
    RunConcat(stale, s, [Executes(1)], Claims(3, k));
  }

  lemma StalledFinishRuns(stale: nat, k: Key)
    requires stale > 0
    ensures Run(stale, ZERO, StalledFinish(stale, k)).Some?
    ensures Run(stale, ZERO, StalledFinish(stale, k)).value.log == [Granted(k, 0), Granted(k, stale + 1), Granted(k, stale + 1)]
  {
    var first := [BeginCalled(0, k, "a"), Executes(0), FinishCalled(1, k, Running), Tick(stale + 1)];
    GrantThenStall(stale, k);
    var s1 := Run(stale, ZERO, first).value;
    ClaimGranted(stale, s1, 2, k);
    var s2 := Run(stale, s1, Claims(2, k)).value;
    BackdatedIsTaken(stale, s2, k);
    RunConcat(stale, s1, Claims(2, k), [Executes(1)] + Claims(3, k));
    RunConcat(stale, ZERO, first, Claims(2, k) + ([Executes(1)] + Claims(3, k)));
    assert StalledFinish(stale, k) == first + (Claims(2, k) + ([Executes(1)] + Claims(3, k)));
  }

  /** Early takeovers are ruled out exactly when "running" is not among the outcomes that are
      recorded for the firing. */
  lemma NoEarlyTakeoverIff(stale: nat, k: Key, outcomes: set<Status>)
    requires stale > 0
    ensures (forall trace :: TakeoverSafe(stale, trace, k, outcomes)) <==> Running !in outcomes
  {
    if Running in outcomes {
      var trace := StalledFinish(stale, k);
      StalledFinishRuns(stale, k);
      var log := Run(stale, ZERO, trace).value.log;
      assert AllRecord(trace, k, outcomes);
      assert IsGrantOf(log[1], k) && IsGrantOf(log[2], k) && Unreset(log, k, 1, 2);
      assert !TakeoverSafe(stale, trace, k, outcomes);
    } else {
      forall trace ensures TakeoverSafe(stale, trace, k, outcomes) {
        if AllRecord(trace, k, outcomes) && Run(stale, ZERO, trace).Some? {
          NoEarlyTakeover(stale, ZERO, trace, k, outcomes);
        }
      }
    }
  }

  // -- Settled firings -------------------------------------------------------------------------------

  /** `k` has been decided, and no pending call can undo that. */
  ghost predicate Settled(s: State, k: Key) {
    && k in s.rows && s.rows[k].status != Running
    && forall p :: p in s.calls && s.calls[p].k == k ==>
         !s.calls[p].Resetting? && (s.calls[p].Finishing? ==> s.calls[p].status != Running)
  }

  ghost predicate NoGrantSince(s: State, s': State, k: Key) {
    s.log <= s'.log && forall i :: |s.log| <= i < |s'.log| ==> !IsGrantOf(s'.log[i], k)
  }

  ghost predicate NoReset(trace: seq<Action>, k: Key) { forall a :: a in trace ==> !(a.ResetCalled? && a.k == k) }

  lemma SettledStep(stale: Time, s: State, a: Action, k: Key, outcomes: set<Status>)
    requires Settled(s, k) && Enabled(s, a) && Records(a, k, outcomes) && Running !in outcomes && !(a.ResetCalled? && a.k == k)
    ensures Settled(Do(stale, s, a), k) && NoGrantSince(s, Do(stale, s, a), k)
  {}

  /** A settled firing stays settled and is never granted until a reset of it is called, unless
      somebody records the outcome "running" for it. */
  lemma {:induction false} SettledNeverGranted(stale: Time, s: State, trace: seq<Action>, k: Key, outcomes: set<Status>)
    requires Settled(s, k) && Run(stale, s, trace).Some? && AllRecord(trace, k, outcomes) && Running !in outcomes
    requires NoReset(trace, k)
    ensures Settled(Run(stale, s, trace).value, k) && NoGrantSince(s, Run(stale, s, trace).value, k)
    decreases |trace|
  {
    if trace != [] {
      var s1 := Do(stale, s, trace[0]);
      assert trace[0] in trace && forall a :: a in trace[1..] ==> a in trace;
      SettledStep(stale, s, trace[0], k, outcomes);
      SettledNeverGranted(stale, s1, trace[1..], k, outcomes);
      NoGrantJoins(s, s1, Run(stale, s, trace).value, k);
    }
  }

  lemma NoGrantJoins(s: State, s1: State, s2: State, k: Key)
    requires NoGrantSince(s, s1, k) && NoGrantSince(s1, s2, k)
    ensures NoGrantSince(s, s2, k)
  {
    forall i | |s.log| <= i < |s2.log| ensures !IsGrantOf(s2.log[i], k) {
      if i < |s1.log| { assert s1.log[i] == s2.log[i]; }
    }
  }

  ghost predicate StaysRefused(stale: Time, s: State, trace: seq<Action>, k: Key, outcomes: set<Status>) {
    AllRecord(trace, k, outcomes) && NoReset(trace, k) && Run(stale, s, trace).Some? ==>
      NoGrantSince(s, Run(stale, s, trace).value, k)
  }

  /** Without a reset a settled firing is never granted exactly when "running" is not among the
      outcomes that are recorded for it. */
  lemma SettledNeverGrantedIff(stale: nat, s: State, k: Key, outcomes: set<Status>)
    requires stale > 0 && Settled(s, k) && s.calls == map[]
    ensures (forall trace :: StaysRefused(stale, s, trace, k, outcomes)) <==> Running !in outcomes
  {
    if Running in outcomes {
      var trace := [FinishCalled(0, k, Running), Executes(0), Tick(stale + 1), Tick(0)] + Claims(0, k);
      ReopenedRuns(stale, s, k);
      assert IsGrantOf(Run(stale, s, trace).value.log[|s.log|], k);
      assert !StaysRefused(stale, s, trace, k, outcomes);
    } else {
      forall trace ensures StaysRefused(stale, s, trace, k, outcomes) {
        if AllRecord(trace, k, outcomes) && NoReset(trace, k) && Run(stale, s, trace).Some? {
          SettledNeverGranted(stale, s, trace, k, outcomes);
        }
      }
    }
  }

  lemma ReopenedRuns(stale: nat, s: State, k: Key)
    requires stale > 0 && k in s.rows && s.calls == map[]
    ensures var r := Run(stale, s, [FinishCalled(0, k, Running), Executes(0), Tick(stale + 1), Tick(0)] + Claims(0, k));
            r.Some? && r.value.log == s.log + [Granted(k, s.clock + stale + 1)]
  {
    var first := [FinishCalled(0, k, Running), Executes(0), Tick(stale + 1), Tick(0)];
    RunFour(stale, s, first[0], first[1], first[2], first[3]);
    var s1 := Run(stale, s, first).value;
    ClaimGranted(stale, s1, 0, k);
    RunConcat(stale, s, first, Claims(0, k));
  }

  /** Finishing is not tied to the claim: a finish that stalls past a takeover settles the
      successor's claim with its own outcome. */
  lemma LateFinishSettlesSuccessor(stale: Time, s: State, p: Pid, q: Pid, k: Key)
    requires p in s.calls && s.calls[p].Finishing? && s.calls[p].k == k && q in s.calls && q != p
    requires s.calls[q].Reclaiming? && s.calls[q].k == k && Grants(stale, s.rows, s.calls[q])
    ensures var s' := Do(stale, Do(stale, s, Executes(q)), Executes(p));
            s'.rows[k] == Row(s.calls[p].status, s.calls[q].request, s.calls[p].now)
  {}

  // -- Resets ------------------------------------------------------------------------------------------

  /** The call is about to finish or reset `k`. */
  predicate Touches(c: Call, k: Key) { (c.Resetting? || c.Finishing?) && c.k == k }

  ghost predicate LeavesAlone(s: State, a: Action, k: Key) {
    a.Executes? && a.p in s.calls ==> !Touches(s.calls[a.p], k)
  }

  ghost predicate AllLeaveAlone(stale: Time, s: State, trace: seq<Action>, k: Key)
    decreases |trace|
  {
    trace == [] ||
    (LeavesAlone(s, trace[0], k) && (Enabled(s, trace[0]) ==> AllLeaveAlone(stale, Do(stale, s, trace[0]), trace[1..], k)))
  }

  lemma RowStep(stale: Time, s: State, a: Action, k: Key)
    requires Enabled(s, a) && k in s.rows && LeavesAlone(s, a, k)
    ensures var s' := Do(stale, s, a);
            s.log <= s'.log && k in s'.rows && (NoGrantSince(s, s', k) ==> s'.rows[k] == s.rows[k])
  {
    var s' := Do(stale, s, a);
    if a.Executes? && Grants(stale, s.rows, s.calls[a.p]) && s.calls[a.p].k == k {
      assert IsGrantOf(s'.log[|s.log|], k);
    }
  }

  lemma {:induction false} LogGrows(stale: Time, s: State, trace: seq<Action>)
    requires Run(stale, s, trace).Some?
    ensures s.log <= Run(stale, s, trace).value.log
    decreases |trace|
  {
    if trace != [] { LogGrows(stale, Do(stale, s, trace[0]), trace[1..]); }
  }

  /** A row stays as it is for as long as its firing is not granted, finished or reset. */
  lemma {:induction false} RowWaits(stale: Time, s: State, trace: seq<Action>, k: Key)
    requires k in s.rows && Run(stale, s, trace).Some? && AllLeaveAlone(stale, s, trace, k)
    requires NoGrantSince(s, Run(stale, s, trace).value, k)
    ensures k in Run(stale, s, trace).value.rows && Run(stale, s, trace).value.rows[k] == s.rows[k]
    decreases |trace|
  {
    if trace != [] {
      var s1, s' := Do(stale, s, trace[0]), Run(stale, s, trace).value;
      RowStep(stale, s, trace[0], k);
      LogGrows(stale, s1, trace[1..]);
      assert forall i :: 0 <= i < |s1.log| ==> s1.log[i] == s'.log[i];
      RowWaits(stale, s1, trace[1..], k);
    }
  }

  /** Whatever the other hosts do meanwhile, a reset firing waits for the first claimant that
      reads the clock after the reset did, and that one gets it. */
  lemma ResetGrantsNext(stale: Time, s: State, r: Pid, trace: seq<Action>, p: Pid)
    requires r in s.calls && Resets(stale, s.rows, s.calls[r])
    requires var k, s1 := s.calls[r].k, Do(stale, s, Executes(r));
             && Run(stale, s1, trace).Some? && AllLeaveAlone(stale, s1, trace, k)
             && var s' := Run(stale, s1, trace).value;
                && NoGrantSince(s1, s', k)
                && p in s'.calls && s'.calls[p].Reclaiming? && s'.calls[p].k == k && s'.calls[p].now >= s.calls[r].now
    ensures var s' := Run(stale, Do(stale, s, Executes(r)), trace).value; Grants(stale, s'.rows, s'.calls[p])
  {
    RowWaits(stale, Do(stale, s, Executes(r)), trace, s.calls[r].k);
  }

  /** What the report calls stranded is exactly what a claim can take over. */
  lemma StrandedIsReclaimable(row: Row, now: Time, stale: Time)
    ensures Stranded(row, now, stale) <==> Reclaimable(row, now, stale)
  {}
}
