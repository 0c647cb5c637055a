/** Lists kept as one row of the key-value table: every write is a read-modify-write
    transaction, retried while the database is busy. */
module KvList {
  import opened Options

  newtype int64 = x: int | -0x8000_0000_0000_0000 <= x < 0x8000_0000_0000_0000

  type Value = string

  /** The row of one key: a JSON array, or something that is not one. */
  datatype Row = Items(list: seq<Value>) | Garbage

  datatype Failure = NotFound | CorruptData | Busy | Other

  datatype Result<T> = Ok(value: T) | Err(error: Failure)

  /** A missing row reads as the empty list. */
  function Load(row: Option<Row>): Result<seq<Value>> {
    match row
    case None => Ok([])
    case Some(Items(list)) => Ok(list)
    case Some(Garbage) => Err(CorruptData)
  }

  // -- The list operations on a loaded list -----------------------------------------------

  /** The half-open range of positions that `start` and `stop` name, negative ones counting
      from the end: within the list, and holding exactly the positions between the two. */
  function Window(n: nat, start: int, stop: int): (w: (nat, nat))
    ensures w.0 <= w.1 <= n
    ensures forall i :: 0 <= i < n ==> (Named(n, start, stop, i) <==> w.0 <= i < w.1)
  {
    var lo := if start < 0 then (if n + start > 0 then n + start else 0) else start;
    var hi := if stop < 0 then n + stop else if stop >= n then n - 1 else stop;
    if lo > hi || lo >= n then (0, 0) else (lo, hi + 1)
  }

  /** Position `i` lies between the two named positions, both included. */
  predicate Named(n: nat, start: int, stop: int, i: int) { FromEnd(n, start) <= i <= FromEnd(n, stop) }

  function FromEnd(n: nat, k: int): int { if k < 0 then n + k else k }

  function Range(list: seq<Value>, start: int, stop: int): seq<Value> {
    var w := Window(|list|, start, stop);
    list[w.0..w.1]
  }

  /** Trimming and reading everything is reading the range. */
  lemma TrimThenRange(list: seq<Value>, start: int, stop: int)
    ensures Range(Range(list, start, stop), 0, -1) == Range(list, start, stop)
  {
    var r := Range(list, start, stop);
    assert Window(|r|, 0, -1) == if |r| == 0 then (0, 0) else (0, |r|);
  }

  /** `ListRange` in 64-bit arithmetic: no bound of the slice is ever out of range. */
  method SliceRange(list: seq<Value>, start: int64, stop: int64) returns (r: seq<Value>)
    requires |list| < 0x8000_0000_0000_0000
    ensures r == Range(list, start as int, stop as int)
  {
    var n := |list| as int64;
    var lo, hi := start, stop;
    if lo < 0 {
      lo := if n + lo > 0 then n + lo else 0;
    }
    if hi < 0 {
      hi := n + hi;
    } else if hi >= n {
      hi := n - 1;
    }
    if lo > hi || lo >= n { return []; }
    r := list[lo..hi + 1];
  }

  // -- Transactions --------------------------------------------------------------------------

  /** How one attempt at a transaction goes at the database. */
  datatype Attempt = Commits | IsBusy | Breaks

  /** What the body of a transaction does with the row it finds. */
  datatype Body<T> = Save(row: Row, out: T) | Refuse(error: Failure)

  const MAX_ATTEMPTS := 8

  /** Whether the attempts end in a commit: the first that is not busy, among the first eight. */
  predicate Committed(attempts: seq<Attempt>, n: nat)
    requires n <= MAX_ATTEMPTS
    decreases MAX_ATTEMPTS - n
  {
    n < MAX_ATTEMPTS && n < |attempts| &&
    (attempts[n] == Commits || (attempts[n] == IsBusy && Committed(attempts, n + 1)))
  }

  /** `attempts` gives every attempt its outcome; one beyond it breaks off. */
  class Store {
    var row: Option<Row>

    constructor ()
      ensures row == None
    {
      row := None;
    }

    /** `withWriteTx`: however many attempts were busy, the body takes effect once or not at all. */
    method WriteTx<T(0)>(body: Option<Row> -> Body<T>, attempts: seq<Attempt>) returns (r: Result<T>)
      modifies this
      ensures r.Ok? <==> Committed(attempts, 0) && body(old(row)).Save?
      ensures if r.Ok? then row == Some(body(old(row)).row) && r.value == body(old(row)).out else row == old(row)
      ensures Committed(attempts, 0) && body(old(row)).Refuse? ==> r == Err(body(old(row)).error)
    {
      var n := 0;
      r := Err(Busy);
      while n < MAX_ATTEMPTS
        invariant 0 <= n <= MAX_ATTEMPTS && row == old(row) && r.Err?
        invariant Committed(attempts, 0) == Committed(attempts, n)
        decreases MAX_ATTEMPTS - n
      {
        if n >= |attempts| || attempts[n] == Breaks { return Err(Other); }
        if attempts[n] == IsBusy {
          r := Err(Busy);
          n := n + 1;
          continue;
        }
        match body(row) {
          case Refuse(e) => return Err(e);
          case Save(next, out) =>
            row := Some(next);
            return Ok(out);
        }
      }
    }

    method ListPush(v: Value, attempts: seq<Attempt>) returns (r: Result<()>)
      modifies this
      ensures (row, r.Ok?) == PushRow(old(row), v, attempts)
    {
      r := WriteTx(before => PushBody(before, v), attempts);
    }

    method ListRPop(attempts: seq<Attempt>) returns (r: Result<Value>)
      modifies this
      ensures (row, if r.Ok? then Some(r.value) else None) == PopRow(old(row), attempts)
      ensures Committed(attempts, 0) && Load(old(row)) == Ok([]) ==> r == Err(NotFound)
    {
      r := WriteTx(PopBody, attempts);
    }

    method ListTrim(start: int, stop: int, attempts: seq<Attempt>) returns (r: Result<()>)
      modifies this
      ensures Committed(attempts, 0) && Load(old(row)).Ok? ==>
                r.Ok? && row == Some(Items(Range(Load(old(row)).value, start, stop)))
      ensures !(Committed(attempts, 0) && Load(old(row)).Ok?) ==> r.Err? && row == old(row)
    {
      r := WriteTx(before => TrimBody(before, start, stop), attempts);
    }
  }

  function PushBody(row: Option<Row>, v: Value): Body<()> {
    match Load(row)
    case Err(e) => Refuse(e)
    case Ok(list) => Save(Items([v] + list), ())
  }

  function PopBody(row: Option<Row>): Body<Value> {
    match Load(row)
    case Err(e) => Refuse(e)
    case Ok(list) => if list == [] then Refuse(NotFound) else Save(Items(list[..|list| - 1]), list[|list| - 1])
  }

  function TrimBody(row: Option<Row>, start: int, stop: int): Body<()> {
    match Load(row)
    case Err(e) => Refuse(e)
    case Ok(list) => Save(Items(Range(list, start, stop)), ())
  }

  /** The row after a push, and whether it took effect. */
  function PushRow(row: Option<Row>, v: Value, attempts: seq<Attempt>): (Option<Row>, bool) {
    if Committed(attempts, 0) && PushBody(row, v).Save? then (Some(PushBody(row, v).row), true) else (row, false)
  }

  /** The row after a pop, and the popped element. */
  function PopRow(row: Option<Row>, attempts: seq<Attempt>): (Option<Row>, Option<Value>) {
    if Committed(attempts, 0) && PopBody(row).Save? then (Some(PopBody(row).row), Some(PopBody(row).out)) else (row, None)
  }

  // -- Whole runs -------------------------------------------------------------------------------

  datatype Call = Push(v: Value, attempts: seq<Attempt>) | Pop(attempts: seq<Attempt>)

  /** The row, and what the callers were told so far. */
  datatype History = History(row: Option<Row>, pushed: seq<Value>, popped: seq<Value>)

  function Apply(h: History, c: Call): History {
    match c
    case Push(v, attempts) =>
      var (row, done) := PushRow(h.row, v, attempts);
      h.(row := row, pushed := if done then h.pushed + [v] else h.pushed)
    case Pop(attempts) =>
      var (row, got) := PopRow(h.row, attempts);
      h.(row := row, popped := if got.Some? then h.popped + [got.value] else h.popped)
  }

  function Calls(calls: seq<Call>): History {
    if calls == [] then History(None, [], []) else Apply(Calls(calls[..|calls| - 1]), calls[|calls| - 1])
  }

  function Reverse(s: seq<Value>): seq<Value> {
    if s == [] then [] else Reverse(s[1..]) + [s[0]]
  }

  /** What was popped, and what remains, oldest first, is what was pushed. */
  ghost predicate Conserved(h: History) {
    Load(h.row).Ok? && h.popped + Reverse(Load(h.row).value) == h.pushed
  }

  lemma {:induction false} ReverseLast(s: seq<Value>)
    requires s != []
    ensures Reverse(s) == [s[|s| - 1]] + Reverse(s[..|s| - 1])
    decreases |s|
  {
    if |s| > 1 {
      ReverseLast(s[1..]);
      assert s[1..][..|s| - 2] == s[..|s| - 1][1..];
    }
  }

  lemma PushConserves(h: History, v: Value)
    requires Conserved(h)
    ensures var list := Load(h.row).value;
            Conserved(h.(row := Some(Items([v] + list)), pushed := h.pushed + [v]))
  {
    var list := Load(h.row).value;
    assert ([v] + list)[1..] == list;
    assert h.popped + (Reverse(list) + [v]) == h.popped + Reverse(list) + [v];
  }

  lemma PopConserves(h: History)
    requires Conserved(h) && Load(h.row).value != []
    ensures var list := Load(h.row).value; var n := |list| - 1;
            Conserved(h.(row := Some(Items(list[..n])), popped := h.popped + [list[n]]))
  {
    var list := Load(h.row).value;
    var n := |list| - 1;
    ReverseLast(list);
    assert h.popped + ([list[n]] + Reverse(list[..n])) == h.popped + [list[n]] + Reverse(list[..n]);
  }

  /** First in, first out, and nothing lost or doubled: with any pattern of busy and broken
      attempts, what was popped followed by what remains, oldest first, is what was pushed. */
  lemma {:induction false} QueueConserves(calls: seq<Call>)
    ensures Conserved(Calls(calls))
    decreases |calls|
  {
    if calls != [] {
      var n := |calls| - 1;
      QueueConserves(calls[..n]);
      var h := Calls(calls[..n]);
      var list := Load(h.row).value;
      match calls[n]
      case Push(v, _) => PushConserves(h, v);
      case Pop(_) => if list != [] { PopConserves(h); }
    }
  }

  // -- Callers side by side ------------------------------------------------------------------------

  datatype Op = PushOp(v: Value) | PopOp

  /** The transaction body of a call, on the row it has loaded; a pop has an output. */
  function Effect(op: Op, row: Option<Row>): Body<Option<Value>> {
    match op
    case PushOp(v) => (match PushBody(row, v) case Save(next, _) => Save(next, None) case Refuse(e) => Refuse(e))
    case PopOp => (match PopBody(row) case Save(next, out) => Save(next, Some(out)) case Refuse(e) => Refuse(e))
  }

  /** Where one caller stands in `withWriteTx`. It holds the write lock from the no-op update to
      the commit. */
  datatype Tx =
    | Waiting(op: Op, attempt: nat)
    | Locked(op: Op, attempt: nat)
    | Loaded(op: Op, attempt: nat, seen: Option<Row>)
    | Staged(op: Op, attempt: nat, next: Row, out: Option<Value>)
    | Told(op: Op, result: Result<Option<Value>>)

  predicate Holding(t: Tx) { t.Locked? || t.Loaded? || t.Staged? }

  type Pid = nat

  datatype State = State(h: History, lock: Option<Pid>, txs: map<Pid, Tx>)

  const Empty := State(History(None, [], []), None, map[])

  datatype Action =
    | Begins(p: Pid, op: Op)
    | Locks(p: Pid)
    | FindsBusy(p: Pid)            // at the lock or at the commit
    | Loads(p: Pid)
    | RunsBody(p: Pid)
    | TakesEffect(p: Pid)
    | BreaksOff(p: Pid)            // any other error, or the caller's context is done

  predicate Enabled(s: State, a: Action) {
    match a
    case Begins(p, _) => p !in s.txs
    case Locks(p) => p in s.txs && s.txs[p].Waiting? && s.lock == None
    case FindsBusy(p) => p in s.txs && (s.txs[p].Waiting? || s.txs[p].Staged?)
    case Loads(p) => p in s.txs && s.txs[p].Locked?
    case RunsBody(p) => p in s.txs && s.txs[p].Loaded?
    case TakesEffect(p) => p in s.txs && s.txs[p].Staged?
    case BreaksOff(p) => p in s.txs && !s.txs[p].Told?
  }

  /** A rolled-back attempt releases the lock. */
  function Release(s: State, p: Pid): Option<Pid> { if s.lock == Some(p) then None else s.lock }

  function SetTx(s: State, p: Pid, t: Tx): State { s.(txs := s.txs[p := t]) }

  function Do(s: State, a: Action): State
    requires Enabled(s, a)
  {
    match a
    case Begins(p, op) => SetTx(s, p, Waiting(op, 0))
    case Locks(p) => SetTx(s, p, Locked(s.txs[p].op, s.txs[p].attempt)).(lock := Some(p))
    case FindsBusy(p) =>
      var t := s.txs[p];
      SetTx(s, p, if t.attempt + 1 < MAX_ATTEMPTS then Waiting(t.op, t.attempt + 1) else Told(t.op, Err(Busy)))
        .(lock := Release(s, p))
    case Loads(p) => SetTx(s, p, Loaded(s.txs[p].op, s.txs[p].attempt, s.h.row))
    case RunsBody(p) =>
      var t := s.txs[p];
      (match Effect(t.op, t.seen)
       case Save(next, out) => SetTx(s, p, Staged(t.op, t.attempt, next, out))
       case Refuse(e) => SetTx(s, p, Told(t.op, Err(e))).(lock := Release(s, p)))
    case TakesEffect(p) =>
      var t := s.txs[p];
      var h := s.h.(row := Some(t.next),
                    pushed := if t.op.PushOp? then s.h.pushed + [t.op.v] else s.h.pushed,
                    popped := if t.out.Some? then s.h.popped + [t.out.value] else s.h.popped);
      SetTx(s, p, Told(t.op, Ok(t.out))).(lock := Release(s, p), h := h)
    case BreaksOff(p) => SetTx(s, p, Told(s.txs[p].op, Err(Other))).(lock := Release(s, p))
  }

  function Run(s: State, trace: seq<Action>): Option<State>
    decreases |trace|
  {
    if trace == [] then Some(s)
    else if Enabled(s, trace[0]) then Run(Do(s, trace[0]), trace[1..])
    else None
  }

  /** Only the holder of the lock is inside a transaction, and what it has seen and staged is
      what the row still calls for. */
  ghost predicate LockWell(s: State) {
    && (forall p :: p in s.txs && Holding(s.txs[p]) <==> s.lock == Some(p))
    && (forall p :: p in s.txs && s.txs[p].Loaded? ==> s.txs[p].seen == s.h.row)
    && (forall p :: p in s.txs && s.txs[p].Staged? ==> Effect(s.txs[p].op, s.h.row) == Save(s.txs[p].next, s.txs[p].out))
  }

  lemma LockStep(s: State, a: Action)
    requires LockWell(s) && Enabled(s, a)
    ensures LockWell(Do(s, a))
  {}

  lemma ConservedStep(s: State, a: Action)
    requires LockWell(s) && Conserved(s.h) && Enabled(s, a)
    ensures Conserved(Do(s, a).h)
  {
    if a.TakesEffect? {
      match s.txs[a.p].op
      case PushOp(v) => PushConserves(s.h, v);
      case PopOp => PopConserves(s.h);
    }
  }

  lemma {:induction false} AlwaysConserved(s: State, trace: seq<Action>)
    requires LockWell(s) && Conserved(s.h) && Run(s, trace).Some?
    ensures LockWell(Run(s, trace).value) && Conserved(Run(s, trace).value.h)
    decreases |trace|
  {
    if trace != [] {
      LockStep(s, trace[0]);
      ConservedStep(s, trace[0]);
      AlwaysConserved(Do(s, trace[0]), trace[1..]);
    }
  }

  /** Conservation over every interleaving of callers: however their attempts meet, no update
      is lost, no element is popped twice, and the order is kept. */
  lemma ConcurrentQueueConserves(trace: seq<Action>)
    requires Run(Empty, trace).Some?
    ensures Conserved(Run(Empty, trace).value.h)
  {
    AlwaysConserved(Empty, trace);
  }

  /** What a caller is told is what happened: success if and only if its commit took effect. */
  lemma ToldTheTruth(s: State, a: Action, p: Pid)
    requires LockWell(s) && Enabled(s, a) && p in s.txs && !s.txs[p].Told? && Do(s, a).txs[p].Told?
    ensures Do(s, a).txs[p].result.Ok? <==> a == TakesEffect(p)
    ensures Do(s, a).h != s.h ==> Do(s, a).txs[p].result.Ok? && Effect(s.txs[p].op, s.h.row).Save?
  {}
}
