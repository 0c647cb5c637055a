/** The cooperative file lease. The acquisition lock is a mutex and record writes are
    atomic; between any two steps, also inside the lock, time may pass. */
module Lease {
  import opened Options

  type InstanceId = nat
  type Time = int

  datatype Record = Record(id: InstanceId, renewedAt: Time, ttl: Time) {
    function ExpiresAt(): Time { renewedAt + ttl }
    predicate Expired(now: Time) { now > ExpiresAt() }
  }

  /** The lease file: missing, unreadable, or holding a record. */
  datatype File = Absent | Corrupt | Held(record: Record)

  /** What an acquirer holding the lock at time `now` may do with the file it finds. */
  predicate Takeable(f: File, now: Time) {
    match f
    case Absent => true
    case Corrupt => true
    case Held(cur) => cur.Expired(now)
  }

  predicate OwnedBy(f: File, id: InstanceId) { f.Held? && f.record.id == id }

  // -- The file and a handle on it, as the methods change them -----------------

  datatype Outcome = Won | HeldByAnother | BadTtl

  datatype Renewal = Renewed | Lost | Unreadable

  class LeaseFile {
    var content: File

    constructor (content: File)
      ensures this.content == content
    {
      this.content := content;
    }

    /** Create the file if absent, else take it over if stale, else refuse; all under the lock. */
    method Acquire(id: InstanceId, ttl: Time, now: Time) returns (outcome: Outcome)
      modifies this
      ensures outcome == BadTtl <==> ttl <= 0
      ensures outcome == Won <==> ttl > 0 && Takeable(old(content), now)
      ensures content == if outcome == Won then Held(Record(id, now, ttl)) else old(content)
    {
      if ttl <= 0 { return BadTtl; }
      var rec := Record(id, now, ttl);
      if content == Absent {
        content := Held(rec);
        return Won;
      }
      if content.Held? && !content.record.Expired(now) { return HeldByAnother; }
      content := Held(rec);
      outcome := if content.Held? && content.record.id == id then Won else HeldByAnother;
    }
  }

  class Handle {
    const file: LeaseFile
    var rec: Record

    constructor (file: LeaseFile, rec: Record)
      ensures this.file == file && this.rec == rec
    {
      this.file, this.rec := file, rec;
    }

    /** `checked` and `stamped` are the two readings of the clock. */
    method Renew(checked: Time, stamped: Time) returns (outcome: Renewal)
      modifies this, file
      ensures outcome == Renewed <==> OwnedBy(old(file.content), old(rec.id)) && !old(rec).Expired(checked)
      ensures outcome == Unreadable <==> !old(file.content).Held?
      ensures outcome == Renewed ==> rec == old(rec).(renewedAt := stamped) && file.content == Held(rec)
      ensures outcome != Renewed ==> rec == old(rec) && file.content == old(file.content)
    {
      if !file.content.Held? { return Unreadable; }
      if file.content.record.id != rec.id { return Lost; }
      if rec.Expired(checked) { return Lost; }
      rec := rec.(renewedAt := stamped);
      file.content := Held(rec);
      outcome := Renewed;
    }

    method Release()
      modifies file
      ensures file.content == if OwnedBy(old(file.content), rec.id) then Absent else old(file.content)
    {
      if file.content.Held? && file.content.record.id == rec.id {
        file.content := Absent;
      }
    }
  }

  // -- All instances together ---------------------------------------------------

  /** A handle as its holder sees it; `released` once a release removed the file. */
  datatype Holder = Holder(rec: Record, released: bool)

  /** What the holder of the acquisition lock is in the middle of. */
  datatype Locked =
    | Free
    | Acquiring(rec: Record)
    | Confirming(rec: Record)
    | Renewing(id: InstanceId)
    | Stamping(id: InstanceId)
    | Writing(id: InstanceId)
    | Releasing(id: InstanceId)

  datatype State = State(
    clock: Time,
    file: File,
    lock: Locked,
    holders: map<InstanceId, Holder>,
    used: set<InstanceId>)

  /** Any file may be there at first, even one left by a process no longer running. */
  ghost predicate Init(s: State) {
    s.lock == Free && s.holders == map[] && (s.file.Held? ==> s.file.record.id in s.used)
  }

  datatype Action =
    | Tick(d: nat)
    | AcquireBegins(id: InstanceId, ttl: Time)
    | AcquireCreates
    | AcquireRefused
    | AcquireTakesOver
    | AcquireConfirms
    | RenewBegins(id: InstanceId)
    | RenewFails
    | RenewChecked
    | RenewStamps
    | RenewWrites
    | ReleaseBegins(id: InstanceId)
    | ReleaseEnds

  predicate Enabled(s: State, a: Action) {
    match a
    case Tick(_) => true
    case AcquireBegins(id, ttl) => s.lock == Free && id !in s.used && ttl > 0
    case AcquireCreates => s.lock.Acquiring? && s.file == Absent
    case AcquireRefused => s.lock.Acquiring? && !Takeable(s.file, s.lock.rec.renewedAt)
    case AcquireTakesOver => s.lock.Acquiring? && s.file != Absent && Takeable(s.file, s.lock.rec.renewedAt)
    case AcquireConfirms => s.lock.Confirming?
    case RenewBegins(id) => s.lock == Free && id in s.holders
    case RenewFails =>
      s.lock.Renewing? && s.lock.id in s.holders
      && (!OwnedBy(s.file, s.lock.id) || s.holders[s.lock.id].rec.Expired(s.clock))
    case RenewChecked =>
      s.lock.Renewing? && s.lock.id in s.holders
      && OwnedBy(s.file, s.lock.id) && !s.holders[s.lock.id].rec.Expired(s.clock)
    case RenewStamps => s.lock.Stamping? && s.lock.id in s.holders
    case RenewWrites => s.lock.Writing? && s.lock.id in s.holders
    case ReleaseBegins(id) => s.lock == Free && id in s.holders
    case ReleaseEnds => s.lock.Releasing? && s.lock.id in s.holders
  }

  function Won(s: State, rec: Record): State { s.(holders := s.holders[rec.id := Holder(rec, false)], lock := Free) }

  function Do(s: State, a: Action): State
    requires Enabled(s, a)
  {
    match a
    case Tick(d) => s.(clock := s.clock + d)
    case AcquireBegins(id, ttl) => s.(lock := Acquiring(Record(id, s.clock, ttl)), used := s.used + {id})
    case AcquireCreates => Won(s.(file := Held(s.lock.rec)), s.lock.rec)
    case AcquireRefused => s.(lock := Free)
    case AcquireTakesOver => s.(file := Held(s.lock.rec), lock := Confirming(s.lock.rec))
    case AcquireConfirms => if OwnedBy(s.file, s.lock.rec.id) then Won(s, s.lock.rec) else s.(lock := Free)
    case RenewBegins(id) => s.(lock := Renewing(id))
    case RenewFails => s.(lock := Free)
    case RenewChecked => s.(lock := Stamping(s.lock.id))
    case RenewStamps =>
      var h := s.holders[s.lock.id];
      s.(holders := s.holders[s.lock.id := h.(rec := h.rec.(renewedAt := s.clock))], lock := Writing(s.lock.id))
    case RenewWrites => s.(file := Held(s.holders[s.lock.id].rec), lock := Free)
    case ReleaseBegins(id) => s.(lock := Releasing(id))
    case ReleaseEnds =>
      if OwnedBy(s.file, s.lock.id)
      then s.(file := Absent, lock := Free, holders := s.holders[s.lock.id := s.holders[s.lock.id].(released := true)])
      else s.(lock := Free)
  }

  /** The state after `trace`, started in `s`; none when some step was not possible. */
  function Run(s: State, trace: seq<Action>): Option<State>
    decreases |trace|
  {
    if trace == [] then Some(s)
    else if Enabled(s, trace[0]) then Run(Do(s, trace[0]), trace[1..])
    else None
  }

  // -- What every step keeps -------------------------------------------------------

  /** The holder of `id` has not released and its lease has not lapsed. */
  predicate Live(s: State, id: InstanceId) {
    id in s.holders && !s.holders[id].released && !s.holders[id].rec.Expired(s.clock)
  }

  ghost predicate LockWell(s: State) {
    match s.lock
    case Free => true
    case Acquiring(rec) =>
      rec.id in s.used && rec.id !in s.holders && rec.renewedAt <= s.clock && !OwnedBy(s.file, rec.id)
    case Confirming(rec) => rec.id in s.used && rec.id !in s.holders && s.file == Held(rec)
    case Renewing(id) => id in s.holders
    case Stamping(id) => id in s.holders && OwnedBy(s.file, id)
    case Writing(id) => id in s.holders && OwnedBy(s.file, id)
    case Releasing(id) => id in s.holders
  }

  /** The file and its owner's handle agree, except while the owner writes a renewal. */
  ghost predicate FileMatches(s: State) {
    s.file.Held? && s.file.record.id in s.holders ==>
      var id := s.file.record.id;
      !s.holders[id].released && (s.lock != Writing(id) ==> s.holders[id].rec == s.file.record)
  }

  /** Every live handle owns the file. */
  ghost predicate LiveOwns(s: State) {
    forall id :: Live(s, id) ==> OwnedBy(s.file, id)
  }

  ghost predicate Inv(s: State) {
    && s.holders.Keys <= s.used
    && (forall id :: id in s.holders ==> s.holders[id].rec.id == id)
    && (s.file.Held? ==> s.file.record.id in s.used)
    && LockWell(s) && FileMatches(s) && LiveOwns(s)
  }

  lemma InvStep(s: State, a: Action)
    requires Inv(s) && Enabled(s, a)
    ensures Inv(Do(s, a))
  {
    var s' := Do(s, a);
    forall id | Live(s', id) ensures OwnedBy(s'.file, id) {
      // whoever is live now was live before, renews while owning the file, or just acquired it
      assert Live(s, id) || s.lock == Stamping(id) || !(id in s.holders);
    }
  }

  /** A handle that does not own the file never owns it again, and is never extended. */
  lemma LossStep(s: State, a: Action, id: InstanceId)
    requires Inv(s) && Enabled(s, a) && id in s.holders && !OwnedBy(s.file, id)
    ensures id in Do(s, a).holders && !OwnedBy(Do(s, a).file, id)
    ensures Do(s, a).holders[id].rec == s.holders[id].rec
  {}

  lemma {:induction false} AlwaysInv(s: State, trace: seq<Action>)
    requires Inv(s) && Run(s, trace).Some?
    ensures Inv(Run(s, trace).value)
    decreases |trace|
  {
    if trace != [] {
      InvStep(s, trace[0]);
      AlwaysInv(Do(s, trace[0]), trace[1..]);
    }
  }

  // -- What the lease promises --------------------------------------------------------

  /** At every point of every run at most one handle is live, and, unless its holder is
      in the middle of writing a renewal, the file carries exactly its record. */
  lemma AtMostOneLive(s0: State, trace: seq<Action>, a: InstanceId, b: InstanceId)
    requires Init(s0) && Run(s0, trace).Some?
    requires Live(Run(s0, trace).value, a) && Live(Run(s0, trace).value, b)
    ensures a == b
    ensures var s := Run(s0, trace).value; s.lock != Writing(a) ==> s.file == Held(s.holders[a].rec)
  {
    AlwaysInv(s0, trace);
  }

  /** Once the file is another instance's, or gone, the handle stays without it: in whatever
      follows its lease is never extended and no renewal of it passes its check. */
  lemma NoRenewalAfterTakeover(s0: State, trace: seq<Action>, more: seq<Action>, id: InstanceId)
    requires Init(s0) && Run(s0, trace).Some? && Run(Run(s0, trace).value, more).Some?
    requires id in Run(s0, trace).value.holders && !OwnedBy(Run(s0, trace).value.file, id)
    ensures var s := Run(s0, trace).value; var s' := Run(s, more).value;
            && id in s'.holders && !OwnedBy(s'.file, id)
            && s'.holders[id].rec == s.holders[id].rec
            && s'.lock != Stamping(id) && s'.lock != Writing(id)
  {
    AlwaysInv(s0, trace);
    StaysLost(Run(s0, trace).value, more, id);
  }

  lemma {:induction false} StaysLost(s: State, trace: seq<Action>, id: InstanceId)
    requires Inv(s) && Run(s, trace).Some? && id in s.holders && !OwnedBy(s.file, id)
    ensures var s' := Run(s, trace).value;
            && id in s'.holders && !OwnedBy(s'.file, id)
            && s'.holders[id].rec == s.holders[id].rec
            && s'.lock != Stamping(id) && s'.lock != Writing(id)
    decreases |trace|
  {
    if trace == [] {
      assert LockWell(s);
    } else {
      InvStep(s, trace[0]);
      LossStep(s, trace[0], id);
      StaysLost(Do(s, trace[0]), trace[1..], id);
    }
  }

  /** A takeover always confirms: the record read back is the one written. */
  lemma TakeoverConfirms(s0: State, trace: seq<Action>)
    requires Init(s0) && Run(s0, trace).Some? && Run(s0, trace).value.lock.Confirming?
    ensures var s := Run(s0, trace).value;
            s.lock.rec.id in Do(s, AcquireConfirms).holders
            && forall id :: Live(s, id) ==> id == s.lock.rec.id
  {
    AlwaysInv(s0, trace);
  }
}
