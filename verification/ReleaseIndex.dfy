/** Publishing worker builds: immutable objects first, then a compare-and-swap merge
    into the shared release index, with any number of publishers at once. */
module ReleaseIndex {
  import opened Options

  type Pid = nat

  /** The metadata of one build; `details` is everything besides its identity. */
  datatype Build = Build(version: string, platform: string, details: string)

  /** The content of `index.json`: a schema-1 list of builds, or anything else. */
  datatype Doc = Index(builds: seq<Build>) | Unsupported(text: string)

  datatype Content = File(text: string) | Saved(doc: Doc)

  /** The layout of the store: three objects per (version, platform), and history
      objects named by the digest of what they save. */
  datatype Key =
    | ArchiveKey(version: string, platform: string)
    | ChecksumKey(version: string, platform: string)
    | MetadataKey(version: string, platform: string)
    | HistoryKey(digest: string)

  type Digest = Content -> string

  // -- Order and sorting ----------------------------------------------------------

  predicate TextLeq(a: string, b: string) {
    a == [] || (b != [] && (a[0] < b[0] || (a[0] == b[0] && TextLeq(a[1..], b[1..]))))
  }

  predicate BuildLeq(a: Build, b: Build) {
    if a.version == b.version then TextLeq(a.platform, b.platform) else TextLeq(a.version, b.version)
  }

  predicate SameSlot(a: Build, b: Build) { a.version == b.version && a.platform == b.platform }

  ghost predicate Sorted(builds: seq<Build>) {
    forall i, j :: 0 <= i < j < |builds| ==> BuildLeq(builds[i], builds[j])
  }

  /** One entry per (version, platform). */
  ghost predicate OnePerSlot(builds: seq<Build>) {
    forall i, j :: 0 <= i < j < |builds| ==> !SameSlot(builds[i], builds[j])
  }

  lemma {:induction false} TextTotal(a: string, b: string)
    ensures TextLeq(a, b) || TextLeq(b, a)
    ensures TextLeq(a, b) && TextLeq(b, a) ==> a == b
    decreases |a|
  {
    if a != [] && b != [] && a[0] == b[0] {
      TextTotal(a[1..], b[1..]);
      assert a == [a[0]] + a[1..] && b == [b[0]] + b[1..];
    }
  }

  lemma {:induction false} TextTransitive(a: string, b: string, c: string)
    requires TextLeq(a, b) && TextLeq(b, c)
    ensures TextLeq(a, c)
    decreases |a|
  {
    if a != [] && a[0] == b[0] == c[0] { TextTransitive(a[1..], b[1..], c[1..]); }
  }

  lemma BuildTotal(a: Build, b: Build)
    ensures BuildLeq(a, b) || BuildLeq(b, a)
  {
    TextTotal(a.version, b.version);
    TextTotal(a.platform, b.platform);
  }

  lemma BuildTransitive(a: Build, b: Build, c: Build)
    requires BuildLeq(a, b) && BuildLeq(b, c)
    ensures BuildLeq(a, c)
  {
    if a.version == b.version == c.version {
      TextTransitive(a.platform, b.platform, c.platform);
    } else {
      TextTotal(a.version, b.version);
      TextTotal(b.version, c.version);
      if a.version != b.version && b.version != c.version {
        TextTransitive(a.version, b.version, c.version);
        TextTotal(a.version, c.version);
      }
    }
  }

  /** Puts `b` behind everything not greater than it, which keeps a sort stable. */
  function Place(sorted: seq<Build>, b: Build): seq<Build> {
    if sorted == [] then [b]
    else
      var n := |sorted| - 1;
      if BuildLeq(sorted[n], b) then sorted + [b] else Place(sorted[..n], b) + [sorted[n]]
  }

  function SortBuilds(builds: seq<Build>): seq<Build> {
    if builds == [] then [] else Place(SortBuilds(builds[..|builds| - 1]), builds[|builds| - 1])
  }

  lemma {:induction false} PlaceSorts(sorted: seq<Build>, b: Build)
    requires Sorted(sorted)
    ensures Sorted(Place(sorted, b)) && multiset(Place(sorted, b)) == multiset(sorted) + multiset{b}
    decreases |sorted|
  {
    if sorted != [] {
      var n := |sorted| - 1;
      var last := sorted[n];
      assert sorted == sorted[..n] + [last];
      if BuildLeq(last, b) {
        forall i | 0 <= i < n ensures BuildLeq(sorted[i], b) { BuildTransitive(sorted[i], last, b); }
      } else {
        PlaceSorts(sorted[..n], b);
        BuildTotal(last, b);
        var p := Place(sorted[..n], b);
        forall i | 0 <= i < |p| ensures BuildLeq(p[i], last) {
          assert p[i] in multiset(p);
          assert p[i] == b || p[i] in sorted[..n];
        }
      }
    }
  }

  /** The index is written sorted, with exactly the builds it was given. */
  lemma {:induction false} SortSorts(builds: seq<Build>)
    ensures Sorted(SortBuilds(builds)) && multiset(SortBuilds(builds)) == multiset(builds)
    decreases |builds|
  {
    if builds != [] {
      var n := |builds| - 1;
      SortSorts(builds[..n]);
      PlaceSorts(SortBuilds(builds[..n]), builds[n]);
      assert builds == builds[..n] + [builds[n]];
    }
  }

  // -- One merge ---------------------------------------------------------------------

  datatype Merge = AlreadyThere | Conflict | Merged(doc: Doc)

  function Matching(builds: seq<Build>, meta: Build): seq<Build> {
    if builds == [] then []
    else Matching(builds[..|builds| - 1], meta) + (if SameSlot(builds[|builds| - 1], meta) then [builds[|builds| - 1]] else [])
  }

  /** What publishing `meta` makes of the index it read. */
  function MergeInto(data: Option<Doc>, meta: Build): Merge {
    var doc := if data.None? then Index([]) else data.value;
    if doc.Unsupported? then Conflict
    else
      var matches := Matching(doc.builds, meta);
      if matches == [] then Merged(Index(SortBuilds(doc.builds + [meta])))
      else if matches == [meta] then AlreadyThere
      else Conflict
  }

  lemma {:induction false} MatchingNone(builds: seq<Build>, meta: Build)
    ensures Matching(builds, meta) == [] <==> forall b :: b in builds ==> !SameSlot(b, meta)
    decreases |builds|
  {
    if builds != [] {
      var n := |builds| - 1;
      MatchingNone(builds[..n], meta);
      assert builds == builds[..n] + [builds[n]];
    }
  }

  /** A merge adds `meta` and nothing else, loses and alters nothing, and happens only
      when the slot was free. */
  lemma MergeAdds(data: Option<Doc>, meta: Build)
    requires MergeInto(data, meta).Merged?
    ensures var before := if data.Some? then data.value.builds else [];
            var after := MergeInto(data, meta).doc;
            && after.Index? && Sorted(after.builds)
            && multiset(after.builds) == multiset(before) + multiset{meta}
            && (forall b :: b in before ==> !SameSlot(b, meta))
            && (OnePerSlot(before) ==> OnePerSlot(after.builds))
  {
    var before := if data.Some? then data.value.builds else [];
    MatchingNone(before, meta);
    SortSorts(before + [meta]);
    if OnePerSlot(before) {
      assert OnePerSlot(before + [meta]);
      SlotsOfPermutation(before + [meta], SortBuilds(before + [meta]));
    }
  }

  lemma CountTwice(b: seq<Build>, i: nat, j: nat)
    requires i < j < |b| && b[i] == b[j]
    ensures multiset(b)[b[i]] >= 2
  {
    assert b == b[..j] + [b[j]] + b[j + 1..];
    assert b[i] in b[..j];
  }

  lemma CountOnce(a: seq<Build>, x: Build)
    requires OnePerSlot(a)
    ensures multiset(a)[x] <= 1
  {
    if x in a {
      var k :| 0 <= k < |a| && a[k] == x;
      assert a == a[..k] + [a[k]] + a[k + 1..];
      assert x !in a[..k] && x !in a[k + 1..];
    }
  }

  /** One entry per slot is a property of the multiset. */
  lemma SlotsOfPermutation(a: seq<Build>, b: seq<Build>)
    requires OnePerSlot(a) && multiset(a) == multiset(b)
    ensures OnePerSlot(b)
  {
    forall i, j | 0 <= i < j < |b| ensures !SameSlot(b[i], b[j]) {
      CountOnce(a, b[i]);
      if b[i] == b[j] {
        CountTwice(b, i, j);
      } else {
        assert b[i] in multiset(b) && b[j] in multiset(b);
        var k :| 0 <= k < |a| && a[k] == b[i];
        var l :| 0 <= l < |a| && a[l] == b[j];
      }
    }
  }

  /** The body of the retry loop between the read and the swap, as a loop over the index. */
  method ComputeMerge(data: Option<Doc>, meta: Build) returns (r: Merge)
    ensures r == MergeInto(data, meta)
  {
    var doc := if data.None? then Index([]) else data.value;
    if doc.Unsupported? { return Conflict; }
    var matches: seq<Build> := [];
    for i := 0 to |doc.builds|
      invariant matches == Matching(doc.builds[..i], meta)
    {
      assert doc.builds[..i + 1][..i] == doc.builds[..i];
      if SameSlot(doc.builds[i], meta) { matches := matches + [doc.builds[i]]; }
    }
    assert doc.builds[..|doc.builds|] == doc.builds;
    if matches != [] { return if matches == [meta] then AlreadyThere else Conflict; }
    r := Merged(Index(SortBuilds(doc.builds + [meta])));
  }

  // -- The store, as its conditional writes change it ------------------------------------

  datatype Put = Stored | Unchanged | Refused

  /** Storing an object under a key that may already be taken. */
  function PutImmutable(digest: Digest, objects: map<Key, Content>, key: Key, c: Content): Put {
    if key !in objects then Stored else if digest(objects[key]) == digest(c) then Unchanged else Refused
  }

  class Store {
    var objects: map<Key, Content>
    var index: Option<Doc>
    var version: nat             // of the index object: what its ETag identifies

    constructor ()
      ensures objects == map[] && index == None && version == 0
    {
      objects, index, version := map[], None, 0;
    }

    method Immutable(digest: Digest, key: Key, c: Content) returns (r: Put)
      modifies this`objects
      ensures r == PutImmutable(digest, old(objects), key, c)
      ensures objects == if r == Stored then old(objects)[key := c] else old(objects)
    {
      if key !in objects {
        objects := objects[key := c];
        return Stored;
      }
      r := if digest(objects[key]) == digest(c) then Unchanged else Refused;
    }

    method CompareAndSwap(doc: Doc, token: Option<nat>) returns (swapped: bool)
      modifies this`index, this`version
      ensures swapped <==> token == if old(index).Some? then Some(old(version)) else None
      ensures if swapped then index == Some(doc) && version == old(version) + 1
              else index == old(index) && version == old(version)
    {
      swapped := token == if index.Some? then Some(version) else None;
      if swapped {
        index, version := Some(doc), version + 1;
      }
    }
  }

  // -- All publishers together ------------------------------------------------------------

  const MAX_ATTEMPTS := 8

  datatype Phase =
    | Uploading(stored: nat)                                        // objects already stored, of three
    | Reading(attempt: nat)
    | Saving(attempt: nat, data: Option<Doc>, token: Option<nat>, next: Doc)
    | Swapping(attempt: nat, data: Option<Doc>, token: Option<nat>, next: Doc)
    | Finished(ok: bool)

  datatype Publisher = Publisher(meta: Build, files: seq<Content>, phase: Phase)

  datatype State = State(
    objects: map<Key, Content>,
    index: Option<Doc>,
    version: nat,
    pubs: map<Pid, Publisher>)

  /** Publishing starts from no index, or from one an earlier release left in order. */
  ghost predicate Start(digest: Digest, s: State) {
    s.pubs == map[] && StoreWell(digest, s)
  }

  datatype Action =
    | Begin(p: Pid, meta: Build, files: seq<Content>)
    | Upload(p: Pid)
    | ReadIndex(p: Pid)
    | SaveHistory(p: Pid)
    | Swap(p: Pid)
    | Fail(p: Pid)               // any operation may raise an error

  function KeyOf(meta: Build, i: nat): Key {
    if i == 0 then ArchiveKey(meta.version, meta.platform)
    else if i == 1 then ChecksumKey(meta.version, meta.platform)
    else MetadataKey(meta.version, meta.platform)
  }

  predicate Enabled(s: State, a: Action) {
    match a
    case Begin(p, _, files) => p !in s.pubs && |files| == 3
    case Upload(p) => p in s.pubs && s.pubs[p].phase.Uploading? && s.pubs[p].phase.stored < |s.pubs[p].files|
    case ReadIndex(p) => p in s.pubs && s.pubs[p].phase.Reading?
    case SaveHistory(p) => p in s.pubs && s.pubs[p].phase.Saving?
    case Swap(p) => p in s.pubs && s.pubs[p].phase.Swapping?
    case Fail(p) => p in s.pubs && !s.pubs[p].phase.Finished?
  }

  function SetPhase(s: State, p: Pid, phase: Phase): State
    requires p in s.pubs
  {
    s.(pubs := s.pubs[p := s.pubs[p].(phase := phase)])
  }

  function Token(s: State): Option<nat> { if s.index.Some? then Some(s.version) else None }

  /** Stores `c` under `key` for `p`, which goes on to `next` unless the key holds something else. */
  function StoreFor(digest: Digest, s: State, p: Pid, key: Key, c: Content, next: Phase): State
    requires p in s.pubs
  {
    match PutImmutable(digest, s.objects, key, c)
    case Stored => SetPhase(s.(objects := s.objects[key := c]), p, next)
    case Unchanged => SetPhase(s, p, next)
    case Refused => SetPhase(s, p, Finished(false))
  }

  function Do(digest: Digest, s: State, a: Action): State
    requires Enabled(s, a)
  {
    match a
    case Begin(p, meta, files) => s.(pubs := s.pubs[p := Publisher(meta, files, Uploading(0))])
    case Upload(p) =>
      var q := s.pubs[p];
      var n := q.phase.stored;
      StoreFor(digest, s, p, KeyOf(q.meta, n), q.files[n], if n == 2 then Reading(0) else Uploading(n + 1))
    case ReadIndex(p) =>
      var q := s.pubs[p];
      SetPhase(s, p, match MergeInto(s.index, q.meta)
                     case AlreadyThere => Finished(true)
                     case Conflict => Finished(false)
                     case Merged(next) => Saving(q.phase.attempt, s.index, Token(s), next))
    case SaveHistory(p) =>
      var Saving(n, data, token, next) := s.pubs[p].phase;
      if data.None? then SetPhase(s, p, Swapping(n, data, token, next))
      else StoreFor(digest, s, p, HistoryKey(digest(Saved(data.value))), Saved(data.value), Swapping(n, data, token, next))
    case Swap(p) =>
      var Swapping(n, data, token, next) := s.pubs[p].phase;
      if token == Token(s) then SetPhase(s.(index := Some(next), version := s.version + 1), p, Finished(true))
      else SetPhase(s, p, if n + 1 < MAX_ATTEMPTS then Reading(n + 1) else Finished(false))
    case Fail(p) => SetPhase(s, p, Finished(false))
  }

  function Run(digest: Digest, s: State, trace: seq<Action>): Option<State>
    decreases |trace|
  {
    if trace == [] then Some(s)
    else if Enabled(s, trace[0]) then Run(digest, Do(digest, s, trace[0]), trace[1..])
    else None
  }

  // -- What every step keeps ------------------------------------------------------------------

  function BuildsOf(index: Option<Doc>): seq<Build> {
    if index.Some? && index.value.Index? then index.value.builds else []
  }

  /** The three objects of a build are in the store. */
  predicate ObjectsOf(objects: map<Key, Content>, b: Build) {
    KeyOf(b, 0) in objects && KeyOf(b, 1) in objects && KeyOf(b, 2) in objects
  }

  /** The key holds `c`, or something with the same digest. */
  predicate StoredAs(digest: Digest, objects: map<Key, Content>, key: Key, c: Content) {
    key in objects && digest(objects[key]) == digest(c)
  }

  /** The first `n` files of a publication are stored under its build's keys. */
  ghost predicate Uploaded(digest: Digest, objects: map<Key, Content>, q: Publisher, n: nat) {
    n <= |q.files| && forall i :: 0 <= i < n ==> StoredAs(digest, objects, KeyOf(q.meta, i), q.files[i])
  }

  lemma UploadedHasObjects(digest: Digest, objects: map<Key, Content>, q: Publisher)
    requires Uploaded(digest, objects, q, 3)
    ensures ObjectsOf(objects, q.meta)
  {
    assert forall i :: 0 <= i < 3 ==> StoredAs(digest, objects, KeyOf(q.meta, i), q.files[i]);
    assert StoredAs(digest, objects, KeyOf(q.meta, 0), q.files[0]);
    assert StoredAs(digest, objects, KeyOf(q.meta, 1), q.files[1]);
    assert StoredAs(digest, objects, KeyOf(q.meta, 2), q.files[2]);
  }

  ghost predicate HistoryHonest(digest: Digest, objects: map<Key, Content>) {
    forall d :: HistoryKey(d) in objects ==> digest(objects[HistoryKey(d)]) == d
  }

  /** What a publisher knows: its files are stored once it leaves the upload, and what it
      read is still the index whenever its token is still current. */
  ghost predicate PublisherWell(digest: Digest, s: State, q: Publisher) {
    && |q.files| == 3
    && match q.phase
       case Uploading(n) => n <= 2 && Uploaded(digest, s.objects, q, n)
       case Reading(_) => Uploaded(digest, s.objects, q, 3)
       case Saving(_, data, token, next) =>
         Uploaded(digest, s.objects, q, 3) && Snapshot(s, q.meta, data, token, next)
       case Swapping(_, data, token, next) =>
         && Uploaded(digest, s.objects, q, 3) && Snapshot(s, q.meta, data, token, next)
         && (data.Some? ==> HistoryKey(digest(Saved(data.value))) in s.objects)
       case Finished(ok) => ok ==> Uploaded(digest, s.objects, q, 3)
  }

  ghost predicate Snapshot(s: State, meta: Build, data: Option<Doc>, token: Option<nat>, next: Doc) {
    && MergeInto(data, meta) == Merged(next)
    && (token.Some? <==> data.Some?) && (token.Some? ==> token.value <= s.version)
    && (token == Token(s) ==> data == s.index)
  }

  /** The store keeps one sorted entry per slot, for builds whose objects are there. */
  ghost predicate StoreWell(digest: Digest, s: State) {
    && HistoryHonest(digest, s.objects)
    && (s.index.Some? ==> s.index.value.Index?) && Sorted(BuildsOf(s.index)) && OnePerSlot(BuildsOf(s.index))
    && forall b :: b in BuildsOf(s.index) ==> ObjectsOf(s.objects, b)
  }

  ghost predicate Inv(digest: Digest, s: State) {
    StoreWell(digest, s) && forall p :: p in s.pubs ==> PublisherWell(digest, s, s.pubs[p])
  }

  /** What one step may do to the store: objects stay as they are, and the index changes only
      by a merge, the replaced content being in the history already. */
  ghost predicate Grows(digest: Digest, s: State, s': State) {
    && Keeps(s, s') && multiset(BuildsOf(s.index)) <= multiset(BuildsOf(s'.index))
    && (s.index.Some? && s'.index != s.index ==> InHistory(digest, s'.objects, s.index.value))
  }

  ghost predicate InHistory(digest: Digest, objects: map<Key, Content>, doc: Doc) {
    var k := HistoryKey(digest(Saved(doc)));
    k in objects && digest(objects[k]) == digest(Saved(doc))
  }

  lemma GrowsStep(digest: Digest, s: State, a: Action)
    requires Inv(digest, s) && Enabled(s, a)
    ensures Grows(digest, s, Do(digest, s, a))
  {
    if a.Swap? { SwapGrows(digest, s, a.p); } else { ObjectsGrow(digest, s, a); }
  }

  lemma ObjectsGrow(digest: Digest, s: State, a: Action)
    requires Enabled(s, a) && !a.Swap?
    ensures Grows(digest, s, Do(digest, s, a))
  {
    assert Do(digest, s, a).index == s.index;
  }

  lemma SwapGrows(digest: Digest, s: State, p: Pid)
    requires Inv(digest, s) && Enabled(s, Swap(p))
    ensures Grows(digest, s, Do(digest, s, Swap(p)))
  {
    if s.pubs[p].phase.token == Token(s) {
      MergeAdds(s.index, s.pubs[p].meta);
      assert PublisherWell(digest, s, s.pubs[p]);
    }
  }

  /** Storing an object leaves the index in order, as long as history keys are digests. */
  lemma StoreForKeeps(digest: Digest, s: State, p: Pid, key: Key, c: Content, next: Phase)
    requires StoreWell(digest, s) && p in s.pubs && (key.HistoryKey? ==> key == HistoryKey(digest(c)))
    ensures StoreWell(digest, StoreFor(digest, s, p, key, c, next))
  {}

  lemma SwapKeeps(digest: Digest, s: State, p: Pid)
    requires Inv(digest, s) && Enabled(s, Swap(p)) && s.pubs[p].phase.token == Token(s)
    ensures StoreWell(digest, Do(digest, s, Swap(p)))
  {
    var s' := Do(digest, s, Swap(p));
    var meta := s.pubs[p].meta;
    assert PublisherWell(digest, s, s.pubs[p]);
    UploadedHasObjects(digest, s.objects, s.pubs[p]);
    MergeAdds(s.index, meta);
    forall b | b in BuildsOf(s'.index) ensures ObjectsOf(s'.objects, b) {
      assert b in multiset(BuildsOf(s'.index));
      assert b == meta || b in BuildsOf(s.index);
    }
  }

  lemma StoreStep(digest: Digest, s: State, a: Action)
    requires Inv(digest, s) && Enabled(s, a)
    ensures StoreWell(digest, Do(digest, s, a))
  {
    match a
    case Upload(p) =>
      var q := s.pubs[p];
      var n := q.phase.stored;
      StoreForKeeps(digest, s, p, KeyOf(q.meta, n), q.files[n], if n == 2 then Reading(0) else Uploading(n + 1));
    case SaveHistory(p) =>
      var Saving(n, data, token, next) := s.pubs[p].phase;
      if data.Some? {
        var c := Saved(data.value);
        StoreForKeeps(digest, s, p, HistoryKey(digest(c)), c, Swapping(n, data, token, next));
      }
    case Swap(p) => if s.pubs[p].phase.token == Token(s) { SwapKeeps(digest, s, p); }
    case _ =>
  }

  /** What a publisher knows survives the steps of the others. */
  lemma KnowledgeKept(digest: Digest, s: State, s': State, q: Publisher)
    requires PublisherWell(digest, s, q)
    requires Keeps(s, s')
    requires || (s'.index == s.index && s'.version == s.version)
             || (s'.index.Some? && s'.version == s.version + 1)
    ensures PublisherWell(digest, s', q)
  {
    forall n | Uploaded(digest, s.objects, q, n) ensures Uploaded(digest, s'.objects, q, n) {
      UploadedKept(digest, s, s', q, n);
    }
  }

  /** Objects stay as they are. */
  ghost predicate Keeps(s: State, s': State) {
    s.objects.Keys <= s'.objects.Keys && forall k :: k in s.objects ==> s'.objects[k] == s.objects[k]
  }

  lemma UploadedKept(digest: Digest, s: State, s': State, q: Publisher, n: nat)
    requires Keeps(s, s') && Uploaded(digest, s.objects, q, n)
    ensures Uploaded(digest, s'.objects, q, n)
  {
    forall i | 0 <= i < n ensures StoredAs(digest, s'.objects, KeyOf(q.meta, i), q.files[i]) {
      assert StoredAs(digest, s.objects, KeyOf(q.meta, i), q.files[i]);
    }
  }

  lemma ObjectsKept(digest: Digest, s: State, a: Action)
    requires Enabled(s, a)
    ensures Keeps(s, Do(digest, s, a))
  {}

  lemma PublisherStep(digest: Digest, s: State, a: Action, p: Pid)
    requires Inv(digest, s) && Enabled(s, a) && p in Do(digest, s, a).pubs
    ensures PublisherWell(digest, Do(digest, s, a), Do(digest, s, a).pubs[p])
  {
    var s' := Do(digest, s, a);
    if p == a.p {
      if !a.Begin? { OwnStep(digest, s, a); }
    } else {
      ObjectsKept(digest, s, a);
      KnowledgeKept(digest, s, s', s.pubs[p]);
    }
  }

  lemma OwnStep(digest: Digest, s: State, a: Action)
    requires Inv(digest, s) && Enabled(s, a) && !a.Begin?
    ensures PublisherWell(digest, Do(digest, s, a), Do(digest, s, a).pubs[a.p])
  {
    assert PublisherWell(digest, s, s.pubs[a.p]);
    match a
    case Upload(p) => OwnUpload(digest, s, p);
    case SaveHistory(p) => OwnSave(digest, s, p);
    case ReadIndex(p) => OwnRead(digest, s, p);
    case Swap(p) => OwnSwap(digest, s, p);
    case Fail(_) =>
  }

  lemma OwnRead(digest: Digest, s: State, p: Pid)
    requires Enabled(s, ReadIndex(p)) && PublisherWell(digest, s, s.pubs[p])
    ensures PublisherWell(digest, Do(digest, s, ReadIndex(p)), Do(digest, s, ReadIndex(p)).pubs[p])
  {
    SamePublisher(digest, s.objects, s.pubs[p], Do(digest, s, ReadIndex(p)).pubs[p]);
  }

  lemma OwnSwap(digest: Digest, s: State, p: Pid)
    requires Enabled(s, Swap(p)) && PublisherWell(digest, s, s.pubs[p])
    ensures PublisherWell(digest, Do(digest, s, Swap(p)), Do(digest, s, Swap(p)).pubs[p])
  {
    SamePublisher(digest, s.objects, s.pubs[p], Do(digest, s, Swap(p)).pubs[p]);
  }

  lemma OwnUpload(digest: Digest, s: State, p: Pid)
    requires Enabled(s, Upload(p)) && PublisherWell(digest, s, s.pubs[p])
    ensures PublisherWell(digest, Do(digest, s, Upload(p)), Do(digest, s, Upload(p)).pubs[p])
  {
    var s', q := Do(digest, s, Upload(p)), s.pubs[p];
    var n := q.phase.stored;
    ObjectsKept(digest, s, Upload(p));
    UploadedKept(digest, s, s', q, n);
    if s'.pubs[p].phase != Finished(false) {
      assert StoredAs(digest, s'.objects, KeyOf(q.meta, n), q.files[n]);
      UploadedOneMore(digest, s'.objects, q, s'.pubs[p], n);
    }
  }

  lemma UploadedOneMore(digest: Digest, objects: map<Key, Content>, q: Publisher, q': Publisher, n: nat)
    requires q'.meta == q.meta && q'.files == q.files && n < |q.files|
    requires Uploaded(digest, objects, q, n) && StoredAs(digest, objects, KeyOf(q.meta, n), q.files[n])
    ensures Uploaded(digest, objects, q', n + 1)
  {
    forall i | 0 <= i < n + 1 ensures StoredAs(digest, objects, KeyOf(q'.meta, i), q'.files[i]) {
      if i < n { assert StoredAs(digest, objects, KeyOf(q.meta, i), q.files[i]); }
    }
  }

  lemma OwnSave(digest: Digest, s: State, p: Pid)
    requires Enabled(s, SaveHistory(p)) && PublisherWell(digest, s, s.pubs[p])
    ensures PublisherWell(digest, Do(digest, s, SaveHistory(p)), Do(digest, s, SaveHistory(p)).pubs[p])
  {
    var s' := Do(digest, s, SaveHistory(p));
    ObjectsKept(digest, s, SaveHistory(p));
    UploadedKept(digest, s, s', s.pubs[p], 3);
    SamePublisher(digest, s'.objects, s.pubs[p], s'.pubs[p]);
  }

  lemma SamePublisher(digest: Digest, objects: map<Key, Content>, q: Publisher, q': Publisher)
    requires q'.meta == q.meta && q'.files == q.files && Uploaded(digest, objects, q, 3)
    ensures Uploaded(digest, objects, q', 3)
  {
    forall i | 0 <= i < 3 ensures StoredAs(digest, objects, KeyOf(q'.meta, i), q'.files[i]) {
      assert StoredAs(digest, objects, KeyOf(q.meta, i), q.files[i]);
    }
  }

  lemma InvStep(digest: Digest, s: State, a: Action)
    requires Inv(digest, s) && Enabled(s, a)
    ensures Inv(digest, Do(digest, s, a))
  {
    StoreStep(digest, s, a);
    forall p | p in Do(digest, s, a).pubs ensures PublisherWell(digest, Do(digest, s, a), Do(digest, s, a).pubs[p]) {
      PublisherStep(digest, s, a, p);
    }
  }

  lemma {:induction false} AlwaysInv(digest: Digest, s: State, trace: seq<Action>)
    requires Inv(digest, s) && Run(digest, s, trace).Some?
    ensures Inv(digest, Run(digest, s, trace).value)
    decreases |trace|
  {
    if trace != [] {
      InvStep(digest, s, trace[0]);
      AlwaysInv(digest, Do(digest, s, trace[0]), trace[1..]);
    }
  }

  // -- What publishing promises --------------------------------------------------------------------

  /** At every point of every interleaving the index has one entry per (version, platform), in
      order, each for a build whose three objects are stored. */
  lemma IndexAlwaysWell(digest: Digest, s0: State, trace: seq<Action>)
    requires Start(digest, s0) && Run(digest, s0, trace).Some?
    ensures StoreWell(digest, Run(digest, s0, trace).value)
  {
    AlwaysInv(digest, s0, trace);
  }

  /** `b` was in the index already, or some publication of it has all its files in the store. */
  ghost predicate Accounted(digest: Digest, start: seq<Build>, s: State, b: Build) {
    b in start || exists p :: p in s.pubs && s.pubs[p].meta == b && Uploaded(digest, s.objects, s.pubs[p], 3)
  }

  /** Every indexed build that was not there at the start belongs to a publication, and under its
      three keys the store holds exactly that publication's files, up to their digests. */
  lemma IndexedHasItsFiles(digest: Digest, s0: State, trace: seq<Action>, b: Build)
    requires Start(digest, s0) && Run(digest, s0, trace).Some?
    requires b in BuildsOf(Run(digest, s0, trace).value.index)
    ensures Accounted(digest, BuildsOf(s0.index), Run(digest, s0, trace).value, b)
  {
    AllAccounted(digest, BuildsOf(s0.index), s0, trace);
  }

  lemma {:induction false} AllAccounted(digest: Digest, start: seq<Build>, s: State, trace: seq<Action>)
    requires Inv(digest, s) && Run(digest, s, trace).Some?
    requires forall b :: b in BuildsOf(s.index) ==> Accounted(digest, start, s, b)
    ensures forall b :: b in BuildsOf(Run(digest, s, trace).value.index) ==>
                        Accounted(digest, start, Run(digest, s, trace).value, b)
    decreases |trace|
  {
    if trace != [] {
      var s1 := Do(digest, s, trace[0]);
      InvStep(digest, s, trace[0]);
      forall b | b in BuildsOf(s1.index) ensures Accounted(digest, start, s1, b) {
        if b in BuildsOf(s.index) { StaysAccounted(digest, start, s, trace[0], b); } else { NewlyAccounted(digest, start, s, trace[0], b); }
      }
      AllAccounted(digest, start, s1, trace[1..]);
    }
  }

  lemma StaysAccounted(digest: Digest, start: seq<Build>, s: State, a: Action, b: Build)
    requires Enabled(s, a) && Accounted(digest, start, s, b)
    ensures Accounted(digest, start, Do(digest, s, a), b)
  {
    if b !in start {
      var s' := Do(digest, s, a);
      var p :| p in s.pubs && s.pubs[p].meta == b && Uploaded(digest, s.objects, s.pubs[p], 3);
      ObjectsKept(digest, s, a);
      UploadedKept(digest, s, s', s.pubs[p], 3);
      PublisherKept(digest, s, a, p);
      SamePublisher(digest, s'.objects, s.pubs[p], s'.pubs[p]);
    }
  }

  lemma PublisherKept(digest: Digest, s: State, a: Action, p: Pid)
    requires Enabled(s, a) && p in s.pubs
    ensures var s' := Do(digest, s, a); p in s'.pubs && s'.pubs[p].meta == s.pubs[p].meta && s'.pubs[p].files == s.pubs[p].files
  {}

  lemma NewlyAccounted(digest: Digest, start: seq<Build>, s: State, a: Action, b: Build)
    requires Inv(digest, s) && Enabled(s, a) && b in BuildsOf(Do(digest, s, a).index) && b !in BuildsOf(s.index)
    ensures Accounted(digest, start, Do(digest, s, a), b)
  {
    var s' := Do(digest, s, a);
    assert a.Swap? && s.pubs[a.p].phase.token == Token(s);
    assert PublisherWell(digest, s, s.pubs[a.p]);
    MergeAdds(s.index, s.pubs[a.p].meta);
    assert b in multiset(BuildsOf(s'.index));
    assert s'.pubs[a.p].meta == b;
    SamePublisher(digest, s.objects, s.pubs[a.p], s'.pubs[a.p]);
  }

  /** Nothing published is ever lost or altered: from any point of a run on, objects keep their
      content and the index keeps every entry, as it is. */
  lemma NothingLost(digest: Digest, s0: State, trace: seq<Action>, more: seq<Action>)
    requires Start(digest, s0) && Run(digest, s0, trace).Some?
    requires Run(digest, Run(digest, s0, trace).value, more).Some?
    ensures var s := Run(digest, s0, trace).value; var s' := Run(digest, s, more).value;
            Keeps(s, s') && multiset(BuildsOf(s.index)) <= multiset(BuildsOf(s'.index))
  {
    AlwaysInv(digest, s0, trace);
    NothingLostFrom(digest, Run(digest, s0, trace).value, more);
  }

  lemma {:induction false} NothingLostFrom(digest: Digest, s: State, trace: seq<Action>)
    requires Inv(digest, s) && Run(digest, s, trace).Some?
    ensures var s' := Run(digest, s, trace).value;
            Keeps(s, s') && multiset(BuildsOf(s.index)) <= multiset(BuildsOf(s'.index))
    decreases |trace|
  {
    if trace != [] {
      GrowsStep(digest, s, trace[0]);
      InvStep(digest, s, trace[0]);
      NothingLostFrom(digest, Do(digest, s, trace[0]), trace[1..]);
    }
  }

  /** When an index is replaced, it is already in the history under its own digest; with a
      digest that tells contents apart, it is there word for word. */
  lemma ReplacedIndexIsInHistory(digest: Digest, s0: State, trace: seq<Action>, a: Action)
    requires Start(digest, s0) && Run(digest, s0, trace).Some? && Enabled(Run(digest, s0, trace).value, a)
    requires var s := Run(digest, s0, trace).value; s.index.Some? && Do(digest, s, a).index != s.index
    ensures var s := Run(digest, s0, trace).value; var replaced := Saved(s.index.value);
            && HistoryKey(digest(replaced)) in s.objects
            && digest(s.objects[HistoryKey(digest(replaced))]) == digest(replaced)
            && ((forall c: Content, d: Content :: digest(c) == digest(d) ==> c == d) ==>
                  s.objects[HistoryKey(digest(replaced))] == replaced)
  {
    var s := Run(digest, s0, trace).value;
    AlwaysInv(digest, s0, trace);
    assert PublisherWell(digest, s, s.pubs[a.p]);
  }

  /** A publication that reports success has its build in the index and its files in the store. */
  lemma SuccessIsIndexed(digest: Digest, s0: State, trace: seq<Action>, a: Action, p: Pid)
    requires Start(digest, s0) && Run(digest, s0, trace).Some? && Enabled(Run(digest, s0, trace).value, a)
    requires var s := Run(digest, s0, trace).value;
             p in s.pubs && s.pubs[p].phase != Finished(true) && Do(digest, s, a).pubs[p].phase == Finished(true)
    ensures var s' := Do(digest, Run(digest, s0, trace).value, a);
            s'.pubs[p].meta in BuildsOf(s'.index) && Uploaded(digest, s'.objects, s'.pubs[p], 3)
  {
    var s := Run(digest, s0, trace).value;
    AlwaysInv(digest, s0, trace);
    SuccessStep(digest, s, a, p);
    PublisherKept(digest, s, a, p);
    InvStep(digest, s, a);
    assert PublisherWell(digest, Do(digest, s, a), Do(digest, s, a).pubs[p]);
  }

  lemma SuccessStep(digest: Digest, s: State, a: Action, p: Pid)
    requires Inv(digest, s) && Enabled(s, a) && p in s.pubs
    requires s.pubs[p].phase != Finished(true) && Do(digest, s, a).pubs[p].phase == Finished(true)
    ensures s.pubs[p].meta in BuildsOf(Do(digest, s, a).index)
  {
    FinishingActions(digest, s, a, p);
    if a == ReadIndex(p) { SuccessByReading(digest, s, p); } else { SuccessBySwapping(digest, s, p); }
  }

  lemma FinishingActions(digest: Digest, s: State, a: Action, p: Pid)
    requires Enabled(s, a) && p in s.pubs
    requires s.pubs[p].phase != Finished(true) && Do(digest, s, a).pubs[p].phase == Finished(true)
    ensures a == ReadIndex(p) || a == Swap(p)
    ensures a == ReadIndex(p) ==> Do(digest, s, a).index == s.index
  {}

  lemma SuccessByReading(digest: Digest, s: State, p: Pid)
    requires Enabled(s, ReadIndex(p)) && Do(digest, s, ReadIndex(p)).pubs[p].phase == Finished(true)
    ensures s.pubs[p].meta in BuildsOf(s.index)
  {
    MatchingIn(BuildsOf(s.index), s.pubs[p].meta);
  }

  lemma SuccessBySwapping(digest: Digest, s: State, p: Pid)
    requires Inv(digest, s) && Enabled(s, Swap(p)) && Do(digest, s, Swap(p)).pubs[p].phase == Finished(true)
    ensures s.pubs[p].meta in BuildsOf(Do(digest, s, Swap(p)).index)
  {
    assert PublisherWell(digest, s, s.pubs[p]);
    MergeAdds(s.index, s.pubs[p].meta);
    assert s.pubs[p].meta in multiset(BuildsOf(Do(digest, s, Swap(p)).index));
  }

  lemma {:induction false} MatchingIn(builds: seq<Build>, meta: Build)
    ensures forall b :: b in Matching(builds, meta) ==> b in builds
    decreases |builds|
  {
    if builds != [] { MatchingIn(builds[..|builds| - 1], meta); }
  }
}
