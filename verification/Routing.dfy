/** Choosing a provider and a backend: sticky routing by rendezvous hashing, and the order in
    which the alternatives are tried. */
module Routing {
  import opened Options

  /** A provider; two of them may share an ID. */
  datatype Provider = Provider(id: string, model: string, backends: seq<string>)

  datatype Result<T> = Ok(value: T) | NoSatisfactoryModel | OtherError

  /** The candidate list; an entry may be nil. */
  type Candidates = seq<Option<Provider>>

  datatype Selection = Selection(provider: Provider, backend: string)

  /** What makes two selections the same target. */
  datatype Target = Target(id: string, backend: string)

  function TargetOf(x: Selection): Target { Target(x.provider.id, x.backend) }

  /** A session's hash of a target. Any function will do. */
  type Score = Target -> nat

  function PairsOf(c: Option<Provider>): seq<Selection> {
    if c.None? then []
    else seq(|c.value.backends|, i requires 0 <= i < |c.value.backends| => Selection(c.value, c.value.backends[i]))
  }

  /** All provider-backend pairs, in candidate order. */
  function Pairs(cs: Candidates): seq<Selection> {
    if cs == [] then [] else Pairs(cs[..|cs| - 1]) + PairsOf(cs[|cs| - 1])
  }

  // -- The sticky pick ------------------------------------------------------------------------

  function ScoreAt(score: Score, pairs: seq<Selection>, i: nat): nat
    requires i < |pairs|
  {
    score(TargetOf(pairs[i]))
  }

  /** The pair at `i` has the highest score, and no pair before it has the same. */
  ghost predicate FirstBest(score: Score, pairs: seq<Selection>, i: int) {
    && 0 <= i < |pairs|
    && (forall j :: 0 <= j < |pairs| ==> ScoreAt(score, pairs, j) <= ScoreAt(score, pairs, i))
    && (forall j :: 0 <= j < i ==> ScoreAt(score, pairs, j) < ScoreAt(score, pairs, i))
  }

  lemma FirstBestIsUnique(score: Score, pairs: seq<Selection>, i: int, j: int)
    requires FirstBest(score, pairs, i) && FirstBest(score, pairs, j)
    ensures i == j
  {
    assert ScoreAt(score, pairs, i) == ScoreAt(score, pairs, j);
  }

  /** The position of the pick: the first of the best, or -1 when there is nothing to pick. */
  function Best(score: Score, pairs: seq<Selection>): (i: int)
    ensures if pairs == [] then i == -1 else FirstBest(score, pairs, i)
  {
    if pairs == [] then -1
    else
      var n := |pairs| - 1;
      var i := Best(score, pairs[..n]);
      assert forall j :: 0 <= j < n ==> ScoreAt(score, pairs[..n], j) == ScoreAt(score, pairs, j);
      if i < 0 || ScoreAt(score, pairs, n) > ScoreAt(score, pairs, i) then n else i
  }

  function Pick(score: Score, pairs: seq<Selection>): Result<Selection> {
    var i := Best(score, pairs);
    if i < 0 then NoSatisfactoryModel else Ok(pairs[i])
  }

  lemma PickExtends(score: Score, pairs: seq<Selection>, x: Selection)
    ensures var r := Pick(score, pairs);
            Pick(score, pairs + [x]) ==
            if !r.Ok? || score(TargetOf(x)) > score(TargetOf(r.value)) then Ok(x) else r
  {
    assert (pairs + [x])[..|pairs|] == pairs;
  }

  /** The loop over candidates and backends, for a session key that is not empty. */
  method StickyPick(score: Score, candidates: Candidates) returns (r: Result<Selection>)
    ensures r == Pick(score, Pairs(candidates))
  {
    r := NoSatisfactoryModel;
    for n := 0 to |candidates|
      invariant r == Pick(score, Pairs(candidates[..n]))
    {
      PairsExtend(candidates, n);
      if candidates[n].Some? {
        r := PickAmong(score, candidates[n].value, Pairs(candidates[..n]), r);
      }
    }
    assert candidates[..|candidates|] == candidates;
  }

  lemma PairsExtend(cs: Candidates, n: nat)
    requires n < |cs|
    ensures Pairs(cs[..n + 1]) == if cs[n].None? then Pairs(cs[..n]) else Pairs(cs[..n]) + PairsOf(cs[n])
  {
    assert cs[..n + 1][..n] == cs[..n];
  }

  /** The inner loop: the backends of one more provider compete with the best so far. */
  method PickAmong(score: Score, p: Provider, ghost seen: seq<Selection>, best: Result<Selection>)
      returns (r: Result<Selection>)
    requires best == Pick(score, seen)
    ensures r == Pick(score, seen + PairsOf(Some(p)))
  {
    r := best;
    ghost var mine := PairsOf(Some(p));
    assert seen + mine[..0] == seen;
    for b := 0 to |p.backends|
      invariant r == Pick(score, seen + mine[..b])
    {
      var x := Selection(p, p.backends[b]);
      assert seen + mine[..b + 1] == seen + mine[..b] + [x];
      PickExtends(score, seen + mine[..b], x);
      if !r.Ok? || score(TargetOf(x)) > score(TargetOf(r.value)) { r := Ok(x); }
    }
    assert mine[..|p.backends|] == mine;
  }

  // -- How little a change of candidates disturbs ----------------------------------------------

  /** `small` is what stands at the positions `at` of `big`, in order. */
  ghost predicate Within(small: seq<Selection>, at: seq<nat>, big: seq<Selection>) {
    && |at| == |small|
    && (forall k :: 0 <= k < |at| ==> at[k] < |big| && small[k] == big[at[k]])
    && (forall k, l :: 0 <= k < l < |at| ==> at[k] < at[l])
  }

  /** Dropping pairs other than the pick keeps the pick. */
  lemma DroppingOthersKeepsPick(score: Score, small: seq<Selection>, at: seq<nat>, big: seq<Selection>)
    requires Within(small, at, big) && Best(score, big) in at
    ensures Pick(score, small) == Pick(score, big)
  {
    var k :| 0 <= k < |at| && at[k] == Best(score, big);
    forall l | 0 <= l < |small| ensures ScoreAt(score, small, l) == ScoreAt(score, big, at[l]) {}
    assert FirstBest(score, small, k);
    FirstBestIsUnique(score, small, k, Best(score, small));
  }

  /** Inserting pairs anywhere keeps the pick, or moves it to one of the inserted pairs. */
  lemma InsertingKeepsPickOrTakesOver(score: Score, small: seq<Selection>, at: seq<nat>, big: seq<Selection>)
    requires Within(small, at, big)
    ensures Pick(score, big) == Pick(score, small) || (big != [] && Best(score, big) !in at)
  {
    assert |small| > 0 ==> at[0] < |big|;
    if big != [] && Best(score, big) in at { DroppingOthersKeepsPick(score, small, at, big); }
  }

  lemma Assoc(a: seq<Selection>, b: seq<Selection>, c: seq<Selection>)
    ensures a + b + c == a + (b + c)
  {}

  lemma {:induction false} PairsConcat(a: Candidates, b: Candidates)
    ensures Pairs(a + b) == Pairs(a) + Pairs(b)
    decreases |b|
  {
    if b == [] {
      assert a + b == a;
    } else {
      var n := |b| - 1;
      var last := PairsOf(b[n]);
      calc {
        Pairs(a + b);
        { assert (a + b)[..|a + b| - 1] == a + b[..n]; }
        Pairs(a + b[..n]) + last;
        { PairsConcat(a, b[..n]); }
        Pairs(a) + Pairs(b[..n]) + last;
        { Assoc(Pairs(a), Pairs(b[..n]), last); }
        Pairs(a) + Pairs(b);
      }
    }
  }

  lemma PairsInsert(a: Candidates, c: Option<Provider>, b: Candidates)
    ensures Pairs(a + [c] + b) == Pairs(a) + PairsOf(c) + Pairs(b)
  {
    PairsConcat(a + [c], b);
    assert (a + [c])[..|a|] == a;
  }

  /** A candidate that joins or leaves moves only sessions to or from itself: with it the pick
      is one of its own pairs, or what it is without it. */
  lemma CandidateMovesOnlyItsOwn(score: Score, a: Candidates, c: Option<Provider>, b: Candidates)
    ensures var r := Pick(score, Pairs(a + [c] + b));
            r == Pick(score, Pairs(a + b)) || (r.Ok? && r.value in PairsOf(c))
  {
    PairsConcat(a, b);
    PairsInsert(a, c, b);
    InsertedMoves(score, Pairs(a), PairsOf(c), Pairs(b));
  }

  lemma InsertedMoves(score: Score, a: seq<Selection>, c: seq<Selection>, b: seq<Selection>)
    ensures var r := Pick(score, a + c + b); r == Pick(score, a + b) || (r.Ok? && r.value in c)
  {
    var m, n := |a|, |c|;
    var at := seq(|a + b|, k requires 0 <= k < |a + b| => if k < m then k else k + n);
    InsertingKeepsPickOrTakesOver(score, a + b, at, a + c + b);
    forall k | 0 <= k < m ensures k in at { assert at[k] == k; }
    forall k | m + n <= k < |a + c + b| ensures k in at { assert at[k - n] == k; }
    var i := Best(score, a + c + b);
    assert m <= i < m + n ==> (a + c + b)[i] == c[i - m];
  }

  // -- The order of the alternatives --------------------------------------------------------------

  /** The position of the first pair with the given target, or the length. */
  function FirstWith(pairs: seq<Selection>, t: Target): (i: nat)
    ensures i <= |pairs| && (i < |pairs| ==> TargetOf(pairs[i]) == t)
    ensures forall j :: 0 <= j < i ==> TargetOf(pairs[j]) != t
  {
    if pairs == [] then 0
    else
      var n := |pairs| - 1;
      var i := FirstWith(pairs[..n], t);
      assert forall j :: 0 <= j < n ==> pairs[..n][j] == pairs[j];
      if i < n || TargetOf(pairs[n]) == t then i else n + 1
  }

  /** All pairs in order, but for the first with the given target. */
  function Others(pairs: seq<Selection>, t: Target): seq<Selection> {
    var i := FirstWith(pairs, t);
    if i == |pairs| then pairs else pairs[..i] + pairs[i + 1..]
  }

  predicate Offers(pairs: seq<Selection>, t: Target) { FirstWith(pairs, t) < |pairs| }

  lemma OthersExtend(pairs: seq<Selection>, t: Target, x: Selection)
    ensures Others(pairs + [x], t) ==
            if !Offers(pairs, t) && TargetOf(x) == t then Others(pairs, t) else Others(pairs, t) + [x]
    ensures Offers(pairs + [x], t) <==> Offers(pairs, t) || TargetOf(x) == t
  {
    var all, i := pairs + [x], FirstWith(pairs, t);
    assert all[..|pairs|] == pairs;
    if i < |pairs| {
      assert all[..i] == pairs[..i] && all[i + 1..] == pairs[i + 1..] + [x];
    }
  }

  /** What the loop has listed so far, and whether it has skipped the pick yet. */
  datatype Listing = Listing(selections: seq<Selection>, skipped: bool)

  function ListOne(pick: Selection, l: Listing, x: Selection): Listing {
    if !l.skipped && TargetOf(x) == TargetOf(pick) then l.(skipped := true)
    else l.(selections := l.selections + [x])
  }

  function Listed(pick: Selection, pairs: seq<Selection>): Listing {
    if pairs == [] then Listing([pick], false)
    else ListOne(pick, Listed(pick, pairs[..|pairs| - 1]), pairs[|pairs| - 1])
  }

  lemma {:induction false} ListedIsOthers(pick: Selection, pairs: seq<Selection>)
    ensures Listed(pick, pairs) == Listing([pick] + Others(pairs, TargetOf(pick)), Offers(pairs, TargetOf(pick)))
    decreases |pairs|
  {
    if pairs != [] {
      var n := |pairs| - 1;
      ListedIsOthers(pick, pairs[..n]);
      OthersExtend(pairs[..n], TargetOf(pick), pairs[n]);
      assert pairs[..n] + [pairs[n]] == pairs;
    }
  }

  /** The policy's pick first, then everything else; the pick's own target is skipped once. */
  method OrderSelections(candidates: Candidates, policy: Candidates -> Result<Selection>)
      returns (r: Result<seq<Selection>>)
    ensures match policy(candidates)
            case Ok(pick) => r == Ok([pick] + Others(Pairs(candidates), TargetOf(pick)))
            case NoSatisfactoryModel => r == NoSatisfactoryModel
            case OtherError => r == OtherError
  {
    match policy(candidates)
    case NoSatisfactoryModel => r := NoSatisfactoryModel;
    case OtherError => r := OtherError;
    case Ok(pick) =>
      var l := Listing([pick], false);
      for n := 0 to |candidates|
        invariant l == Listed(pick, Pairs(candidates[..n]))
      {
        PairsExtend(candidates, n);
        if candidates[n].Some? {
          l := ListBackends(candidates[n].value, pick, Pairs(candidates[..n]), l);
        }
      }
      assert candidates[..|candidates|] == candidates;
      ListedIsOthers(pick, Pairs(candidates));
      r := Ok(l.selections);
  }

  /** The inner loop: one more provider's backends behind those already listed. */
  method ListBackends(p: Provider, pick: Selection, ghost seen: seq<Selection>, before: Listing)
      returns (l: Listing)
    requires before == Listed(pick, seen)
    ensures l == Listed(pick, seen + PairsOf(Some(p)))
  {
    l := before;
    ghost var mine := PairsOf(Some(p));
    assert seen + mine[..0] == seen;
    for b := 0 to |p.backends|
      invariant l == Listed(pick, seen + mine[..b])
    {
      var x := Selection(p, p.backends[b]);
      ListedExtend(pick, seen + mine[..b], x);
      assert seen + mine[..b + 1] == seen + mine[..b] + [x];
      if !l.skipped && x.backend == pick.backend && p.id == pick.provider.id {
        l := l.(skipped := true);
      } else {
        l := l.(selections := l.selections + [x]);
      }
    }
    assert mine[..|p.backends|] == mine;
  }

  lemma ListedExtend(pick: Selection, pairs: seq<Selection>, x: Selection)
    ensures Listed(pick, pairs + [x]) == ListOne(pick, Listed(pick, pairs), x)
  {
    assert (pairs + [x])[..|pairs|] == pairs;
  }

  function Targets(pairs: seq<Selection>): seq<Target> {
    seq(|pairs|, i requires 0 <= i < |pairs| => TargetOf(pairs[i]))
  }

  lemma Remove<T>(s: seq<T>, i: nat)
    requires i < |s|
    ensures multiset([s[i]] + (s[..i] + s[i + 1..])) == multiset(s)
  {
    assert s == s[..i] + [s[i]] + s[i + 1..];
  }

  /** Whatever the policy picks among the candidates' targets, the order lists every target as
      often as the candidates offer it. */
  lemma OrderIsPermutation(pairs: seq<Selection>, pick: Selection)
    requires Offers(pairs, TargetOf(pick))
    ensures multiset(Targets([pick] + Others(pairs, TargetOf(pick)))) == multiset(Targets(pairs))
  {
    var t := TargetOf(pick);
    var i := FirstWith(pairs, t);
    Remove(Targets(pairs), i);
    assert Targets([pick] + Others(pairs, t)) == [Targets(pairs)[i]] + (Targets(pairs)[..i] + Targets(pairs)[i + 1..]);
  }

  /** A sticky pick is the very pair that is skipped, so that order rearranges the pairs themselves. */
  lemma StickyOrderIsPermutation(score: Score, pairs: seq<Selection>)
    requires pairs != []
    ensures var pick := Pick(score, pairs);
            pick.Ok? && multiset([pick.value] + Others(pairs, TargetOf(pick.value))) == multiset(pairs)
  {
    var i := Best(score, pairs);
    var j := FirstWith(pairs, TargetOf(pairs[i]));
    assert j < |pairs| ==> ScoreAt(score, pairs, j) == ScoreAt(score, pairs, i);
    assert j == i;
    Remove(pairs, i);
  }
}
