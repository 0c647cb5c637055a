/** The replay journal: a ring buffer that stands for "the last N appended". */
module Journal {

  /** The last `n` elements of `s`, or all of it. */
  function LastN<T>(s: seq<T>, n: nat): (r: seq<T>)
    ensures |r| == if |s| <= n then |s| else n
  {
    if |s| <= n then s else s[|s| - n..]
  }

  /** Forgetting before an append is forgetting after it. */
  lemma LastNAppend<T>(s: seq<T>, x: T, n: nat)
    ensures LastN(LastN(s, n) + [x], n) == LastN(s + [x], n)
  {}

  lemma LastNFull<T>(s: seq<T>, x: T)
    requires s != []
    ensures LastN(s + [x], |s|) == s[1..] + [x]
  {}

  /** What was kept, followed by what came after, is one unbroken suffix. */
  lemma LastNThenRest<T>(s: seq<T>, k: nat, n: nat)
    requires k <= |s|
    ensures LastN(s[..k], n) + s[k..] == s[if k <= n then 0 else k - n..]
  {}

  /** Less than twice around, the quotient is zero or one. */
  lemma OnceAround(x: nat, c: nat, q: int, r: nat)
    requires r < c && x < 2 * c && x == q * c + r
    ensures q == if x < c then 0 else 1
  {
    assert q >= 2 ==> q * c >= 2 * c;
    assert q <= -1 ==> q * c <= -1 * c;
  }

  lemma Wrap(start: nat, i: nat, c: nat)
    requires start < c && i <= c
    ensures (start + i) % c == if start + i < c then start + i else start + i - c
  {
    var x := start + i;
    OnceAround(x, c, x / c, x % c);
  }

  /** The `i`-th slot from `start` in a ring of `c`. */
  function Slot(start: nat, i: nat, c: nat): (k: nat)
    requires start < c && i <= c
    ensures k < c && k == if start + i < c then start + i else start + i - c
  {
    Wrap(start, i, c);
    (start + i) % c
  }

  /** What a ring with these slots holds, oldest first. */
  function Unrolled<T>(slots: seq<T>, start: nat, count: nat): seq<T>
    requires count <= |slots| && (slots != [] ==> start < |slots|)
  {
    seq(count, i requires 0 <= i < count => slots[Slot(start, i, |slots|)])
  }

  /** Writing behind the newest adds it. */
  lemma UnrolledPush<T>(slots: seq<T>, start: nat, count: nat, x: T)
    requires start < |slots| && count < |slots|
    ensures var k := Slot(start, count, |slots|);
            Unrolled(slots[k := x], start, count + 1) == Unrolled(slots, start, count) + [x]
  {}

  /** Writing over the oldest of a full ring, and moving on, drops it and adds the new one. */
  lemma UnrolledShift<T>(slots: seq<T>, start: nat, x: T)
    requires start < |slots|
    ensures var c := |slots|;
            Unrolled(slots[start := x], Slot(start, 1, c), c) == Unrolled(slots, start, c)[1..] + [x]
  {
    var c := |slots|;
    var next := Slot(start, 1, c);
    forall i | 0 <= i < c
      ensures Unrolled(slots[start := x], next, c)[i] == (Unrolled(slots, start, c)[1..] + [x])[i]
    {
      if i < c - 1 { assert Slot(next, i, c) == Slot(start, i + 1, c) != start; } else { assert Slot(next, i, c) == start; }
    }
  }

  class Ring<T(0)> {
    const buf: array<T>
    var start: nat
    var count: nat

    ghost predicate Valid()
      reads this
    {
      count <= buf.Length && (if buf.Length == 0 then start == 0 else start < buf.Length)
    }

    ghost function Contents(): seq<T>
      reads this, buf
      requires Valid()
    {
      Unrolled(buf[..], start, count)
    }

    constructor (capacity: nat)
      ensures Valid() && fresh(buf) && buf.Length == capacity && Contents() == []
    {
      buf := new T[capacity];
      start, count := 0, 0;
    }

    method Append(x: T)
      requires Valid()
      modifies this, buf
      ensures Valid()
      ensures Contents() == LastN(old(Contents()) + [x], buf.Length)
    {
      var c := buf.Length;
      ghost var slots, before := buf[..], Contents();
      if c == 0 { return; }
      if count < c {
        UnrolledPush(slots, start, count, x);
        var k := Slot(start, count, c);
        buf[k] := x;
        assert buf[..] == slots[k := x];
        count := count + 1;
      } else {
        UnrolledShift(slots, start, x);
        LastNFull(before, x);
        buf[start] := x;
        assert buf[..] == slots[start := x];
        start := Slot(start, 1, c);
      }
    }

    method Snapshot() returns (out: seq<T>)
      requires Valid()
      ensures out == Contents()
    {
      var c := buf.Length;
      out := [];
      for i := 0 to count
        invariant out == Contents()[..i]
      {
        out := out + [buf[Slot(start, i, c)]];
      }
    }
  }
}
