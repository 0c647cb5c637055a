/** Unpadded base64url, section 5 of RFC 4648, with the decoder's tolerance for line breaks. */
module Base64Url {
  import opened Options

  type byte = x: int | 0 <= x < 0x100
  type sextet = x: int | 0 <= x < 64

  function Letter(v: sextet): char {
    if v < 26 then ('A' as int + v) as char
    else if v < 52 then ('a' as int + v - 26) as char
    else if v < 62 then ('0' as int + v - 52) as char
    else if v == 62 then '-'
    else '_'
  }

  predicate IsLetter(c: char) {
    'A' <= c <= 'Z' || 'a' <= c <= 'z' || '0' <= c <= '9' || c == '-' || c == '_'
  }

  function Digit(c: char): (v: sextet)
    requires IsLetter(c)
  {
    if 'A' <= c <= 'Z' then c as int - 'A' as int
    else if 'a' <= c <= 'z' then c as int - 'a' as int + 26
    else if '0' <= c <= '9' then c as int - '0' as int + 52
    else if c == '-' then 62
    else 63
  }

  /** Three bytes regroup into four sextets; a rest of one or two bytes is filled up with zero bits. */
  function Sextets(b: seq<byte>): seq<sextet> {
    if b == [] then []
    else if |b| == 1 then [b[0] / 4, b[0] % 4 * 16]
    else if |b| == 2 then [b[0] / 4, b[0] % 4 * 16 + b[1] / 16, b[1] % 16 * 4]
    else [b[0] / 4, b[0] % 4 * 16 + b[1] / 16, b[1] % 16 * 4 + b[2] / 64, b[2] % 64] + Sextets(b[3..])
  }

  /** The way back: spare bits at the end are ignored, and only a single sextet left over is an error. */
  function Regroup(v: seq<sextet>): (r: Option<seq<byte>>)
    ensures r.None? <==> |v| % 4 == 1
    ensures r.Some? ==> |r.value| == |v| * 3 / 4
  {
    if v == [] then Some([])
    else if |v| == 1 then None
    else
      var b0: byte := v[0] as int * 4 + v[1] / 16;
      if |v| == 2 then Some([b0])
      else
        var b1: byte := v[1] as int % 16 * 16 + v[2] / 4;
        if |v| == 3 then Some([b0, b1])
        else
          var b2: byte := v[2] as int % 4 * 64 + v[3];
          match Regroup(v[4..])
          case None => None
          case Some(rest) => Some([b0, b1, b2] + rest)
  }

  function Encode(b: seq<byte>): string {
    var v := Sextets(b);
    seq(|v|, i requires 0 <= i < |v| => Letter(v[i]))
  }

  function WithoutLineBreaks(s: string): string {
    if s == "" then ""
    else if s[0] == '\n' || s[0] == '\r' then WithoutLineBreaks(s[1..])
    else [s[0]] + WithoutLineBreaks(s[1..])
  }

  ghost predicate AllLetters(s: string) { forall i :: 0 <= i < |s| ==> IsLetter(s[i]) }

  function Digits(s: string): seq<sextet>
    requires AllLetters(s)
  {
    seq(|s|, i requires 0 <= i < |s| => Digit(s[i]))
  }

  function DecodeLetters(s: string): Option<seq<byte>> {
    if forall i :: 0 <= i < |s| ==> IsLetter(s[i]) then Regroup(Digits(s)) else None
  }

  function Decode(s: string): Option<seq<byte>> { DecodeLetters(WithoutLineBreaks(s)) }

  lemma EncodeIsLetters(b: seq<byte>)
    ensures AllLetters(Encode(b)) && Digits(Encode(b)) == Sextets(b)
  {}

  lemma {:induction false} LettersHaveNoBreaks(s: string)
    requires AllLetters(s)
    ensures WithoutLineBreaks(s) == s
    decreases |s|
  {
    if s != "" {
      LettersHaveNoBreaks(s[1..]);
      assert s == [s[0]] + s[1..];
    }
  }

  /** Three bytes survive the detour over four sextets. */
  lemma BitsSurvive(x: byte, y: byte, z: byte)
    ensures x / 4 * 4 + (x % 4 * 16 + y / 16) / 16 == x
    ensures x / 4 * 4 + (x % 4 * 16) / 16 == x
    ensures (x % 4 * 16 + y / 16) % 16 * 16 + (y % 16 * 4 + z / 64) / 4 == y
    ensures (x % 4 * 16 + y / 16) % 16 * 16 + (y % 16 * 4) / 4 == y
    ensures (y % 16 * 4 + z / 64) % 4 * 64 + z % 64 == z
  {}

  lemma RegroupFour(x: byte, y: byte, z: byte, v: seq<sextet>, rest: seq<byte>)
    requires Regroup(v) == Some(rest)
    ensures Regroup([x / 4, x % 4 * 16 + y / 16, y % 16 * 4 + z / 64, z % 64] + v) == Some([x, y, z] + rest)
  {
    var all: seq<sextet> := [x / 4, x % 4 * 16 + y / 16, y % 16 * 4 + z / 64, z % 64] + v;
    assert all[4..] == v;
    BitsSurvive(x, y, z);
  }

  lemma {:induction false} RegroupSextets(b: seq<byte>)
    ensures Regroup(Sextets(b)) == Some(b)
    decreases |b|
  {
    if |b| >= 3 {
      RegroupSextets(b[3..]);
      RegroupFour(b[0], b[1], b[2], Sextets(b[3..]), b[3..]);
      assert b == [b[0], b[1], b[2]] + b[3..];
    } else if |b| == 2 {
      BitsSurvive(b[0], b[1], 0);
      assert b == [b[0], b[1]];
    } else if |b| == 1 {
      BitsSurvive(b[0], 0, 0);
      assert b == [b[0]];
    }
  }

  /** Decoding an encoding gives the bytes back. */
  lemma RoundTrip(b: seq<byte>)
    ensures Decode(Encode(b)) == Some(b)
  {
    EncodeIsLetters(b);
    LettersHaveNoBreaks(Encode(b));
    RegroupSextets(b);
  }
}
