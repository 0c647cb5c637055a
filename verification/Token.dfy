/** Licence tokens: four dot-separated parts, and the armour that wraps them into lines. */
module Token {
  import opened Options
  import opened Text
  import B = Base64Url

  const PREFIX := "CLIC1"

  /** The lines around an armoured token. */
  datatype Marks = Marks(header: string, footer: string)

  const ARMOR := Marks("-----BEGIN CONTENOX LICENSE-----", "-----END CONTENOX LICENSE-----")

  const COLUMNS := 64

  type Bytes = seq<B.byte>

  datatype Result<T> = Ok(value: T) | InvalidToken

  /** What decoding a token yields. */
  datatype Parts<H> = Parts(header: H, ciphertext: Bytes, signature: Bytes, signing: string)

  /** The header's JSON form, and back. */
  datatype Codec<!H> = Codec(marshal: H -> Bytes, unmarshal: Bytes -> Option<H>)

  ghost predicate Invertible<H(!new)>(codec: Codec<H>) {
    forall h :: codec.unmarshal(codec.marshal(h)) == Some(h)
  }

  function SigningMessage(headerB64: string, cipherB64: string): string {
    PREFIX + "." + headerB64 + "." + cipherB64
  }

  function EncodeToken<H>(codec: Codec<H>, h: H, ciphertext: Bytes, signature: Bytes): string {
    PREFIX + "." + B.Encode(codec.marshal(h)) + "." + B.Encode(ciphertext) + "." + B.Encode(signature)
  }

  // -- The armour ---------------------------------------------------------------------------

  /** The token cut into lines of at most `COLUMNS` characters. */
  function Chunks(token: string): (r: seq<string>)
    ensures forall c :: c in r ==> 0 < |c| <= COLUMNS
    decreases |token|
  {
    if |token| > COLUMNS then [token[..COLUMNS]] + Chunks(token[COLUMNS..])
    else if token != "" then [token]
    else []
  }

  /** Each line followed by a line break. */
  function Terminated(lines: seq<string>): string {
    if lines == [] then "" else lines[0] + "\n" + Terminated(lines[1..])
  }

  function Concat(lines: seq<string>): string {
    if lines == [] then "" else lines[0] + Concat(lines[1..])
  }

  function Lines(token: string): string { Terminated(Chunks(token)) }

  lemma LinesUnfold(token: string)
    ensures |token| > COLUMNS ==> Lines(token) == token[..COLUMNS] + "\n" + Lines(token[COLUMNS..])
    ensures 0 < |token| <= COLUMNS ==> Lines(token) == token + "\n"
  {
    if |token| > COLUMNS {
      assert Chunks(token)[1..] == Chunks(token[COLUMNS..]);
    } else if token != "" {
      assert Terminated([token]) == token + "\n" + Terminated([]);
    }
  }

  function Armor(m: Marks, token: string): string { m.header + "\n" + Lines(token) + m.footer + "\n" }

  method ArmorToken(m: Marks, token: string) returns (armored: string)
    ensures armored == Armor(m, token)
  {
    armored := m.header + "\n";
    var rest := token;
    while |rest| > COLUMNS
      invariant m.header + "\n" + Lines(token) == armored + Lines(rest)
      decreases |rest|
    {
      LinesUnfold(rest);
      armored := armored + rest[..COLUMNS] + "\n";
      rest := rest[COLUMNS..];
    }
    LinesUnfold(rest);
    if rest != "" { armored := armored + rest + "\n"; }
    armored := armored + m.footer + "\n";
  }

  /** What stands between the header line and the footer line, white space and line breaks removed. */
  function Unwrapped(m: Marks, lines: seq<string>, inBlock: bool): string {
    if lines == [] then ""
    else
      var line := TrimSpace(lines[0]);
      if line == m.header then Unwrapped(m, lines[1..], true)
      else if line == m.footer then ""
      else if inBlock && line != "" then line + Unwrapped(m, lines[1..], true)
      else Unwrapped(m, lines[1..], inBlock)
  }

  function Dearmor(m: Marks, armored: string): Result<string> {
    var res := Unwrapped(m, Split(armored, '\n'), false);
    if res == "" then InvalidToken else Ok(res)
  }

  method DearmorToken(m: Marks, armored: string) returns (r: Result<string>)
    ensures r == Dearmor(m, armored)
  {
    var lines := Split(armored, '\n');
    var collected, inBlock, i, ended := "", false, 0, false;
    while i < |lines| && !ended
      invariant 0 <= i <= |lines|
      invariant Unwrapped(m, lines, false) == collected + (if ended then "" else Unwrapped(m, lines[i..], inBlock))
    {
      var line := TrimSpace(lines[i]);
      assert lines[i..][1..] == lines[i + 1..];
      if line == m.header {
        inBlock := true;
      } else if line == m.footer {
        ended := true;
      } else if inBlock && line != "" {
        collected := collected + line;
      }
      i := i + 1;
    }
    assert collected == Unwrapped(m, lines, false);
    r := if collected == "" then InvalidToken else Ok(collected);
  }

  // -- Decoding -----------------------------------------------------------------------------------

  predicate StandsAt(s: string, i: nat, sub: string) { i + |sub| <= |s| && s[i..i + |sub|] == sub }

  predicate Contains(s: string, sub: string) { exists i :: 0 <= i <= |s| && StandsAt(s, i, sub) }

  function FromB64(s: string): Result<Bytes> {
    match B.Decode(s)
    case None => InvalidToken
    case Some(b) => Ok(b)
  }

  function DecodeCompact<H>(codec: Codec<H>, token: string): Result<Parts<H>> {
    var parts := Split(token, '.');
    if |parts| != 4 || parts[0] != PREFIX then InvalidToken
    else
      match (FromB64(parts[1]), FromB64(parts[2]), FromB64(parts[3]))
      case (Ok(header), Ok(cipher), Ok(sig)) =>
        (match codec.unmarshal(header)
         case None => InvalidToken
         case Some(h) => Ok(Parts(h, cipher, sig, parts[0] + "." + parts[1] + "." + parts[2])))
      case _ => InvalidToken
  }

  function DecodeToken<H>(m: Marks, codec: Codec<H>, raw: string): Result<Parts<H>> {
    var token := TrimSpace(raw);
    if Contains(token, m.header) then
      match Dearmor(m, token)
      case InvalidToken => InvalidToken
      case Ok(t) => DecodeCompact(codec, t)
    else DecodeCompact(codec, token)
  }

  // -- Round trips -----------------------------------------------------------------------------------

  /** No white space anywhere. */
  ghost predicate Solid(s: string) { forall i :: 0 <= i < |s| ==> !IsSpace(s[i]) }

  /** Marks the decoder can tell from a token's lines: visible at both ends, one line, with a space inside. */
  ghost predicate TellApart(m: Marks) { Mark(m.header) && Mark(m.footer) && m.header != m.footer }

  ghost predicate Mark(s: string) {
    && s != "" && !IsSpace(s[0]) && !IsSpace(s[|s| - 1]) && '\n' !in s
    && exists i :: 0 <= i < |s| && IsSpace(s[i])
  }

  lemma ArmorTellsApart()
    ensures TellApart(ARMOR)
  {
    HeaderIsMark();
    FooterIsMark();
    assert |ARMOR.header| != |ARMOR.footer|;
  }

  lemma HeaderIsMark()
    ensures Mark(ARMOR.header)
  {
    assert IsSpace(ARMOR.header[10]);
  }

  lemma FooterIsMark()
    ensures Mark(ARMOR.footer)
  {
    assert IsSpace(ARMOR.footer[8]);
  }

  lemma LettersAreSolid(b: Bytes)
    ensures Solid(B.Encode(b)) && '.' !in B.Encode(b)
  {
    B.EncodeIsLetters(b);
  }

  lemma TokenIsSolid<H>(codec: Codec<H>, h: H, c: Bytes, sig: Bytes)
    ensures Solid(EncodeToken(codec, h, c, sig)) && EncodeToken(codec, h, c, sig) != ""
  {
    LettersAreSolid(codec.marshal(h));
    LettersAreSolid(c);
    LettersAreSolid(sig);
  }

  lemma TrimPadded(before: string, s: string, after: string)
    requires Blank(before) && Blank(after)
    requires s != "" && !IsSpace(s[0]) && !IsSpace(s[|s| - 1])
    ensures TrimSpace(before + s + after) == s
  {
    var tail := s + after;
    assert before + s + after == before + tail;
    assert tail[0] == s[0];
    TrimLeftPadded(before, tail);
    TrimRightPadded(s, after);
  }

  lemma TrimLeftPadded(before: string, s: string)
    requires Blank(before) && s != "" && !IsSpace(s[0])
    ensures TrimLeft(before + s) == s
  {
    var t := before + s;
    var r := TrimLeft(t);
    assert t[|before|] == s[0];
    assert |r| >= |s|;
    assert r[0] == t[|t| - |r|];
    assert forall i :: 0 <= i < |before| ==> t[i] == before[i];
  }

  lemma TrimRightPadded(s: string, after: string)
    requires Blank(after) && s != "" && !IsSpace(s[|s| - 1])
    ensures TrimRight(s + after) == s
  {
    var t := s + after;
    var r := TrimRight(t);
    assert t[|s| - 1] == s[|s| - 1];
    assert |r| >= |s|;
    assert r[|r| - 1] == t[|r| - 1];
    assert forall i :: |s| <= i < |t| ==> t[i] == after[i - |s|];
  }

  lemma SolidIsNoMark(s: string, mark: string)
    requires Solid(s) && Mark(mark)
    ensures !Contains(s, mark) && s != mark
  {
    var k :| 0 <= k < |mark| && IsSpace(mark[k]);
    forall i | 0 <= i <= |s| ensures !StandsAt(s, i, mark) {
      if i + |mark| <= |s| { assert s[i + k] == s[i..i + |mark|][k]; }
    }
  }

  lemma {:induction false} ConcatChunks(token: string)
    ensures Concat(Chunks(token)) == token
    decreases |token|
  {
    if |token| > COLUMNS {
      ConcatChunks(token[COLUMNS..]);
      assert ([token[..COLUMNS]] + Chunks(token[COLUMNS..]))[1..] == Chunks(token[COLUMNS..]);
    }
  }

  lemma {:induction false} ChunksAreSolid(token: string)
    requires Solid(token)
    ensures forall c :: c in Chunks(token) ==> Solid(c)
    decreases |token|
  {
    if |token| > COLUMNS { ChunksAreSolid(token[COLUMNS..]); }
  }

  /** Splitting at line breaks finds the lines again. */
  lemma {:induction false} SplitTerminated(lines: seq<string>, last: string)
    requires '\n' !in last && forall c :: c in lines ==> '\n' !in c
    ensures Split(Terminated(lines) + last, '\n') == lines + [last]
    decreases |lines|
  {
    if lines == [] {
      SplitNone(last, '\n');
      assert Terminated(lines) + last == last;
    } else {
      var tail := Terminated(lines[1..]) + last;
      SplitTerminated(lines[1..], last);
      assert Terminated(lines) + last == lines[0] + ['\n'] + tail;
      SplitAt(lines[0], '\n', tail);
    }
  }

  /** Solid lines up to the footer are collected whole. */
  lemma {:induction false} UnwrapCollects(m: Marks, lines: seq<string>)
    requires TellApart(m) && forall c :: c in lines ==> c != "" && Solid(c)
    ensures Unwrapped(m, lines + [m.footer], true) == Concat(lines)
    decreases |lines|
  {
    if lines == [] {
      TrimKeeps(m.footer);
    } else {
      var line := lines[0];
      assert line in lines && Solid(line);
      TrimKeeps(line);
      SolidIsNoMark(line, m.header);
      SolidIsNoMark(line, m.footer);
      assert (lines + [m.footer])[1..] == lines[1..] + [m.footer];
      assert forall c :: c in lines[1..] ==> c in lines;
      UnwrapCollects(m, lines[1..]);
    }
  }

  /** The wrapped lines, read back, are the token. */
  lemma LinesUnwrap(m: Marks, token: string)
    requires Solid(token) && TellApart(m)
    ensures Unwrapped(m, Split(Lines(token) + m.footer, '\n'), true) == token
  {
    ChunksAreSolid(token);
    SplitTerminated(Chunks(token), m.footer);
    UnwrapCollects(m, Chunks(token));
    ConcatChunks(token);
  }

  lemma HeaderOpens(m: Marks, tail: string)
    requires TellApart(m)
    ensures Unwrapped(m, Split(m.header + ['\n'] + tail, '\n'), false) == Unwrapped(m, Split(tail, '\n'), true)
  {
    SplitAt(m.header, '\n', tail);
    TrimKeeps(m.header);
    assert ([m.header] + Split(tail, '\n'))[1..] == Split(tail, '\n');
  }

  lemma ArmorTrims(m: Marks, token: string, before: string, after: string)
    requires TellApart(m) && Blank(before) && Blank(after)
    ensures TrimSpace(before + Armor(m, token) + after) == m.header + ['\n'] + (Lines(token) + m.footer)
  {
    var body := m.header + ['\n'] + (Lines(token) + m.footer);
    assert before + Armor(m, token) + after == before + body + ("\n" + after);
    assert body[0] == m.header[0] && body[|body| - 1] == m.footer[|m.footer| - 1];
    TrimPadded(before, body, "\n" + after);
  }

  /** Armour comes off again, whatever white space the block picked up around it. */
  lemma ArmorRoundTrip(m: Marks, token: string, before: string, after: string)
    requires TellApart(m) && Solid(token) && token != "" && Blank(before) && Blank(after)
    ensures var raw := TrimSpace(before + Armor(m, token) + after);
            Contains(raw, m.header) && Dearmor(m, raw) == Ok(token)
  {
    var body := m.header + ['\n'] + (Lines(token) + m.footer);
    ArmorTrims(m, token, before, after);
    assert StandsAt(body, 0, m.header);
    HeaderOpens(m, Lines(token) + m.footer);
    LinesUnwrap(m, token);
  }

  lemma CompactRoundTrip<H(!new)>(codec: Codec<H>, h: H, c: Bytes, sig: Bytes)
    requires Invertible(codec)
    ensures DecodeCompact(codec, EncodeToken(codec, h, c, sig)) ==
            Ok(Parts(h, c, sig, SigningMessage(B.Encode(codec.marshal(h)), B.Encode(c))))
  {
    var p1, p2, p3 := B.Encode(codec.marshal(h)), B.Encode(c), B.Encode(sig);
    LettersAreSolid(codec.marshal(h));
    LettersAreSolid(c);
    LettersAreSolid(sig);
    B.RoundTrip(codec.marshal(h));
    B.RoundTrip(c);
    B.RoundTrip(sig);
    SplitFour(PREFIX, p1, p2, p3);
    assert EncodeToken(codec, h, c, sig) == PREFIX + "." + p1 + "." + p2 + "." + p3;
  }

  lemma Nested(a: string, b: string, c: string, d: string)
    ensures a + "." + b + "." + c + "." + d == a + ['.'] + (b + ['.'] + (c + ['.'] + d))
  {}

  lemma SplitFour(a: string, b: string, c: string, d: string)
    requires '.' !in a && '.' !in b && '.' !in c && '.' !in d
    ensures Split(a + "." + b + "." + c + "." + d, '.') == [a, b, c, d]
  {
    Nested(a, b, c, d);
    SplitAt(a, '.', b + ['.'] + (c + ['.'] + d));
    SplitAt(b, '.', c + ['.'] + d);
    SplitAt(c, '.', d);
    SplitNone(d, '.');
  }

  /** Decoding an encoded token, plain or armoured and with any white space around it, returns
      its parts, and the bytes to verify are the bytes that were to be signed. */
  lemma TokenRoundTrip<H(!new)>(codec: Codec<H>, h: H, c: Bytes, sig: Bytes, before: string, after: string)
    requires Invertible(codec) && Blank(before) && Blank(after)
    ensures var token := EncodeToken(codec, h, c, sig);
            var parts := Parts(h, c, sig, SigningMessage(B.Encode(codec.marshal(h)), B.Encode(c)));
            && DecodeToken(ARMOR, codec, before + token + after) == Ok(parts)
            && DecodeToken(ARMOR, codec, before + Armor(ARMOR, token) + after) == Ok(parts)
  {
    ArmorTellsApart();
    TokenRoundTripFor(ARMOR, codec, h, c, sig, before, after);
  }

  lemma TokenRoundTripFor<H(!new)>(m: Marks, codec: Codec<H>, h: H, c: Bytes, sig: Bytes, before: string, after: string)
    requires TellApart(m) && Invertible(codec) && Blank(before) && Blank(after)
    ensures var token := EncodeToken(codec, h, c, sig);
            var parts := Parts(h, c, sig, SigningMessage(B.Encode(codec.marshal(h)), B.Encode(c)));
            && DecodeToken(m, codec, before + token + after) == Ok(parts)
            && DecodeToken(m, codec, before + Armor(m, token) + after) == Ok(parts)
  {
    var token := EncodeToken(codec, h, c, sig);
    TokenIsSolid(codec, h, c, sig);
    CompactRoundTrip(codec, h, c, sig);
    TrimPadded(before, token, after);
    SolidIsNoMark(token, m.header);
    ArmorRoundTrip(m, token, before, after);
  }
}
