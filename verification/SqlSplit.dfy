/** Splitting an SQL script into statements. What counts as inside a quote or a comment is
    fixed by an automaton that reads one character at a time and never looks ahead; the
    splitter, with its flags and its look-ahead, is measured against it. */
module SqlSplit {
  import opened Text

  // -- The automaton ------------------------------------------------------------------------

  /** `Dash`, `Slash`, `Star` and `Closing` are one character into something that the next
      character may or may not complete. */
  datatype Mode = Plain | Dash | Slash | Line | Block | Star | Quoted(q: Quote) | Closing(q: Quote)

  predicate IsQuote(c: char) { c == '\'' || c == '"' || c == '`' }

  type Quote = c: char | IsQuote(c) witness '"'

  predicate Outside(m: Mode) { m == Plain || m == Dash || m == Slash || m.Closing? }

  function FromPlain(c: char): Mode {
    if c == '-' then Dash else if c == '/' then Slash else if IsQuote(c) then Quoted(c) else Plain
  }

  function Next(m: Mode, c: char): Mode {
    match m
    case Plain => FromPlain(c)
    case Dash => if c == '-' then Line else FromPlain(c)
    case Slash => if c == '*' then Block else FromPlain(c)
    case Line => if c == '\n' then Plain else Line
    case Block => if c == '*' then Star else Block
    case Star => if c == '/' then Plain else if c == '*' then Star else Block
    case Quoted(q) => if c == q then Closing(q) else m
    case Closing(q) => if c == q then Quoted(q) else FromPlain(c)
  }

  function ModeAfter(s: string): Mode {
    if s == "" then Plain else Next(ModeAfter(s[..|s| - 1]), s[|s| - 1])
  }

  /** A semicolon that ends a statement: one outside quotes and comments. */
  predicate IsCut(s: string, k: nat)
    requires k < |s|
  {
    s[k] == ';' && Outside(ModeAfter(s[..k]))
  }

  /** The script cut at exactly those semicolons, the semicolons dropped. */
  function Parts(s: string): (r: seq<string>)
    ensures |r| > 0
  {
    if s == "" then [""]
    else
      var n := |s| - 1;
      var r := Parts(s[..n]);
      if IsCut(s, n) then r + [""] else r[..|r| - 1] + [r[|r| - 1] + [s[n]]]
  }

  function Visible(parts: seq<string>): seq<string> {
    if parts == [] then []
    else Visible(parts[..|parts| - 1]) + (if TrimSpace(parts[|parts| - 1]) == "" then [] else [TrimSpace(parts[|parts| - 1])])
  }

  /** The statements of a script: its parts, trimmed, without the empty ones. */
  function Statements(s: string): seq<string> { Visible(Parts(s)) }

  // -- Text is conserved ------------------------------------------------------------------------

  lemma {:induction false} JoinSnoc(parts: seq<string>, last: string)
    requires parts != []
    ensures Join(parts + [last], ";") == Join(parts, ";") + ";" + last
    decreases |parts|
  {
    if |parts| > 1 {
      assert (parts + [last])[1..] == parts[1..] + [last];
      JoinSnoc(parts[1..], last);
    } else {
      assert (parts + [last])[1..] == [last];
    }
  }

  lemma JoinExtend(front: seq<string>, last: string, more: string)
    ensures Join(front + [last + more], ";") == Join(front + [last], ";") + more
  {
    if front != [] {
      JoinSnoc(front, last);
      JoinSnoc(front, last + more);
    }
  }

  /** Putting the semicolons back gives the script back. */
  lemma {:induction false} SplittingConserves(s: string)
    ensures Join(Parts(s), ";") == s
    decreases |s|
  {
    if s != "" {
      var n := |s| - 1;
      var r := Parts(s[..n]);
      SplittingConserves(s[..n]);
      var front, last := r[..|r| - 1], r[|r| - 1];
      assert r == front + [last];
      if IsCut(s, n) { JoinSnoc(r, ""); } else { JoinExtend(front, last, [s[n]]); }
      assert s == s[..n] + [s[n]];
    }
  }

  // -- A statement splits into itself ---------------------------------------------------------------

  ghost predicate NoCuts(s: string) { forall k :: 0 <= k < |s| ==> !IsCut(s, k) }

  /** Each part is read as if it stood alone, and holds no cut. */
  lemma {:induction false} PartsAreWhole(s: string)
    ensures var r := Parts(s); ModeAfter(r[|r| - 1]) == ModeAfter(s) && Whole(r)
    decreases |s|
  {
    if s != "" {
      var n := |s| - 1;
      PartsAreWhole(s[..n]);
      WholeStep(Parts(s[..n]), ModeAfter(s[..n]), s[n]);
      WholeExtends(s, n);
    }
  }

  /** The parts and the mode of `s`, from those of all but its last character. */
  lemma WholeExtends(s: string, n: nat)
    requires n < |s| && n + 1 == |s|
    ensures var r, mode, c := Parts(s[..n]), ModeAfter(s[..n]), s[n];
            && ModeAfter(s) == Next(mode, c)
            && Parts(s) == if c == ';' && Outside(mode) then r + [""] else r[..|r| - 1] + [r[|r| - 1] + [c]]
  {
    PartsSnoc(s, n);
    ModeSnoc(s, n);
    assert s[..n + 1] == s;
  }

  /** The parts grow by a cut, or by a character at the end of the last. */
  lemma WholeStep(r: seq<string>, mode: Mode, c: char)
    requires r != [] && Whole(r) && ModeAfter(r[|r| - 1]) == mode
    ensures var last := r[|r| - 1];
            if c == ';' && Outside(mode) then Whole(r + [""]) && ModeAfter("") == Next(mode, c)
            else Whole(r[..|r| - 1] + [last + [c]]) && ModeAfter(last + [c]) == Next(mode, c)
  {
    var last := r[|r| - 1];
    if c == ';' && Outside(mode) {
      WholeSnoc(r, "");
    } else {
      NoCutsSnoc(last, c);
      WholeSnoc(r[..|r| - 1], last + [c]);
    }
  }

  ghost predicate Whole(parts: seq<string>) { forall i :: 0 <= i < |parts| ==> NoCuts(parts[i]) }

  lemma WholeSnoc(parts: seq<string>, last: string)
    requires Whole(parts) && NoCuts(last)
    ensures Whole(parts + [last])
  {}

  lemma NoCutsSnoc(s: string, c: char)
    requires NoCuts(s) && !(c == ';' && Outside(ModeAfter(s)))
    ensures NoCuts(s + [c]) && ModeAfter(s + [c]) == Next(ModeAfter(s), c)
  {
    var t := s + [c];
    assert t[..|s|] == s;
    forall k | 0 <= k < |t| ensures !IsCut(t, k) {
      if k < |s| { assert t[..k] == s[..k] && t[k] == s[k] && !IsCut(s, k); }
    }
  }

  lemma {:induction false} NoCutsIsOnePart(s: string)
    requires NoCuts(s)
    ensures Parts(s) == [s]
    decreases |s|
  {
    if s != "" {
      var n := |s| - 1;
      NoCutsPrefix(s, n);
      NoCutsIsOnePart(s[..n]);
      assert !IsCut(s, n);
      assert s == s[..n] + [s[n]];
    }
  }

  lemma NoCutsPrefix(s: string, n: nat)
    requires NoCuts(s) && n <= |s|
    ensures NoCuts(s[..n])
  {
    forall k | 0 <= k < n ensures !IsCut(s[..n], k) {
      assert s[..n][..k] == s[..k] && !IsCut(s, k);
    }
  }

  /** White space in front changes nothing. */
  lemma {:induction false} SpacesInFront(w: string, s: string)
    requires Blank(w)
    ensures ModeAfter(w + s) == ModeAfter(s)
    decreases |s|, |w|
  {
    if s != "" {
      var n := |s| - 1;
      assert (w + s)[..|w + s| - 1] == w + s[..n];
      SpacesInFront(w, s[..n]);
    } else if w != "" {
      assert w + s == w && IsSpace(w[|w| - 1]);
      assert w[..|w| - 1] + "" == w[..|w| - 1];
      SpacesInFront(w[..|w| - 1], "");
    }
  }

  lemma NoCutsTrimmed(s: string)
    requires NoCuts(s)
    ensures NoCuts(TrimSpace(s))
  {
    var l := TrimLeft(s);
    var w := s[..|s| - |l|];
    assert s == w + l;
    NoCutsBehind(w, l);
    NoCutsPrefix(l, |TrimSpace(s)|);
  }

  lemma NoCutsBehind(w: string, l: string)
    requires Blank(w) && NoCuts(w + l)
    ensures NoCuts(l)
  {
    forall k | 0 <= k < |l| ensures !IsCut(l, k) {
      assert (w + l)[..|w| + k] == w + l[..k];
      SpacesInFront(w, l[..k]);
      assert !IsCut(w + l, |w| + k) && (w + l)[|w| + k] == l[k];
    }
  }

  lemma {:induction false} VisibleAre(parts: seq<string>, stmt: string)
    requires stmt in Visible(parts)
    ensures stmt != "" && exists i :: 0 <= i < |parts| && stmt == TrimSpace(parts[i])
    decreases |parts|
  {
    var n := |parts| - 1;
    if stmt in Visible(parts[..n]) { VisibleAre(parts[..n], stmt); }
  }

  /** Splitting any statement again yields exactly that statement. */
  lemma StatementSplitsIntoItself(script: string, stmt: string)
    requires stmt in Statements(script)
    ensures Statements(stmt) == [stmt]
  {
    VisibleAre(Parts(script), stmt);
    var i :| 0 <= i < |Parts(script)| && stmt == TrimSpace(Parts(script)[i]);
    PartsAreWhole(script);
    NoCutsTrimmed(Parts(script)[i]);
    NoCutsIsOnePart(stmt);
    TrimIsTrimmed(Parts(script)[i]);
    assert Visible([stmt]) == Visible([]) + [stmt];
  }

  // -- The splitter ---------------------------------------------------------------------------------

  /** The loop variables of the splitter. */
  datatype Flags = Flags(inString: bool, inLine: bool, inBlock: bool, quote: Quote)

  /** The flags stand for the automaton's mode, and nothing is half read: where the mode waits
      for a character that would complete something, the next character is not that one. */
  ghost predicate Stands(f: Flags, s: string, i: nat)
    requires i <= |s|
  {
    var m := ModeAfter(s[..i]);
    && (f.inLine <==> m == Line)
    && (f.inBlock <==> m == Block || m == Star)
    && (f.inString <==> m.Quoted?) && (m.Quoted? ==> m.q == f.quote)
    && (i < |s| ==>
          && (m == Dash ==> s[i] != '-') && (m == Slash ==> s[i] != '*') && (m == Star ==> s[i] != '/')
          && (m.Closing? ==> s[i] != m.q))
  }

  /** The splitter takes two characters at once here. */
  predicate Pair(f: Flags, s: string, i: nat) {
    && i + 1 < |s| && !f.inLine
    && if f.inBlock then s[i] == '*' && s[i + 1] == '/'
       else if f.inString then s[i] == f.quote && s[i + 1] == f.quote
       else (s[i] == '-' && s[i + 1] == '-') || (s[i] == '/' && s[i + 1] == '*')
  }

  function PairFlags(f: Flags, c: char): Flags {
    if f.inBlock then f.(inBlock := false)
    else if f.inString then f
    else if c == '-' then f.(inLine := true)
    else f.(inBlock := true)
  }

  function SingleFlags(f: Flags, c: char): Flags {
    if f.inLine then (if c == '\n' then f.(inLine := false) else f)
    else if f.inBlock || !IsQuote(c) then f
    else if !f.inString then f.(inString := true, quote := c)
    else if c == f.quote then f.(inString := false)
    else f
  }

  lemma PairStands(f: Flags, s: string, i: nat)
    requires i < |s| && Stands(f, s, i) && Pair(f, s, i)
    ensures Stands(PairFlags(f, s[i]), s, i + 2) && !IsCut(s, i) && !IsCut(s, i + 1)
  {
    ModeSnoc(s, i);
    ModeSnoc(s, i + 1);
  }

  lemma SingleStands(f: Flags, s: string, i: nat)
    requires i < |s| && Stands(f, s, i) && !Pair(f, s, i)
    ensures Stands(SingleFlags(f, s[i]), s, i + 1)
    ensures IsCut(s, i) <==> s[i] == ';' && !f.inLine && !f.inBlock && !f.inString
  {
    ModeSnoc(s, i);
  }

  lemma ModeSnoc(s: string, i: nat)
    requires i < |s|
    ensures ModeAfter(s[..i + 1]) == Next(ModeAfter(s[..i]), s[i])
  {
    assert s[..i + 1][..i] == s[..i];
  }

  lemma PartsSnoc(s: string, i: nat)
    requires i < |s|
    ensures Parts(s[..i + 1]) == if IsCut(s, i) then Parts(s[..i]) + [""] else
                                   var r := Parts(s[..i]); r[..|r| - 1] + [r[|r| - 1] + [s[i]]]
  {
    assert s[..i + 1][..i] == s[..i];
    assert IsCut(s[..i + 1], i) == IsCut(s, i);
  }

  /** `done` and `cur` are the parts of what has been read. */
  ghost predicate Collected(done: seq<string>, cur: string, s: string, i: nat)
    requires i <= |s|
  {
    var r := Parts(s[..i]);
    done == Visible(r[..|r| - 1]) && cur == r[|r| - 1]
  }

  /** Reading one or two characters that are no cut. */
  lemma Keeps(done: seq<string>, cur: string, s: string, i: nat)
    requires i < |s| && Collected(done, cur, s, i) && !IsCut(s, i)
    ensures Collected(done, cur + [s[i]], s, i + 1)
  {
    PartsSnoc(s, i);
  }

  lemma TwoCharacters(s: string, a: char, b: char)
    ensures s + [a] + [b] == s + [a, b]
  {}

  lemma KeepsPair(done: seq<string>, cur: string, s: string, i: nat)
    requires i + 1 < |s| && Collected(done, cur, s, i) && !IsCut(s, i) && !IsCut(s, i + 1)
    ensures Collected(done, cur + [s[i], s[i + 1]], s, i + 2)
  {
    var one := cur + [s[i]];
    Keeps(done, cur, s, i);
    Keeps(done, one, s, i + 1);
    TwoCharacters(cur, s[i], s[i + 1]);
  }

  lemma Cuts(done: seq<string>, cur: string, s: string, i: nat)
    requires i < |s| && Collected(done, cur, s, i) && IsCut(s, i)
    ensures Collected(if TrimSpace(cur) != "" then done + [TrimSpace(cur)] else done, "", s, i + 1)
  {
    PartsSnoc(s, i);
    var r := Parts(s[..i]);
    assert (r + [""])[..|r|] == r;
  }

  method SplitSqlStatements(script: string) returns (stmts: seq<string>)
    ensures stmts == Statements(script)
  {
    stmts := [];
    var cur := "";
    var f := Flags(false, false, false, '"');
    var i := 0;
    assert script[..0] == "";
    while i < |script|
      invariant i <= |script|
      invariant Stands(f, script, i)
      invariant Collected(stmts, cur, script, i)
    {
      var c := script[i];
      if Pair(f, script, i) { PairStands(f, script, i); } else { SingleStands(f, script, i); }
      if f.inLine {
        if c == '\n' { f := f.(inLine := false); }
        Keeps(stmts, cur, script, i);
        cur := cur + [c];
        i := i + 1;
        continue;
      }
      if f.inBlock {
        if c == '*' && i + 1 < |script| && script[i + 1] == '/' {
          f := f.(inBlock := false);
          KeepsPair(stmts, cur, script, i);
          cur := cur + "*/";
          i := i + 2;
        } else {
          Keeps(stmts, cur, script, i);
          cur := cur + [c];
          i := i + 1;
        }
        continue;
      }
      if !f.inString {
        if c == '-' && i + 1 < |script| && script[i + 1] == '-' {
          f := f.(inLine := true);
          KeepsPair(stmts, cur, script, i);
          cur := cur + "--";
          i := i + 2;
          continue;
        }
        if c == '/' && i + 1 < |script| && script[i + 1] == '*' {
          f := f.(inBlock := true);
          KeepsPair(stmts, cur, script, i);
          cur := cur + "/*";
          i := i + 2;
          continue;
        }
      }
      if IsQuote(c) {
        if !f.inString {
          f := f.(inString := true, quote := c);
        } else if c == f.quote {
          if i + 1 < |script| && script[i + 1] == f.quote {
            KeepsPair(stmts, cur, script, i);
            cur := cur + [c, script[i + 1]];
            i := i + 2;
            continue;
          }
          f := f.(inString := false);
        }
      }
      if !f.inString && c == ';' {
        Cuts(stmts, cur, script, i);
        if TrimSpace(cur) != "" { stmts := stmts + [TrimSpace(cur)]; }
        cur := "";
      } else {
        Keeps(stmts, cur, script, i);
        cur := cur + [c];
      }
      i := i + 1;
    }
    assert script[..|script|] == script;
    var r := Parts(script);
    assert r[..|r| - 1] + [r[|r| - 1]] == r;
    if TrimSpace(cur) != "" { stmts := stmts + [TrimSpace(cur)]; }
  }
}
