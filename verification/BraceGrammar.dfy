/**
 Which braces the chunker counts, told from what the lines are made of: code, strings and comments.
 Lines are joined by newlines; every text is made of these parts.
 */
module BraceGrammar {
  import opened JsText
  import opened Options
  import opened Chunker

  /** The last three run to the end of the text. */
  datatype Part =
    | Code(text: string)
    | Str(q: char, text: string)
    | LineNote(text: string)
    | BlockNote(text: string)
    | OpenStr(q: char, text: string)
    | OpenLine(text: string)
    | OpenBlock(text: string)

  predicate Open(g: Part) {
    g.OpenStr? || g.OpenLine? || g.OpenBlock?
  }

  /** A backslash escapes the character after it; no other `q` stands in the text. */
  predicate Inside(b: string, q: char)
    decreases |b|
  {
    b == "" ||
    (if b[0] == '\\' then |b| >= 2 && Inside(b[2..], q) else b[0] != q && Inside(b[1..], q))
  }

  /** The same, with a backslash that may be the last character. */
  predicate Unclosed(b: string, q: char)
    decreases |b|
  {
    b == "" ||
    (if b[0] == '\\' then |b| == 1 || Unclosed(b[2..], q) else b[0] != q && Unclosed(b[1..], q))
  }

  predicate Proper(g: Part) {
    match g
    case Code(a) => a != "" && (forall c <- a :: !QuoteMark(c)) && !HasPair(a, '/', '/') && !HasPair(a, '/', '*')
    case Str(q, b) => QuoteMark(q) && Inside(b, q)
    case LineNote(c) => '\n' !in c
    case BlockNote(c) => !HasPair(c, '*', '/')
    case OpenStr(q, b) => QuoteMark(q) && Unclosed(b, q)
    case OpenLine(c) => '\n' !in c
    case OpenBlock(c) => !HasPair(c, '*', '/')
  }

  predicate Note(g: Part) {
    g.LineNote? || g.BlockNote? || g.OpenLine? || g.OpenBlock?
  }

  /** Whether `h` can come right after `g`. */
  predicate MayFollow(g: Part, h: Part) {
    !Open(g) && (g.Code? && g.text != "" ==> !h.Code? && (Note(h) ==> g.text[|g.text| - 1] != '/'))
  }

  predicate WellFormed(gs: seq<Part>) {
    gs == [] || (Proper(gs[0]) && (|gs| > 1 ==> MayFollow(gs[0], gs[1])) && WellFormed(gs[1..]))
  }

  function Written(g: Part): string {
    match g
    case Code(a) => a
    case Str(q, b) => [q] + b + [q]
    case LineNote(c) => "//" + c + "\n"
    case BlockNote(c) => "/*" + c + "*/"
    case OpenStr(q, b) => [q] + b
    case OpenLine(c) => "//" + c
    case OpenBlock(c) => "/*" + c
  }

  function Render(gs: seq<Part>): string {
    if gs == [] then "" else Written(gs[0]) + Render(gs[1..])
  }

  /** The text outside strings and comments. */
  function CodeText(gs: seq<Part>): string {
    if gs == [] then "" else (if gs[0].Code? then gs[0].text else "") + CodeText(gs[1..])
  }

  /** The scan after code: every brace of it counts, and nothing else. */
  ghost function Counted(s: Scan, code: string): Scan {
    s.(braces := s.braces + multiset(code)['{'] - multiset(code)['}'], found := s.found || '{' in code)
  }

  /** And after a last part that is still open. */
  ghost function LeftOpen(s: Scan, gs: seq<Part>): Scan {
    if gs == [] then s
    else
      match gs[|gs| - 1]
      case OpenStr(q, _) => s.(inString := Some(q))
      case OpenBlock(_) => s.(inComment := true)
      case _ => s
  }

  // ---------------------------------------------------------------- one text instead of lines

  function Brace(s: Scan, c: char): Scan {
    if c == '{' then s.(braces := s.braces + 1, found := true)
    else if c == '}' then s.(braces := s.braces - 1) else s
  }

  /** The scan of a text with newlines in it; `noted` inside a comment that ends with the line. */
  ghost function TextScan(t: string, s: Scan, noted: bool): Scan
    decreases |t|
  {
    if t == "" then s
    else if noted then TextScan(t[1..], s, t[0] != '\n')
    else if s.inComment then
      if PairAt(t, 0, '*', '/') then TextScan(t[2..], s.(inComment := false), false) else TextScan(t[1..], s, false)
    else if s.inString.Some? then
      if t[0] == '\\' then if |t| == 1 then s else TextScan(t[2..], s, false)
      else TextScan(t[1..], if Some(t[0]) == s.inString then s.(inString := None) else s, false)
    else if PairAt(t, 0, '/', '/') then TextScan(t[2..], s, true)
    else if PairAt(t, 0, '/', '*') then TextScan(t[2..], s.(inComment := true), false)
    else if QuoteMark(t[0]) then TextScan(t[1..], s.(inString := Some(t[0])), false)
    else TextScan(t[1..], Brace(s, t[0]), false)
  }

  ghost predicate Outside(s: Scan) {
    s.inString.None? && !s.inComment
  }

  lemma CountedOne(s: Scan, c: char)
    ensures Counted(s, [c]) == Brace(s, c)
  {
    assert multiset([c]) == multiset{c};
  }

  lemma CountedAppend(s: Scan, a: string, b: string)
    ensures Counted(Counted(s, a), b) == Counted(s, a + b)
  {
    assert multiset(a + b) == multiset(a) + multiset(b);
  }

  lemma CountedFirst(s: Scan, a: string)
    requires a != ""
    ensures Counted(s, a) == Counted(Brace(s, a[0]), a[1..])
  {
    CountedOne(s, a[0]);
    CountedAppend(s, [a[0]], a[1..]);
    assert [a[0]] + a[1..] == a;
  }

  /** What follows the line's newline, if there is one. */
  function PastNewline(tail: string): string {
    if tail == "" then "" else tail[1..]
  }

  lemma {:induction false} NotedScan(c: string, tail: string, s: Scan)
    requires '\n' !in c && (tail == "" || tail[0] == '\n')
    ensures TextScan(c + tail, s, true) == TextScan(PastNewline(tail), s, false)
  {
    if c == "" {
      assert c + tail == tail;
    } else {
      assert c[0] in c && (c + tail)[1..] == c[1..] + tail;
      assert forall x <- c[1..] :: x in c;
      NotedScan(c[1..], tail, s);
    }
  }

  /** A string is open by a quote mark. */
  ghost predicate ByMark(s: Scan) {
    s.inString.Some? ==> QuoteMark(s.inString.value)
  }

  lemma NewlineScan(tail: string, s: Scan)
    requires (tail == "" || tail[0] == '\n') && ByMark(s)
    ensures TextScan(tail, s, false) == TextScan(PastNewline(tail), s, false)
  {
  }

  lemma {:induction false} SplitNoNewlines(content: string)
    ensures NoNewlines(SplitLines(content))
  {
    if content != "" {
      SplitNoNewlines(content[1..]);
      assert SplitLines(content[1..])[0] in SplitLines(content[1..]);
    }
  }

  /** Scanning a line is scanning the text up to its newline. */
  lemma {:induction false} LineScan(line: string, k: nat, tail: string, s: Scan)
    requires k <= |line| && '\n' !in line && (tail == "" || tail[0] == '\n') && ByMark(s)
    ensures ByMark(ScanFrom(line, k, s))
    ensures TextScan(line[k..] + tail, s, false) == TextScan(PastNewline(tail), ScanFrom(line, k, s), false)
    decreases |line| - k
  {
    if k == |line| {
      assert line[k..] + tail == tail;
      NewlineScan(tail, s);
    } else {
      RestOfLine(line, k, tail);
      if s.inComment {
        CommentScan(line, k, tail, s);
      } else if s.inString.Some? {
        StringScan(line, k, tail, s);
      } else {
        CodeScan(line, k, tail, s);
      }
    }
  }

  lemma RestOfLine(line: string, k: nat, tail: string)
    requires k < |line| && (tail == "" || tail[0] == '\n')
    ensures
      var t := line[k..] + tail;
      && t != "" && t[0] == line[k] && t[1..] == line[k + 1..] + tail
      && (k + 2 <= |line| ==> t[2..] == line[k + 2..] + tail)
      && (forall a, b :: b != '\n' ==> (PairAt(t, 0, a, b) <==> PairAt(line, k, a, b)))
  {
  }

  lemma {:induction false} CommentScan(line: string, k: nat, tail: string, s: Scan)
    requires k < |line| && '\n' !in line && (tail == "" || tail[0] == '\n') && ByMark(s) && s.inComment
    ensures ByMark(ScanFrom(line, k, s))
    ensures TextScan(line[k..] + tail, s, false) == TextScan(PastNewline(tail), ScanFrom(line, k, s), false)
    decreases |line| - k, 0
  {
    RestOfLine(line, k, tail);
    if PairAt(line, k, '*', '/') {
      LineScan(line, k + 2, tail, s.(inComment := false));
    } else {
      LineScan(line, k + 1, tail, s);
    }
  }

  lemma {:induction false} StringScan(line: string, k: nat, tail: string, s: Scan)
    requires k < |line| && '\n' !in line && (tail == "" || tail[0] == '\n') && ByMark(s)
    requires !s.inComment && s.inString.Some?
    ensures ByMark(ScanFrom(line, k, s))
    ensures TextScan(line[k..] + tail, s, false) == TextScan(PastNewline(tail), ScanFrom(line, k, s), false)
    decreases |line| - k, 0
  {
    RestOfLine(line, k, tail);
    if line[k] != '\\' {
      LineScan(line, k + 1, tail, if Some(line[k]) == s.inString then s.(inString := None) else s);
    } else if k + 2 <= |line| {
      LineScan(line, k + 2, tail, s);
    } else {
      EscapedNewline(line, k, tail, s);
    }
  }

  /** A backslash at the end of a line escapes its newline. */
  lemma EscapedNewline(line: string, k: nat, tail: string, s: Scan)
    requires k == |line| - 1 && line[k] == '\\' && (tail == "" || tail[0] == '\n')
    requires !s.inComment && s.inString.Some?
    ensures TextScan(line[k..] + tail, s, false) == TextScan(PastNewline(tail), s, false)
  {
    assert line[k..] + tail == [line[k]] + tail;
    assert tail != "" ==> ([line[k]] + tail)[2..] == tail[1..];
  }

  lemma {:induction false} CodeScan(line: string, k: nat, tail: string, s: Scan)
    requires k < |line| && '\n' !in line && (tail == "" || tail[0] == '\n') && Outside(s)
    ensures ByMark(ScanFrom(line, k, s))
    ensures TextScan(line[k..] + tail, s, false) == TextScan(PastNewline(tail), ScanFrom(line, k, s), false)
    decreases |line| - k, 0
  {
    RestOfLine(line, k, tail);
    if PairAt(line, k, '/', '/') {
      assert forall x <- line[k + 2..] :: x in line;
      NotedScan(line[k + 2..], tail, s);
    } else if PairAt(line, k, '/', '*') {
      LineScan(line, k + 2, tail, s.(inComment := true));
    } else if QuoteMark(line[k]) {
      LineScan(line, k + 1, tail, s.(inString := Some(line[k])));
    } else {
      LineScan(line, k + 1, tail, Brace(s, line[k]));
    }
  }

  /** The scan of one line after the other. */
  ghost function LinesScan(lines: seq<string>, s: Scan): Scan {
    if lines == [] then s else LinesScan(lines[1..], ScanFrom(lines[0], 0, s))
  }

  lemma {:induction false} LinesScanLast(lines: seq<string>, line: string, s: Scan)
    ensures LinesScan(lines + [line], s) == ScanFrom(line, 0, LinesScan(lines, s))
  {
    if lines == [] {
      assert (lines + [line])[1..] == [];
    } else {
      assert (lines + [line])[1..] == lines[1..] + [line];
      LinesScanLast(lines[1..], line, ScanFrom(lines[0], 0, s));
    }
  }

  lemma {:induction false} AfterIsLinesScan(lines: seq<string>, i: nat, j: nat)
    requires i <= j <= |lines|
    ensures After(lines, i, j) == LinesScan(lines[i..j], SCAN_START)
  {
    if i < j {
      AfterIsLinesScan(lines, i, j - 1);
      LinesScanLast(lines[i..j - 1], lines[j - 1], SCAN_START);
      assert lines[i..j] == lines[i..j - 1] + [lines[j - 1]];
    }
  }

  /** Lines as split at the newlines. */
  ghost predicate NoNewlines(lines: seq<string>) {
    forall l <- lines :: '\n' !in l
  }

  lemma {:induction false} LinesAreText(lines: seq<string>, s: Scan)
    requires NoNewlines(lines) && ByMark(s)
    ensures LinesScan(lines, s) == TextScan(JoinLines(lines), s, false)
  {
    if lines != [] {
      assert lines[0] in lines && forall l <- lines[1..] :: l in lines;
      var tail := if |lines| == 1 then "" else "\n" + JoinLines(lines[1..]);
      LineScan(lines[0], 0, tail, s);
      assert lines[0][0..] == lines[0];
      assert JoinLines(lines) == lines[0] + tail;
      LinesAreText(lines[1..], ScanFrom(lines[0], 0, s));
    }
  }

  // ---------------------------------------------------------------- what the scan makes of a part

  lemma CodeStep(a: string, rest: string, s: Scan)
    requires Outside(s) && a != "" && !QuoteMark(a[0]) && !PairAt(a, 0, '/', '/') && !PairAt(a, 0, '/', '*')
    requires |a| == 1 && rest != "" && a[0] == '/' ==> rest[0] != '/' && rest[0] != '*'
    ensures TextScan(a + rest, s, false) == TextScan(a[1..] + rest, Brace(s, a[0]), false)
  {
    assert (a + rest)[0] == a[0] && (a + rest)[1..] == a[1..] + rest;
  }

  lemma {:induction false} CodeCounts(a: string, rest: string, s: Scan)
    requires Outside(s) && (forall c <- a :: !QuoteMark(c)) && !HasPair(a, '/', '/') && !HasPair(a, '/', '*')
    requires a != "" && rest != "" && a[|a| - 1] == '/' ==> rest[0] != '/' && rest[0] != '*'
    ensures TextScan(a + rest, s, false) == TextScan(rest, Counted(s, a), false)
  {
    if a == "" {
      assert a + rest == rest && Counted(s, a) == s;
    } else {
      PairInRest(a, '/', '/');
      PairInRest(a, '/', '*');
      assert a[0] in a && forall c <- a[1..] :: c in a;
      CodeStep(a, rest, s);
      CodeCounts(a[1..], rest, Brace(s, a[0]));
      CountedFirst(s, a);
    }
  }

  /** A string's characters, up to its closing quote mark. */
  lemma {:induction false} StrSkipped(q: char, b: string, rest: string, s: Scan)
    requires Inside(b, q) && q != '\\' && !s.inComment && s.inString == Some(q)
    ensures TextScan(b + [q] + rest, s, false) == TextScan(rest, s.(inString := None), false)
    decreases |b|
  {
    var t := b + [q] + rest;
    if b == "" {
      assert t == [q] + rest && t[1..] == rest;
    } else if b[0] == '\\' {
      assert t[2..] == b[2..] + [q] + rest;
      StrSkipped(q, b[2..], rest, s);
    } else {
      assert t[1..] == b[1..] + [q] + rest;
      StrSkipped(q, b[1..], rest, s);
    }
  }

  lemma {:induction false} OpenStrSkipped(q: char, b: string, s: Scan)
    requires Unclosed(b, q) && !s.inComment && s.inString == Some(q)
    ensures TextScan(b, s, false) == s
    decreases |b|
  {
    if b != "" && b[0] != '\\' {
      OpenStrSkipped(q, b[1..], s);
    } else if |b| > 1 {
      OpenStrSkipped(q, b[2..], s);
    }
  }

  lemma {:induction false} BlockSkipped(c: string, rest: string, s: Scan)
    requires !HasPair(c, '*', '/') && s.inComment
    ensures TextScan(c + "*/" + rest, s, false) == TextScan(rest, s.(inComment := false), false)
  {
    var t := c + "*/" + rest;
    if c == "" {
      assert t == "*/" + rest && t[2..] == rest;
    } else {
      PairInRest(c, '*', '/');
      assert t[0] == c[0] && t[1..] == c[1..] + "*/" + rest;
      assert !PairAt(t, 0, '*', '/');
      BlockSkipped(c[1..], rest, s);
    }
  }

  lemma {:induction false} OpenBlockSkipped(c: string, s: Scan)
    requires !HasPair(c, '*', '/') && s.inComment
    ensures TextScan(c, s, false) == s
  {
    if c != "" {
      PairInRest(c, '*', '/');
      OpenBlockSkipped(c[1..], s);
    }
  }

  /** What can come after a part. */
  predicate Boundary(g: Part, rest: string) {
    && (Open(g) ==> rest == "")
    && (g.Code? && g.text != "" && rest != "" && g.text[|g.text| - 1] == '/' ==> rest[0] != '/' && rest[0] != '*')
  }

  lemma PartScan(g: Part, rest: string, s: Scan)
    requires Proper(g) && Boundary(g, rest) && Outside(s)
    ensures
      TextScan(Written(g) + rest, s, false) ==
      if g.Code? then TextScan(rest, Counted(s, g.text), false)
      else if g.OpenStr? then s.(inString := Some(g.q))
      else if g.OpenBlock? then s.(inComment := true)
      else TextScan(rest, s, false)
  {
    match g
    case Code(a) => CodeCounts(a, rest, s);
    case Str(q, b) => StrScan(q, b, rest, s);
    case LineNote(_) => NoteScan(g, rest, s);
    case BlockNote(_) => NoteScan(g, rest, s);
    case OpenStr(q, b) =>
      assert Written(g) + rest == [q] + b && ([q] + b)[1..] == b;
      OpenStrSkipped(q, b, s.(inString := Some(q)));
    case OpenLine(_) => NoteScan(g, rest, s);
    case OpenBlock(_) => NoteScan(g, rest, s);
  }

  lemma StrScan(q: char, b: string, rest: string, s: Scan)
    requires QuoteMark(q) && Inside(b, q) && Outside(s)
    ensures TextScan([q] + b + [q] + rest, s, false) == TextScan(rest, s, false)
  {
    assert ([q] + b + [q] + rest)[1..] == b + [q] + rest;
    StrSkipped(q, b, rest, s.(inString := Some(q)));
  }

  lemma LineNoteScan(c: string, tail: string, s: Scan)
    requires '\n' !in c && (tail == "" || tail[0] == '\n') && Outside(s)
    ensures TextScan("//" + c + tail, s, false) == TextScan(PastNewline(tail), s, false)
  {
    assert ("//" + c + tail)[2..] == c + tail;
    NotedScan(c, tail, s);
  }

  lemma BlockNoteScan(c: string, rest: string, s: Scan)
    requires !HasPair(c, '*', '/') && Outside(s)
    ensures TextScan("/*" + c + "*/" + rest, s, false) == TextScan(rest, s, false)
    ensures TextScan("/*" + c, s, false) == s.(inComment := true)
  {
    assert ("/*" + c + "*/" + rest)[2..] == c + "*/" + rest && ("/*" + c)[2..] == c;
    BlockSkipped(c, rest, s.(inComment := true));
    OpenBlockSkipped(c, s.(inComment := true));
  }

  lemma NoteScan(g: Part, rest: string, s: Scan)
    requires Note(g) && Proper(g) && Boundary(g, rest) && Outside(s)
    ensures
      TextScan(Written(g) + rest, s, false) ==
      if g.OpenBlock? then s.(inComment := true) else TextScan(rest, s, false)
  {
    match g
    case LineNote(c) =>
      assert "//" + c + "\n" + rest == "//" + c + ("\n" + rest) && PastNewline("\n" + rest) == rest;
      LineNoteScan(c, "\n" + rest, s);
    case BlockNote(c) => BlockNoteScan(c, rest, s);
    case OpenLine(c) =>
      assert "//" + c + rest == "//" + c + "";
      LineNoteScan(c, "", s);
    case OpenBlock(c) =>
      assert "/*" + c + rest == "/*" + c;
      BlockNoteScan(c, "", s);
  }

  lemma FollowsBoundary(gs: seq<Part>)
    requires WellFormed(gs) && gs != []
    ensures Boundary(gs[0], Render(gs[1..]))
  {
    if |gs| > 1 {
      assert gs[1..][0] == gs[1];
      assert Written(gs[1]) != "" && Render(gs[1..])[0] == Written(gs[1])[0];
      assert !gs[1].Code? && !Note(gs[1]) ==> QuoteMark(Written(gs[1])[0]);
    }
  }

  lemma LeftOpenRest(gs: seq<Part>, s: Scan)
    requires gs != [] && !Open(gs[0])
    ensures LeftOpen(s, gs) == LeftOpen(s, gs[1..])
  {
    assert gs[1..] != [] ==> gs[1..][|gs| - 2] == gs[|gs| - 1];
  }

  lemma CodeFirstCounted(gs: seq<Part>, s: Scan)
    requires gs != []
    ensures
      Counted(s, CodeText(gs)) ==
      Counted(if gs[0].Code? then Counted(s, gs[0].text) else s, CodeText(gs[1..]))
  {
    if gs[0].Code? {
      CountedAppend(s, gs[0].text, CodeText(gs[1..]));
    } else {
      assert "" + CodeText(gs[1..]) == CodeText(gs[1..]);
    }
  }

  /** The scan of a text counts the braces of its code, and knows what is still open at its end. */
  lemma {:induction false} ScanByParts(gs: seq<Part>, s: Scan)
    requires WellFormed(gs) && Outside(s)
    ensures TextScan(Render(gs), s, false) == LeftOpen(Counted(s, CodeText(gs)), gs)
  {
    if gs == [] {
      assert Counted(s, "") == s;
    } else {
      FollowsBoundary(gs);
      PartScan(gs[0], Render(gs[1..]), s);
      CodeFirstCounted(gs, s);
      if Open(gs[0]) {
        assert gs == [gs[0]];
        assert Counted(s, "") == s;
      } else {
        LeftOpenRest(gs, Counted(s, CodeText(gs)));
        ScanByParts(gs[1..], if gs[0].Code? then Counted(s, gs[0].text) else s);
      }
    }
  }

  // ---------------------------------------------------------------- every text is made of parts

  lemma {:induction false} FindQuote(s: string, q: char) returns (n: nat)
    requires q != '\\'
    ensures n <= |s|
    ensures if n < |s| then s[n] == q && Inside(s[..n], q) else Unclosed(s, q)
    decreases |s|
  {
    if s == "" || s[0] == q {
      n := 0;
    } else if s[0] != '\\' {
      n := FindQuote(s[1..], q);
      n := n + 1;
      assert s[..n][1..] == s[1..][..n - 1];
    } else if |s| == 1 {
      n := 1;
    } else {
      n := FindQuote(s[2..], q);
      n := n + 2;
      assert s[..n][2..] == s[2..][..n - 2];
    }
  }

  lemma {:induction false} EveryTextReads(s: string) returns (gs: seq<Part>)
    ensures WellFormed(gs) && Render(gs) == s
    decreases |s|
  {
    if s == "" {
      gs := [];
    } else if QuoteMark(s[0]) {
      gs := StrReads(s);
    } else if PairAt(s, 0, '/', '/') {
      gs := LineReads(s);
    } else if PairAt(s, 0, '/', '*') {
      gs := BlockReads(s);
    } else {
      var rest := EveryTextReads(s[1..]);
      gs := CodeFirst(s[0], rest);
      CodeReads(s, rest);
    }
  }

  lemma {:induction false} StrReads(s: string) returns (gs: seq<Part>)
    requires s != "" && QuoteMark(s[0])
    ensures WellFormed(gs) && Render(gs) == s
    decreases |s|, 0
  {
    var q := s[0];
    var n := FindQuote(s[1..], q);
    var b := s[1..][..n];
    if n == |s| - 1 {
      gs := [OpenStr(q, b)];
      assert Render(gs[1..]) == "" && Render(gs) == [q] + b;
      assert b == s[1..] && s == [q] + b;
    } else {
      var rest := EveryTextReads(s[n + 2..]);
      gs := [Str(q, b)] + rest;
      assert gs[1..] == rest;
      StrCut(s, n, q);
    }
  }

  lemma StrCut(s: string, n: nat, q: char)
    requires n + 2 <= |s| && s[0] == q && s[1..][n] == q
    ensures s == [q] + s[1..][..n] + [q] + s[n + 2..]
  {
  }

  lemma {:induction false} LineReads(s: string) returns (gs: seq<Part>)
    requires s != "" && PairAt(s, 0, '/', '/')
    ensures WellFormed(gs) && Render(gs) == s
    decreases |s|, 0
  {
    var n := FindChar(s[2..], '\n');
    var c := s[2..][..n];
    if n == |s| - 2 {
      gs := [OpenLine(c)];
      assert Render(gs[1..]) == "" && Render(gs) == "//" + c;
      assert s == "//" + c;
    } else {
      var rest := EveryTextReads(s[n + 3..]);
      gs := [LineNote(c)] + rest;
      assert gs[1..] == rest;
      assert s == "//" + c + "\n" + s[n + 3..];
    }
  }

  lemma {:induction false} BlockReads(s: string) returns (gs: seq<Part>)
    requires s != "" && PairAt(s, 0, '/', '*')
    ensures WellFormed(gs) && Render(gs) == s
    decreases |s|, 0
  {
    var n := FindPair(s[2..], '*', '/');
    var c := s[2..][..n];
    if n == |s| - 2 {
      gs := [OpenBlock(c)];
      assert Render(gs[1..]) == "" && Render(gs) == "/*" + c;
      assert s == "/*" + c;
    } else {
      var rest := EveryTextReads(s[n + 4..]);
      gs := [BlockNote(c)] + rest;
      assert gs[1..] == rest;
      assert s == "/*" + c + "*/" + s[n + 4..];
    }
  }

  /** One more character of code in front. */
  function CodeFirst(c: char, rest: seq<Part>): seq<Part> {
    if rest != [] && rest[0].Code? then [Code([c] + rest[0].text)] + rest[1..] else [Code([c])] + rest
  }

  lemma CodeReads(s: string, rest: seq<Part>)
    requires s != "" && !QuoteMark(s[0]) && !PairAt(s, 0, '/', '/') && !PairAt(s, 0, '/', '*')
    requires WellFormed(rest) && Render(rest) == s[1..]
    ensures WellFormed(CodeFirst(s[0], rest)) && Render(CodeFirst(s[0], rest)) == s
  {
    var c, gs := s[0], CodeFirst(s[0], rest);
    if rest != [] && rest[0].Code? {
      assert s[1] == rest[0].text[0];
      MoreCode(c, rest);
    } else {
      assert gs[1..] == rest;
      assert rest != [] && Note(rest[0]) ==> s[1] == '/';
    }
    assert s == [c] + s[1..];
  }

  lemma MoreCode(c: char, rest: seq<Part>)
    requires rest != [] && rest[0].Code? && WellFormed(rest) && !QuoteMark(c)
    requires !(c == '/' && rest[0].text[0] == '/') && !(c == '/' && rest[0].text[0] == '*')
    ensures WellFormed(CodeFirst(c, rest)) && Render(CodeFirst(c, rest)) == [c] + Render(rest)
  {
    var b, gs := rest[0].text, CodeFirst(c, rest);
    assert gs[1..] == rest[1..] && (|gs| > 1 ==> gs[1] == rest[1]);
    CodeProper(c, b);
    Together([c], b, Render(rest[1..]));
  }

  lemma Together(a: string, b: string, c: string)
    ensures a + (b + c) == a + b + c
    ensures b != "" ==> (a + b)[|a + b| - 1] == b[|b| - 1]
  {
  }

  lemma CodeProper(c: char, b: string)
    requires Proper(Code(b)) && !QuoteMark(c)
    requires !(c == '/' && b[0] == '/') && !(c == '/' && b[0] == '*')
    ensures Proper(Code([c] + b))
  {
    var a := [c] + b;
    forall i | 0 <= i < |a|
      ensures !PairAt(a, i, '/', '/') && !PairAt(a, i, '/', '*')
    {
      if i > 0 {
        assert !PairAt(b, i - 1, '/', '/') && !PairAt(b, i - 1, '/', '*');
      }
    }
  }

  // ---------------------------------------------------------------- the lines of a declaration

  /** Whatever lines `i` to `j - 1` are made of, the scan counts the braces outside strings and comments. */
  lemma AfterByParts(lines: seq<string>, i: nat, j: nat, gs: seq<Part>)
    requires NoNewlines(lines) && i <= j <= |lines|
    requires WellFormed(gs) && Render(gs) == JoinLines(lines[i..j])
    ensures After(lines, i, j) == LeftOpen(Counted(SCAN_START, CodeText(gs)), gs)
  {
    AfterIsLinesScan(lines, i, j);
    assert forall l <- lines[i..j] :: l in lines;
    LinesAreText(lines[i..j], SCAN_START);
    ScanByParts(gs, SCAN_START);
  }

  /** A declaration closes on line `j` exactly when by then some brace was opened outside strings and
      comments, and as many were closed as opened. */
  lemma ClosesByParts(lines: seq<string>, i: nat, j: nat, gs: seq<Part>)
    requires NoNewlines(lines) && i <= j < |lines|
    requires WellFormed(gs) && Render(gs) == JoinLines(lines[i..j + 1])
    ensures
      Closes(lines, i, j) <==>
      '{' in CodeText(gs) && multiset(CodeText(gs))['{'] == multiset(CodeText(gs))['}']
  {
    AfterByParts(lines, i, j + 1, gs);
    LeftOpenBraces(Counted(SCAN_START, CodeText(gs)), gs);
  }

  lemma LeftOpenBraces(s: Scan, gs: seq<Part>)
    ensures LeftOpen(s, gs).braces == s.braces && LeftOpen(s, gs).found == s.found
  {
  }

  /** Every stretch of lines is made of parts. */
  lemma LinesRead(lines: seq<string>, i: nat, j: nat) returns (gs: seq<Part>)
    requires i <= j <= |lines|
    ensures WellFormed(gs) && Render(gs) == JoinLines(lines[i..j])
  {
    gs := EveryTextReads(JoinLines(lines[i..j]));
  }
}
