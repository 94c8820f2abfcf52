/**
 What splitSql makes of a text, told from what the text is made of: code, quotations, semicolons and
 comments. Every text is made of these.
 */
module SqlGrammar {
  import opened JsText
  import opened SplitSql

  /** The last three run to the end of the text. */
  datatype Segment =
    | Code(text: string)
    | Quotation(q: char, text: string)
    | Semicolon
    | LineNote(text: string)
    | BlockNote(text: string)
    | OpenQuotation(q: char, text: string)
    | OpenLine(text: string)
    | OpenBlock(text: string)

  predicate Open(g: Segment) {
    g.OpenQuotation? || g.OpenLine? || g.OpenBlock?
  }

  /** Code has no quotes, semicolons or comment marks; a quotation none of its own quotes; a comment does
      not hold its own end. */
  predicate Proper(g: Segment) {
    match g
    case Code(a) =>
      a != "" && (forall c <- a :: c != ';' && !Quote(c)) && !HasPair(a, '-', '-') && !HasPair(a, '/', '*')
    case Quotation(q, a) => Quote(q) && q !in a
    case Semicolon => true
    case LineNote(c) => '\n' !in c
    case BlockNote(c) => !HasPair(c, '*', '/')
    case OpenQuotation(q, a) => Quote(q) && q !in a
    case OpenLine(c) => '\n' !in c
    case OpenBlock(c) => !HasPair(c, '*', '/')
  }

  /** Whether `h` can come right after `g`. */
  predicate MayFollow(g: Segment, h: Segment) {
    && !Open(g)
    && (g.Code? && g.text != "" ==> !h.Code? && (h.LineNote? || h.OpenLine? ==> g.text[|g.text| - 1] != '-'))
  }

  predicate WellFormed(gs: seq<Segment>) {
    gs == [] || (Proper(gs[0]) && (|gs| > 1 ==> MayFollow(gs[0], gs[1])) && WellFormed(gs[1..]))
  }

  function Written(g: Segment): string {
    match g
    case Code(a) => a
    case Quotation(q, a) => [q] + a + [q]
    case Semicolon => ";"
    case LineNote(c) => "--" + c + "\n"
    case BlockNote(c) => "/*" + c + "*/"
    case OpenQuotation(q, a) => [q] + a
    case OpenLine(c) => "--" + c
    case OpenBlock(c) => "/*" + c
  }

  function Render(gs: seq<Segment>): string {
    if gs == [] then "" else Written(gs[0]) + Render(gs[1..])
  }

  /** The statements between the semicolons: code and quotations, without the comments. */
  function Statements(gs: seq<Segment>): (r: seq<string>)
    ensures r != []
  {
    if gs == [] then [""]
    else
      var rest := Statements(gs[1..]);
      match gs[0]
      case Semicolon => [""] + rest
      case LineNote(_) => rest
      case BlockNote(_) => rest
      case OpenLine(_) => rest
      case OpenBlock(_) => rest
      case _ => [Written(gs[0]) + rest[0]] + rest[1..]
  }

  // ---------------------------------------------------------------- what the scan makes of a segment

  lemma {:induction false} CodeEmits(a: string, rest: string)
    requires forall c <- a :: c != ';' && !Quote(c)
    requires !HasPair(a, '-', '-') && !HasPair(a, '/', '*')
    requires a != "" && rest != "" ==> rest[0] != '*' && (rest[0] == '-' ==> a[|a| - 1] != '-')
    ensures Emit(a + rest, Plain) == Texts(a) + Emit(rest, Plain)
  {
    if a == "" {
      assert a + rest == rest;
    } else {
      PairInRest(a, '-', '-');
      PairInRest(a, '/', '*');
      assert forall c <- a[1..] :: c in a;
      assert (a + rest)[1..] == a[1..] + rest;
      CodeEmits(a[1..], rest);
      assert a[0] in a;
      assert Texts(a[..1]) == [Text(a[0])];
      TextsAppend(a, 1, Emit(rest, Plain));
    }
  }

  /** Inside a quotation, up to its closing quote; two quotes in a row close it and open it again. */
  lemma {:induction false} QuotedEmits(q: char, a: string, rest: string)
    requires Quote(q) && q !in a
    ensures Emit(a + [q] + rest, Quoted(q)) == Texts(a) + ([Text(q)] + Emit(rest, Plain))
  {
    var all := a + [q] + rest;
    if a == "" {
      assert all == [q] + rest && all[1..] == rest;
      if rest != "" && rest[0] == q {
        assert all[2..] == rest[1..];
        assert [Text(q), Text(q)] + Emit(rest[1..], Quoted(q)) == [Text(q)] + ([Text(q)] + Emit(rest[1..], Quoted(q)));
      }
      assert Texts(a) + ([Text(q)] + Emit(rest, Plain)) == [Text(q)] + Emit(rest, Plain);
    } else {
      assert a[0] in a && all[0] == a[0] && all[1..] == a[1..] + [q] + rest;
      assert forall c <- a[1..] :: c in a;
      QuotedEmits(q, a[1..], rest);
      assert Texts(a[..1]) == [Text(a[0])];
      TextsAppend(a, 1, [Text(q)] + Emit(rest, Plain));
    }
  }

  lemma {:induction false} OpenQuotedEmits(q: char, a: string)
    requires q !in a
    ensures Emit(a, Quoted(q)) == Texts(a)
  {
    if a != "" {
      assert a[0] in a && forall c <- a[1..] :: c in a;
      OpenQuotedEmits(q, a[1..]);
      assert Texts(a) == [Text(a[0])] + Texts(a[1..]);
    }
  }

  lemma {:induction false} LineNoteEmits(c: string, rest: string)
    requires '\n' !in c
    ensures Emit(c + "\n" + rest, LineComment) == Emit(rest, Plain)
  {
    var all := c + "\n" + rest;
    if c == "" {
      assert all == "\n" + rest && all[1..] == rest;
    } else {
      assert c[0] in c && all[0] == c[0] && all[1..] == c[1..] + "\n" + rest;
      assert forall x <- c[1..] :: x in c;
      LineNoteEmits(c[1..], rest);
    }
  }

  lemma {:induction false} OpenLineEmits(c: string)
    requires '\n' !in c
    ensures Emit(c, LineComment) == []
  {
    if c != "" {
      assert c[0] in c && forall x <- c[1..] :: x in c;
      OpenLineEmits(c[1..]);
    }
  }

  lemma {:induction false} BlockNoteEmits(c: string, rest: string)
    requires !HasPair(c, '*', '/')
    ensures Emit(c + "*/" + rest, BlockComment) == Emit(rest, Plain)
  {
    var all := c + "*/" + rest;
    if c == "" {
      assert all == "*/" + rest && all[2..] == rest;
    } else {
      PairInRest(c, '*', '/');
      assert all[0] == c[0] && all[1..] == c[1..] + "*/" + rest;
      assert !Starts(all, '*', '/');
      BlockNoteEmits(c[1..], rest);
    }
  }

  lemma {:induction false} OpenBlockEmits(c: string)
    requires !HasPair(c, '*', '/')
    ensures Emit(c, BlockComment) == []
  {
    if c != "" {
      PairInRest(c, '*', '/');
      OpenBlockEmits(c[1..]);
    }
  }

  /** What can come after a segment. */
  predicate Boundary(g: Segment, rest: string) {
    && (Open(g) ==> rest == "")
    && (g.Code? && g.text != "" && rest != "" ==> rest[0] != '*' && (rest[0] == '-' ==> g.text[|g.text| - 1] != '-'))
  }

  lemma NoteEmits(g: Segment, rest: string)
    requires Proper(g) && Boundary(g, rest) && (g.LineNote? || g.BlockNote? || g.OpenLine? || g.OpenBlock?)
    ensures Emit(Written(g) + rest, Plain) == Emit(rest, Plain)
  {
    var all := Written(g) + rest;
    assert Open(g) ==> all == Written(g);
    match g
    case LineNote(c) =>
      assert all[2..] == c + "\n" + rest;
      LineNoteEmits(c, rest);
    case BlockNote(c) =>
      assert all[2..] == c + "*/" + rest;
      BlockNoteEmits(c, rest);
    case OpenLine(c) =>
      assert all[2..] == c;
      OpenLineEmits(c);
    case OpenBlock(c) =>
      assert all[2..] == c;
      OpenBlockEmits(c);
  }

  lemma QuotationEmits(q: char, a: string, rest: string)
    requires Quote(q) && q !in a
    ensures Emit([q] + a + [q] + rest, Plain) == Texts([q] + a + [q]) + Emit(rest, Plain)
  {
    assert ([q] + a + [q] + rest)[1..] == a + [q] + rest;
    QuotedEmits(q, a, rest);
    assert Texts([q] + a + [q]) == [Text(q)] + Texts(a) + [Text(q)];
  }

  lemma TextEmits(g: Segment, rest: string)
    requires Proper(g) && Boundary(g, rest) && (g.Code? || g.Quotation? || g.OpenQuotation?)
    ensures Emit(Written(g) + rest, Plain) == Texts(Written(g)) + Emit(rest, Plain)
  {
    match g
    case Code(a) => CodeEmits(a, rest);
    case Quotation(q, a) => QuotationEmits(q, a, rest);
    case OpenQuotation(q, a) =>
      assert Written(g) + rest == [q] + a && ([q] + a)[1..] == a;
      OpenQuotedEmits(q, a);
      assert Texts(Written(g)) + [] == Texts([q] + a) == [Text(q)] + Texts(a);
  }

  /** What may follow a segment begins as the segment needs it. */
  lemma FollowsBoundary(gs: seq<Segment>)
    requires WellFormed(gs) && gs != []
    ensures Boundary(gs[0], Render(gs[1..]))
  {
    if |gs| > 1 {
      assert gs[1..][0] == gs[1];
      assert Written(gs[1]) != "";
      assert Render(gs[1..])[0] == Written(gs[1])[0];
      if !gs[1].Code? {
        assert Written(gs[1])[0] != '*';
        assert Written(gs[1])[0] == '-' ==> gs[1].LineNote? || gs[1].OpenLine?;
      }
    }
  }

  /** Splitting takes a text apart as its segments say: at the semicolons outside quotations and comments,
      keeping code and quotations as they are and nothing of the comments. */
  lemma {:induction false} SplitBySegments(gs: seq<Segment>)
    requires WellFormed(gs)
    ensures Parts(Emit(Render(gs), Plain)) == Statements(gs)
    ensures Split(Render(gs)) == Kept(Statements(gs))
  {
    if gs != [] {
      var g, rest := gs[0], Render(gs[1..]);
      FollowsBoundary(gs);
      SplitBySegments(gs[1..]);
      match g
      case Semicolon => SemicolonParts(rest);
      case Code(_) => TextSegment(g, rest);
      case Quotation(_, _) => TextSegment(g, rest);
      case OpenQuotation(_, _) => TextSegment(g, rest);
      case _ => NoteEmits(g, rest);
    }
  }

  lemma SemicolonParts(rest: string)
    ensures Parts(Emit(";" + rest, Plain)) == [""] + Parts(Emit(rest, Plain))
  {
    assert (";" + rest)[1..] == rest;
    assert ([Separator] + Emit(rest, Plain))[1..] == Emit(rest, Plain);
  }

  lemma TextSegment(g: Segment, rest: string)
    requires Proper(g) && Boundary(g, rest) && (g.Code? || g.Quotation? || g.OpenQuotation?)
    ensures
      var parts := Parts(Emit(rest, Plain));
      Parts(Emit(Written(g) + rest, Plain)) == [Written(g) + parts[0]] + parts[1..]
  {
    TextEmits(g, rest);
    PartsOfTexts(Written(g), Emit(rest, Plain));
  }

  // ---------------------------------------------------------------- every text is made of segments

  /** Every text can be read as segments. */
  lemma {:induction false} EveryTextReads(s: string) returns (gs: seq<Segment>)
    ensures WellFormed(gs) && Render(gs) == s
    decreases |s|
  {
    if s == "" {
      gs := [];
    } else if Quote(s[0]) {
      gs := QuotationReads(s);
    } else if Starts(s, '-', '-') {
      gs := LineReads(s);
    } else if Starts(s, '/', '*') {
      gs := BlockReads(s);
    } else {
      var rest := EveryTextReads(s[1..]);
      gs := if s[0] == ';' then [Semicolon] + rest else CodeFirst(s[0], rest);
      if s[0] != ';' {
        CodeReads(s, rest);
      }
      assert s == [s[0]] + s[1..];
      assert s[0] == ';' ==> gs[1..] == rest;
    }
  }

  lemma {:induction false} QuotationReads(s: string) returns (gs: seq<Segment>)
    requires s != "" && Quote(s[0])
    ensures WellFormed(gs) && Render(gs) == s
    decreases |s|, 0
  {
    var q := s[0];
    var n := FindChar(s[1..], q);
    var a := s[1..][..n];
    if n == |s| - 1 {
      gs := [OpenQuotation(q, a)];
      assert Render(gs[1..]) == "" && Render(gs) == [q] + a;
      assert s == [q] + a;
    } else {
      var rest := EveryTextReads(s[n + 2..]);
      gs := [Quotation(q, a)] + rest;
      assert gs[1..] == rest;
      QuotationCut(s, n, q);
    }
  }

  lemma QuotationCut(s: string, n: nat, q: char)
    requires n + 2 <= |s| && s[0] == q && s[1..][n] == q
    ensures s == [q] + s[1..][..n] + [q] + s[n + 2..]
  {
  }

  lemma {:induction false} LineReads(s: string) returns (gs: seq<Segment>)
    requires Starts(s, '-', '-')
    ensures WellFormed(gs) && Render(gs) == s && gs != [] && (gs[0].LineNote? || gs[0].OpenLine?)
    decreases |s|, 0
  {
    var n := FindChar(s[2..], '\n');
    var c := s[2..][..n];
    if n == |s| - 2 {
      gs := [OpenLine(c)];
      assert Render(gs[1..]) == "" && Render(gs) == "--" + c;
      assert s == "--" + c;
    } else {
      var rest := EveryTextReads(s[n + 3..]);
      gs := [LineNote(c)] + rest;
      assert gs[1..] == rest;
      assert s == "--" + c + "\n" + s[n + 3..];
    }
  }

  lemma {:induction false} BlockReads(s: string) returns (gs: seq<Segment>)
    requires Starts(s, '/', '*')
    ensures WellFormed(gs) && Render(gs) == s
    decreases |s|, 0
  {
    var n := FindPair(s[2..], '*', '/');
    var c := s[2..][..n];
    if n == |s| - 2 {
      gs := [OpenBlock(c)];
      assert Render(gs[1..]) == "" && Render(gs) == "/*" + c;
      assert s == "/*" + c;
    } else {
      var rest := EveryTextReads(s[n + 4..]);
      gs := [BlockNote(c)] + rest;
      assert gs[1..] == rest;
      assert s == "/*" + c + "*/" + s[n + 4..];
    }
  }

  /** One more character of code in front. */
  function CodeFirst(c: char, rest: seq<Segment>): seq<Segment> {
    if rest != [] && rest[0].Code? then [Code([c] + rest[0].text)] + rest[1..] else [Code([c])] + rest
  }

  lemma CodeReads(s: string, rest: seq<Segment>)
    requires s != "" && s[0] != ';' && !Quote(s[0]) && !Starts(s, '-', '-') && !Starts(s, '/', '*')
    requires WellFormed(rest) && Render(rest) == s[1..]
    ensures WellFormed(CodeFirst(s[0], rest)) && Render(CodeFirst(s[0], rest)) == s
  {
    var c, gs := s[0], CodeFirst(s[0], rest);
    if rest != [] && rest[0].Code? {
      assert s[1] == rest[0].text[0];
      MoreCode(c, rest);
    } else {
      assert gs[1..] == rest;
      assert rest != [] && (rest[0].LineNote? || rest[0].OpenLine?) ==> s[1] == '-';
    }
    assert s == [c] + s[1..];
  }

  lemma MoreCode(c: char, rest: seq<Segment>)
    requires rest != [] && rest[0].Code? && WellFormed(rest) && c != ';' && !Quote(c)
    requires !(c == '-' && rest[0].text[0] == '-') && !(c == '/' && rest[0].text[0] == '*')
    ensures WellFormed(CodeFirst(c, rest)) && Render(CodeFirst(c, rest)) == [c] + Render(rest)
  {
    var b, gs := rest[0].text, CodeFirst(c, rest);
    assert gs[1..] == rest[1..] && (|gs| > 1 ==> gs[1] == rest[1]);
    CodeProper(c, b);
    Together([c], b, Render(rest[1..]));
  }

  lemma Together(a: string, b: string, c: string)
    ensures a + (b + c) == a + b + c
    ensures b != "" ==> (a + b)[|a + b| - 1] == b[|b| - 1]
  {
  }

  lemma CodeProper(c: char, b: string)
    requires Proper(Code(b)) && c != ';' && !Quote(c)
    requires !(c == '-' && b[0] == '-') && !(c == '/' && b[0] == '*')
    ensures Proper(Code([c] + b))
  {
    var a := [c] + b;
    forall i | 0 <= i < |a|
      ensures !PairAt(a, i, '-', '-') && !PairAt(a, i, '/', '*')
    {
      if i > 0 {
        assert !PairAt(b, i - 1, '-', '-') && !PairAt(b, i - 1, '/', '*');
      }
    }
  }

  /** So this says of every text what splitting it gives. */
  lemma SplitOfEveryText(sql: string) returns (gs: seq<Segment>)
    ensures WellFormed(gs) && Render(gs) == sql
    ensures Split(sql) == Kept(Statements(gs))
  {
    gs := EveryTextReads(sql);
    SplitBySegments(gs);
  }
}
