/**
 packages/edge/src/splitSql.ts: cutting SQL text into statements at the semicolons that are neither
 quoted nor in a comment.
 */
module SplitSql {
  import opened JsText
  import opened Options

  // ---------------------------------------------------------------- what the scan keeps

  datatype Mode = Plain | Quoted(quote: char) | LineComment | BlockComment

  datatype Piece = Text(c: char) | Separator

  predicate Starts(s: string, a: char, b: char) {
    |s| >= 2 && s[0] == a && s[1] == b
  }

  predicate Quote(c: char) {
    c == '\'' || c == '"'
  }

  /** The text without its comments, top-level semicolons turned into separators. */
  function Emit(s: string, m: Mode): seq<Piece>
    decreases |s|
  {
    if s == [] then []
    else
      match m
      case LineComment => Emit(s[1..], if s[0] == '\n' then Plain else LineComment)
      case BlockComment => if Starts(s, '*', '/') then Emit(s[2..], Plain) else Emit(s[1..], BlockComment)
      case Quoted(q) =>
        if Starts(s, q, q) then [Text(q), Text(q)] + Emit(s[2..], m)
        else [Text(s[0])] + Emit(s[1..], if s[0] == q then Plain else m)
      case Plain =>
        if Starts(s, '-', '-') then Emit(s[2..], LineComment)
        else if Starts(s, '/', '*') then Emit(s[2..], BlockComment)
        else if s[0] == ';' then [Separator] + Emit(s[1..], Plain)
        else [Text(s[0])] + Emit(s[1..], if Quote(s[0]) then Quoted(s[0]) else Plain)
  }

  /** The texts between the separators, empty ones too. */
  function Parts(pieces: seq<Piece>): (r: seq<string>)
    ensures r != []
  {
    if pieces == [] then [""]
    else
      var rest := Parts(pieces[1..]);
      match pieces[0]
      case Separator => [""] + rest
      case Text(c) => [[c] + rest[0]] + rest[1..]
  }

  function Kept(parts: seq<string>): seq<string> {
    if parts == [] then []
    else (if Trim(parts[0]) == "" then [] else [Trim(parts[0])]) + Kept(parts[1..])
  }

  function Split(sql: string): seq<string> {
    Kept(Parts(Emit(sql, Plain)))
  }

  /** What a started statement and the pieces still to come make. */
  function Finish(current: string, pieces: seq<Piece>): seq<string> {
    var rest := Parts(pieces);
    Kept([current + rest[0]] + rest[1..])
  }

  lemma FinishText(current: string, c: char, pieces: seq<Piece>)
    ensures Finish(current, [Text(c)] + pieces) == Finish(current + [c], pieces)
  {
    assert ([Text(c)] + pieces)[1..] == pieces;
    assert current + ([c] + Parts(pieces)[0]) == current + [c] + Parts(pieces)[0];
  }

  lemma FinishTexts(current: string, c: char, d: char, pieces: seq<Piece>)
    ensures Finish(current, [Text(c), Text(d)] + pieces) == Finish(current + [c] + [d], pieces)
  {
    assert [Text(c), Text(d)] + pieces == [Text(c)] + ([Text(d)] + pieces);
    FinishText(current, c, [Text(d)] + pieces);
    FinishText(current + [c], d, pieces);
  }

  function Whole(current: string): seq<string> {
    if Trim(current) == "" then [] else [Trim(current)]
  }

  lemma FinishSeparator(current: string, pieces: seq<Piece>)
    ensures
      Finish(current, [Separator] + pieces) ==
      Whole(current) + Finish("", pieces)
  {
    var rest := Parts(pieces);
    assert ([Separator] + pieces)[1..] == pieces;
    assert Parts([Separator] + pieces) == [""] + rest;
    assert ([""] + rest)[1..] == rest && ([current] + rest)[1..] == rest;
    assert current + "" == current && "" + rest[0] == rest[0];
    assert [rest[0]] + rest[1..] == rest;
  }

  lemma FinishEnd(current: string, m: Mode)
    ensures Finish(current, Emit([], m)) == Whole(current)
  {
    assert current + "" == current;
    assert [current] + [""][1..] == [current];
    assert Kept([current][1..]) == [];
  }

  lemma Pushed(statements: seq<string>, current: string, rest: seq<string>)
    ensures
      statements + (Whole(current) + rest) ==
      (if |Trim(current)| > 0 then statements + [Trim(current)] else statements) + rest
  {
  }

  /** The statements still to come when the scan stands at position `i`. */
  ghost function ToCome(current: string, sql: string, i: nat, m: Mode): seq<string>
    requires i <= |sql|
    decreases |sql| - i
  {
    if i == |sql| then Whole(current)
    else
      match m
      case LineComment => ToCome(current, sql, i + 1, if sql[i] == '\n' then Plain else LineComment)
      case BlockComment =>
        if PairAt(sql, i, '*', '/') then ToCome(current, sql, i + 2, Plain)
        else ToCome(current, sql, i + 1, BlockComment)
      case Quoted(q) =>
        if PairAt(sql, i, q, q) then ToCome(current + [q] + [q], sql, i + 2, Quoted(q))
        else ToCome(current + [sql[i]], sql, i + 1, if sql[i] == q then Plain else Quoted(q))
      case Plain =>
        if PairAt(sql, i, '-', '-') then ToCome(current, sql, i + 2, LineComment)
        else if PairAt(sql, i, '/', '*') then ToCome(current, sql, i + 2, BlockComment)
        else if sql[i] == ';' then Whole(current) + ToCome("", sql, i + 1, Plain)
        else ToCome(current + [sql[i]], sql, i + 1, if Quote(sql[i]) then Quoted(sql[i]) else Plain)
  }

  /** Reading one character at a time or the whole text at once comes to the same. */
  lemma {:induction false} ScanFinishes(current: string, sql: string, i: nat, m: Mode)
    requires i <= |sql|
    ensures ToCome(current, sql, i, m) == Finish(current, Emit(sql[i..], m))
    decreases |sql| - i, 1
  {
    if i == |sql| {
      FinishEnd(current, m);
    } else {
      match m
      case LineComment => CommentFinishes(current, sql, i, m);
      case BlockComment => CommentFinishes(current, sql, i, m);
      case Quoted(_) => QuotedFinishes(current, sql, i, m);
      case Plain => PlainFinishes(current, sql, i);
    }
  }

  lemma RestOf(sql: string, i: nat)
    requires i < |sql|
    ensures sql[i..][1..] == sql[i + 1..]
    ensures i + 2 <= |sql| ==> sql[i..][2..] == sql[i + 2..]
  {
  }

  lemma {:induction false} CommentFinishes(current: string, sql: string, i: nat, m: Mode)
    requires i < |sql| && (m.LineComment? || m.BlockComment?)
    ensures ToCome(current, sql, i, m) == Finish(current, Emit(sql[i..], m))
    decreases |sql| - i, 0
  {
    RestOf(sql, i);
    if m.LineComment? {
      ScanFinishes(current, sql, i + 1, if sql[i] == '\n' then Plain else LineComment);
    } else if PairAt(sql, i, '*', '/') {
      ScanFinishes(current, sql, i + 2, Plain);
    } else {
      ScanFinishes(current, sql, i + 1, BlockComment);
    }
  }

  lemma {:induction false} QuotedFinishes(current: string, sql: string, i: nat, m: Mode)
    requires i < |sql| && m.Quoted?
    ensures ToCome(current, sql, i, m) == Finish(current, Emit(sql[i..], m))
    decreases |sql| - i, 0
  {
    RestOf(sql, i);
    var c, q := sql[i], m.quote;
    if PairAt(sql, i, q, q) {
      ScanFinishes(current + [q] + [q], sql, i + 2, m);
      FinishTexts(current, q, q, Emit(sql[i + 2..], m));
    } else {
      var m' := if c == q then Plain else m;
      ScanFinishes(current + [c], sql, i + 1, m');
      FinishText(current, c, Emit(sql[i + 1..], m'));
    }
  }

  lemma {:induction false} PlainFinishes(current: string, sql: string, i: nat)
    requires i < |sql|
    ensures ToCome(current, sql, i, Plain) == Finish(current, Emit(sql[i..], Plain))
    decreases |sql| - i, 0, 1
  {
    RestOf(sql, i);
    if PairAt(sql, i, '-', '-') {
      ScanFinishes(current, sql, i + 2, LineComment);
    } else if PairAt(sql, i, '/', '*') {
      ScanFinishes(current, sql, i + 2, BlockComment);
    } else {
      CharFinishes(current, sql, i);
    }
  }

  lemma {:induction false} CharFinishes(current: string, sql: string, i: nat)
    requires i < |sql| && !PairAt(sql, i, '-', '-') && !PairAt(sql, i, '/', '*')
    ensures ToCome(current, sql, i, Plain) == Finish(current, Emit(sql[i..], Plain))
    decreases |sql| - i, 0, 0
  {
    RestOf(sql, i);
    var c := sql[i];
    if c == ';' {
      ScanFinishes("", sql, i + 1, Plain);
      FinishSeparator(current, Emit(sql[i + 1..], Plain));
    } else {
      var m' := if Quote(c) then Quoted(c) else Plain;
      ScanFinishes(current + [c], sql, i + 1, m');
      FinishText(current, c, Emit(sql[i + 1..], m'));
    }
  }

  lemma FinishStart(sql: string)
    ensures ToCome("", sql, 0, Plain) == Split(sql)
  {
    ScanFinishes("", sql, 0, Plain);
    assert sql[0..] == sql;
    var rest := Parts(Emit(sql, Plain));
    assert "" + rest[0] == rest[0];
    assert [rest[0]] + rest[1..] == rest;
  }

  /** At most one of the four flags is up, and it is the one of this mode. */
  predicate Flags(m: Mode, single: bool, double: bool, line: bool, block: bool) {
    && (line <==> m == LineComment)
    && (block <==> m == BlockComment)
    && (single <==> m == Quoted('\''))
    && (double <==> m == Quoted('"'))
    && (m.Quoted? ==> Quote(m.quote))
  }

  predicate AllKept(parts: seq<string>) {
    forall p <- parts :: p != "" && Trim(p) == p
  }

  /** One loop over the characters: four flags, the statement being read and those already read. */
  method SplitStatements(sql: string) returns (statements: seq<string>)
    ensures statements == Split(sql)
    ensures AllKept(statements)
  {
    statements := [];
    var current := "";
    var single, double, line, block := false, false, false, false;
    var i := 0;
    FinishStart(sql);
    ghost var mode := Plain;
    while i < |sql|
      invariant 0 <= i <= |sql|
      invariant Flags(mode, single, double, line, block)
      invariant AllKept(statements)
      invariant statements + ToCome(current, sql, i, mode) == Split(sql)
    {
      var c := sql[i];
      var next := if i + 1 < |sql| then [sql[i + 1]] else "";
      if line {
        if c == '\n' {
          line, mode := false, Plain;
        }
      } else if block {
        if c == '*' && next == "/" {
          block, mode := false, Plain;
          i := i + 1;
        }
      } else if single {
        current := current + [c];
        if c == '\'' {
          if next == "'" {
            current := current + "'";
            i := i + 1;
          } else {
            single, mode := false, Plain;
          }
        }
      } else if double {
        current := current + [c];
        if c == '"' {
          if next == "\"" {
            current := current + "\"";
            i := i + 1;
          } else {
            double, mode := false, Plain;
          }
        }
      } else if c == '-' && next == "-" {
        line, mode := true, LineComment;
        i := i + 1;
      } else if c == '/' && next == "*" {
        block, mode := true, BlockComment;
        i := i + 1;
      } else if c == '\'' {
        single, mode := true, Quoted(c);
        current := current + [c];
      } else if c == '"' {
        double, mode := true, Quoted(c);
        current := current + [c];
      } else if c == ';' {
        Pushed(statements, current, ToCome("", sql, i + 1, Plain));
        if |Trim(current)| > 0 {
          TrimTwice(current);
          statements := statements + [Trim(current)];
        }
        current := "";
      } else {
        current := current + [c];
      }
      i := i + 1;
    }
    if |Trim(current)| > 0 {
      TrimTwice(current);
      statements := statements + [Trim(current)];
    }
    KeptTwice(statements);
    return Nonblank(statements);
  }

  /** The last filter of the source. */
  function Nonblank(statements: seq<string>): seq<string> {
    if statements == [] then []
    else (if Trim(statements[0]) == "" then [] else [statements[0]]) + Nonblank(statements[1..])
  }

  lemma {:induction false} KeptTwice(statements: seq<string>)
    requires AllKept(statements)
    ensures Nonblank(statements) == statements
  {
    if statements != [] {
      assert statements[0] in statements;
      KeptTwice(statements[1..]);
    }
  }

  // ---------------------------------------------------------------- joining and splitting again

  function Join(statements: seq<string>): string {
    if |statements| == 0 then ""
    else if |statements| == 1 then statements[0]
    else statements[0] + ";" + Join(statements[1..])
  }

  function Texts(s: string): (r: seq<Piece>)
    ensures |r| == |s|
  {
    seq(|s|, i requires 0 <= i < |s| => Text(s[i]))
  }

  predicate Reading(m: Mode) {
    m == Plain || (m.Quoted? && Quote(m.quote))
  }

  /** Where reading `s` ends, unless it meets a comment or a semicolon outside quotes. */
  function Walk(s: string, m: Mode): (r: Option<Mode>)
    ensures r.Some? && Reading(m) ==> Reading(r.value)
    decreases |s|
  {
    if s == [] then Some(m)
    else
      match m
      case LineComment => None
      case BlockComment => None
      case Quoted(q) =>
        if Starts(s, q, q) then Walk(s[2..], m) else Walk(s[1..], if s[0] == q then Plain else m)
      case Plain =>
        if s[0] == ';' || Starts(s, '-', '-') || Starts(s, '/', '*') then None
        else Walk(s[1..], if Quote(s[0]) then Quoted(s[0]) else Plain)
  }

  /**
   What a caller can check of the statements before joining them: each is trimmed, not empty and free
   of comments and semicolons outside quotes, and only the last may leave a quote open.
   */
  predicate Joinable(statements: seq<string>) {
    statements == [] ||
    (&& statements[0] != ""
     && Trim(statements[0]) == statements[0]
     && Walk(statements[0], Plain).Some?
     && (|statements| > 1 ==> Walk(statements[0], Plain) == Some(Plain))
     && Joinable(statements[1..]))
  }

  /** Comments only ever shorten the text. */
  lemma {:induction false} EmitLength(s: string, m: Mode)
    ensures |Emit(s, m)| <= |s|
    decreases |s|
  {
    if s != [] {
      forall m'
        ensures |Emit(s[1..], m')| <= |s| - 1
      {
        EmitLength(s[1..], m');
      }
      if |s| >= 2 {
        forall m'
          ensures |Emit(s[2..], m')| <= |s| - 2
        {
          EmitLength(s[2..], m');
        }
      }
    }
  }

  lemma StartsAppend(s: string, rest: string, a: char, b: char)
    requires s != [] && (rest == [] || rest[0] == ';') && b != ';'
    ensures Starts(s + rest, a, b) <==> Starts(s, a, b)
  {
  }

  lemma TextsAppend(s: string, n: nat, x: seq<Piece>)
    requires n <= |s|
    ensures Texts(s[..n]) + (Texts(s[n..]) + x) == Texts(s) + x
  {
  }

  /** A clean statement in front of the end or of a semicolon is kept as it is. */
  lemma {:induction false} WalkEmits(s: string, rest: string, m: Mode)
    requires rest == [] || rest[0] == ';'
    requires Walk(s, m).Some? && Reading(m)
    ensures Emit(s + rest, m) == Texts(s) + Emit(rest, Walk(s, m).value)
    decreases |s|, 1
  {
    if s == [] {
      assert s + rest == rest;
    } else if m.Quoted? {
      QuotedEmits(s, rest, m);
    } else {
      PlainEmits(s, rest);
    }
  }

  lemma {:induction false} QuotedEmits(s: string, rest: string, m: Mode)
    requires rest == [] || rest[0] == ';'
    requires s != [] && m.Quoted? && Walk(s, m).Some? && Reading(m)
    ensures Emit(s + rest, m) == Texts(s) + Emit(rest, Walk(s, m).value)
    decreases |s|, 0
  {
    StartsAppend(s, rest, m.quote, m.quote);
    if Starts(s, m.quote, m.quote) {
      assert (s + rest)[2..] == s[2..] + rest;
      WalkEmits(s[2..], rest, m);
      assert Texts(s[..2]) == [Text(s[0]), Text(s[1])];
      TextsAppend(s, 2, Emit(rest, Walk(s, m).value));
    } else {
      assert (s + rest)[1..] == s[1..] + rest;
      WalkEmits(s[1..], rest, if s[0] == m.quote then Plain else m);
      assert Texts(s[..1]) == [Text(s[0])];
      TextsAppend(s, 1, Emit(rest, Walk(s, m).value));
    }
  }

  lemma {:induction false} PlainEmits(s: string, rest: string)
    requires rest == [] || rest[0] == ';'
    requires s != [] && Walk(s, Plain).Some?
    ensures Emit(s + rest, Plain) == Texts(s) + Emit(rest, Walk(s, Plain).value)
    decreases |s|, 0
  {
    assert (s + rest)[1..] == s[1..] + rest;
    StartsAppend(s, rest, '-', '-');
    StartsAppend(s, rest, '/', '*');
    WalkEmits(s[1..], rest, if Quote(s[0]) then Quoted(s[0]) else Plain);
    assert Texts(s[..1]) == [Text(s[0])];
    TextsAppend(s, 1, Emit(rest, Walk(s, Plain).value));
  }

  lemma RestShorter(all: string)
    requires all != []
    ensures |Emit(all[1..], Plain)| < |all|
    ensures |all| >= 2 ==> |Emit(all[2..], LineComment)| < |all| - 1 && |Emit(all[2..], BlockComment)| < |all| - 1
  {
    EmitLength(all[1..], Plain);
    if |all| >= 2 {
      EmitLength(all[2..], LineComment);
      EmitLength(all[2..], BlockComment);
    }
  }

  /** If nothing was dropped and the first pieces are the statement's characters, it was clean. */
  lemma {:induction false} EmitsWalk(s: string, rest: string, m: Mode)
    requires rest == [] || rest[0] == ';'
    requires Reading(m)
    requires |Emit(s + rest, m)| == |s + rest| && Emit(s + rest, m)[..|s|] == Texts(s)
    ensures Walk(s, m).Some?
    decreases |s|
  {
    if s != [] {
      var all := s + rest;
      assert all[1..] == s[1..] + rest;
      assert all[0] == s[0] && Emit(all, m)[..|s|][0] == Emit(all, m)[0];
      RestShorter(all);
      if m.Quoted? && Starts(s, m.quote, m.quote) {
        assert all[2..] == s[2..] + rest;
        DropPieces(Emit(all, m), s, 2);
        EmitsWalk(s[2..], rest, m);
      } else {
        DropPieces(Emit(all, m), s, 1);
        var started := if Quote(s[0]) then Quoted(s[0]) else Plain;
        EmitsWalk(s[1..], rest, if m.Plain? then started else if s[0] == m.quote then Plain else m);
      }
    }
  }

  lemma DropPieces(pieces: seq<Piece>, s: string, n: nat)
    requires n <= |s| <= |pieces| && pieces[..|s|] == Texts(s)
    ensures pieces[n..][..|s[n..]|] == Texts(s[n..])
  {
    assert pieces[n..][..|s[n..]|] == pieces[..|s|][n..];
  }

  /** Separators cut the pieces at the same places as the text. */
  lemma {:induction false} PartsOfTexts(s: string, pieces: seq<Piece>)
    ensures Parts(Texts(s) + pieces) == [s + Parts(pieces)[0]] + Parts(pieces)[1..]
  {
    if s == [] {
      assert Texts(s) + pieces == pieces;
      assert s + Parts(pieces)[0] == Parts(pieces)[0];
    } else {
      var all := Texts(s) + pieces;
      assert all[0] == Text(s[0]) && all[1..] == Texts(s[1..]) + pieces;
      PartsOfTexts(s[1..], pieces);
      assert [s[0]] + (s[1..] + Parts(pieces)[0]) == s + Parts(pieces)[0];
    }
  }

  lemma {:induction false} PartsHead(pieces: seq<Piece>)
    ensures
      var parts := Parts(pieces);
      var n := |parts[0]|;
      && n <= |pieces| && pieces[..n] == Texts(parts[0])
      && (|parts| == 1 ==> n == |pieces|)
      && (|parts| > 1 ==> n < |pieces| && pieces[n] == Separator && Parts(pieces[n + 1..]) == parts[1..])
  {
    if pieces != [] && pieces[0].Text? {
      PartsHead(pieces[1..]);
      var rest := Parts(pieces[1..]);
      var n := |rest[0]|;
      assert Parts(pieces)[0][1..] == rest[0] && Parts(pieces)[1..] == rest[1..];
      assert pieces[..n + 1] == [pieces[0]] + pieces[1..][..n];
      if |rest| > 1 {
        assert pieces[1..][n + 1..] == pieces[n + 2..];
      }
    }
  }

  lemma {:induction false} PartsLength(pieces: seq<Piece>)
    ensures |Join(Parts(pieces))| == |pieces|
  {
    if pieces != [] {
      PartsLength(pieces[1..]);
      var rest := Parts(pieces[1..]);
      if pieces[0].Text? {
        assert Parts(pieces)[1..] == rest[1..];
      } else {
        assert Parts(pieces)[1..] == rest;
      }
    }
  }

  /** Trimming and leaving out empty parts shortens the joined text unless there is nothing to do. */
  lemma {:induction false} KeptLength(parts: seq<string>)
    ensures |Join(Kept(parts))| <= |Join(parts)|
    ensures |Join(Kept(parts))| == |Join(parts)| ==> Kept(parts) == parts || parts == [""]
    ensures Kept(parts) == parts ==> AllKept(parts)
  {
    if parts != [] {
      var rest := parts[1..];
      KeptLength(rest);
      KeptCount(rest);
      if Trim(parts[0]) != "" {
        assert Kept(parts)[1..] == Kept(rest);
        assert parts == [parts[0]] + rest;
      } else {
        assert Kept(parts) == Kept(rest);
      }
    }
  }

  lemma {:induction false} KeptCount(parts: seq<string>)
    ensures |Kept(parts)| <= |parts|
  {
    if parts != [] {
      KeptCount(parts[1..]);
    }
  }

  lemma {:induction false} JoinableSplits(statements: seq<string>)
    requires Joinable(statements) && statements != []
    ensures Parts(Emit(Join(statements), Plain)) == statements
    ensures Kept(statements) == statements
  {
    var s := statements[0];
    if |statements| == 1 {
      WalkEmits(s, "", Plain);
      assert s + "" == s;
      PartsOfTexts(s, []);
      assert Parts(Texts(s) + Emit("", Plain)) == [s];
      assert statements[1..] == [];
    } else {
      var tail := statements[1..];
      var rest := ";" + Join(tail);
      assert Join(statements) == s + rest && rest[1..] == Join(tail);
      JoinableSplits(tail);
      WalkEmits(s, rest, Plain);
      var pieces := [Separator] + Emit(Join(tail), Plain);
      assert pieces[1..] == Emit(Join(tail), Plain);
      assert Parts(pieces) == [""] + tail;
      PartsOfTexts(s, pieces);
      assert s + "" == s;
    }
  }

  /** A separator right after the statement's characters: the statement closed its quotes. */
  lemma SeparatorCloses(s: string, tail: string)
    requires
      var pieces := Emit(s + ";" + tail, Plain);
      |pieces| == |s| + 1 + |tail| && pieces[..|s|] == Texts(s) && pieces[|s|] == Separator
    ensures Walk(s, Plain) == Some(Plain)
    ensures Emit(s + ";" + tail, Plain)[|s| + 1..] == Emit(tail, Plain)
    ensures |Emit(tail, Plain)| == |tail|
  {
    var rest := ";" + tail;
    assert s + ";" + tail == s + rest && rest[1..] == tail;
    EmitsWalk(s, rest, Plain);
    WalkEmits(s, rest, Plain);
    var m := Walk(s, Plain).value;
    var pieces := Emit(s + rest, Plain);
    assert Emit(rest, m) == pieces[|s|..];
    assert Emit(rest, m)[0] == Separator;
    assert pieces[|s| + 1..] == Emit(rest, m)[1..];
  }

  lemma {:induction false} SplitsJoinable(statements: seq<string>)
    requires statements != [] && AllKept(statements)
    requires |Emit(Join(statements), Plain)| == |Join(statements)|
    requires Parts(Emit(Join(statements), Plain)) == statements
    ensures Joinable(statements)
  {
    var s := statements[0];
    PartsHead(Emit(Join(statements), Plain));
    assert s in statements;
    if |statements| == 1 {
      assert s + "" == s;
      EmitsWalk(s, "", Plain);
    } else {
      var tail := statements[1..];
      assert Join(statements) == s + ";" + Join(tail);
      SeparatorCloses(s, Join(tail));
      assert forall p <- tail :: p in statements;
      SplitsJoinable(tail);
    }
  }

  /** Splitting undoes joining with semicolons exactly for these lists. */
  lemma SplitUndoesJoin(statements: seq<string>)
    ensures Split(Join(statements)) == statements <==> Joinable(statements)
  {
    var sql := Join(statements);
    var pieces := Emit(sql, Plain);
    if statements != [] {
      if Joinable(statements) {
        JoinableSplits(statements);
      }
      if Split(sql) == statements {
        EmitLength(sql, Plain);
        PartsLength(pieces);
        KeptLength(Parts(pieces));
        KeptTrimmed(Parts(pieces));
        assert Parts(pieces) == statements;
        SplitsJoinable(statements);
      }
    }
  }

  lemma {:induction false} KeptTrimmed(parts: seq<string>)
    ensures AllKept(Kept(parts))
  {
    if parts != [] {
      TrimTwice(parts[0]);
      KeptTrimmed(parts[1..]);
    }
  }
}
