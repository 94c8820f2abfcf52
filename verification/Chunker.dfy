/**
 packages/rag/src/parser.ts: cutting a source file into chunks of lines, at declarations with braces
 (chunkBraceLanguages, flushOrphan) or at fixed lengths (chunkFallback).
 */
module Chunker {
  import opened JsText
  import opened Options

  /** Lines are numbered from 1, both ends included. */
  datatype FileChunk = FileChunk(startLine: nat, endLine: nat, content: string)

  // ---------------------------------------------------------------- lines

  function JoinLines(lines: seq<string>): string {
    if |lines| == 0 then ""
    else if |lines| == 1 then lines[0]
    else lines[0] + "\n" + JoinLines(lines[1..])
  }

  /** content.split('\n') */
  function SplitLines(content: string): (r: seq<string>)
    ensures r != []
  {
    if content == "" then [""]
    else
      var rest := SplitLines(content[1..]);
      if content[0] == '\n' then [""] + rest else [[content[0]] + rest[0]] + rest[1..]
  }

  lemma {:induction false} JoinUndoesSplit(content: string)
    ensures JoinLines(SplitLines(content)) == content
  {
    if content != "" {
      var rest := SplitLines(content[1..]);
      JoinUndoesSplit(content[1..]);
      assert content == [content[0]] + content[1..];
      if content[0] == '\n' {
        assert ([""] + rest)[1..] == rest;
        assert "" + "\n" + JoinLines(rest) == "\n" + JoinLines(rest);
      } else {
        var c := [content[0]];
        assert ([c + rest[0]] + rest[1..])[1..] == rest[1..];
        assert c + rest[0] + "\n" + JoinLines(rest[1..]) == c + (rest[0] + "\n" + JoinLines(rest[1..]));
      }
    }
  }

  predicate Blank(s: string) {
    forall c <- s :: Space(c)
  }

  lemma {:induction false} StartBlank(s: string)
    ensures TrimStart(s) == "" <==> Blank(s)
  {
    if s != "" && Space(s[0]) {
      StartBlank(s[1..]);
      assert s == [s[0]] + s[1..];
    } else if s != "" {
      assert s[0] in s;
    }
  }

  lemma TrimBlank(s: string)
    ensures Trim(s) == "" <==> Blank(s)
  {
    StartBlank(s);
    var t := TrimStart(s);
    if t != "" {
      TrimEndKeeps(t);
    }
  }

  lemma {:induction false} TrimEndKeeps(t: string)
    requires t != "" && !Space(t[0])
    ensures TrimEnd(t) != ""
  {
    if Space(t[|t| - 1]) {
      TrimEndKeeps(t[..|t| - 1]);
    }
  }

  lemma BlankAppend(s: string, t: string)
    ensures Blank(s + t) <==> Blank(s) && Blank(t)
  {
    assert forall c :: c in s || c in t ==> c in s + t;
  }

  lemma {:induction false} JoinBlank(lines: seq<string>)
    ensures Blank(JoinLines(lines)) <==> forall l <- lines :: Blank(l)
  {
    if |lines| > 1 {
      JoinBlank(lines[1..]);
      assert lines == [lines[0]] + lines[1..];
      BlankAppend(lines[0] + "\n", JoinLines(lines[1..]));
      BlankAppend(lines[0], "\n");
    }
  }

  // ---------------------------------------------------------------- matching braces

  datatype Scan = Scan(braces: int, found: bool, inString: Option<char>, inComment: bool)

  const SCAN_START := Scan(0, false, None, false)

  predicate QuoteMark(c: char) {
    c == '"' || c == '\'' || c == '`'
  }

  /** The scan from position `k` to the end of the line. */
  function ScanFrom(line: string, k: nat, s: Scan): Scan
    decreases |line| - k
  {
    if k >= |line| then s
    else if s.inComment then
      if PairAt(line, k, '*', '/') then ScanFrom(line, k + 2, s.(inComment := false)) else ScanFrom(line, k + 1, s)
    else if s.inString.Some? then
      if line[k] == '\\' then ScanFrom(line, k + 2, s)
      else ScanFrom(line, k + 1, if Some(line[k]) == s.inString then s.(inString := None) else s)
    else if PairAt(line, k, '/', '/') then s
    else if PairAt(line, k, '/', '*') then ScanFrom(line, k + 2, s.(inComment := true))
    else if QuoteMark(line[k]) then ScanFrom(line, k + 1, s.(inString := Some(line[k])))
    else if line[k] == '{' then ScanFrom(line, k + 1, s.(braces := s.braces + 1, found := true))
    else if line[k] == '}' then ScanFrom(line, k + 1, s.(braces := s.braces - 1))
    else ScanFrom(line, k + 1, s)
  }

  /** The scan after the lines `i` to `j - 1`. */
  ghost function After(lines: seq<string>, i: nat, j: nat): Scan
    requires i <= j <= |lines|
  {
    if i == j then SCAN_START else ScanFrom(lines[j - 1], 0, After(lines, i, j - 1))
  }

  /** Line `j` closes what the scan from line `i` opened. */
  ghost predicate Closes(lines: seq<string>, i: nat, j: nat)
    requires i <= j < |lines|
  {
    var s := After(lines, i, j + 1);
    s.found && s.braces == 0
  }

  method ScanLine(line: string, start: Scan) returns (s: Scan)
    ensures s == ScanFrom(line, 0, start)
  {
    s := start;
    var k := 0;
    while k < |line|
      invariant ScanFrom(line, k, s) == ScanFrom(line, 0, start)
    {
      if s.inComment {
        if line[k] == '*' && k + 1 < |line| && line[k + 1] == '/' {
          s := s.(inComment := false);
          k := k + 2;
        } else {
          k := k + 1;
        }
        continue;
      }
      if s.inString.None? && line[k] == '/' && k + 1 < |line| && line[k + 1] == '/' {
        break;
      }
      if s.inString.None? && line[k] == '/' && k + 1 < |line| && line[k + 1] == '*' {
        s := s.(inComment := true);
        k := k + 2;
        continue;
      }
      var c := line[k];
      if s.inString.Some? {
        if c == '\\' {
          k := k + 2;
          continue;
        }
        if c == s.inString.value {
          s := s.(inString := None);
        }
        k := k + 1;
        continue;
      }
      if c == '"' || c == '\'' || c == '`' {
        s := s.(inString := Some(c));
        k := k + 1;
        continue;
      }
      if c == '{' {
        s := s.(braces := s.braces + 1, found := true);
      } else if c == '}' {
        s := s.(braces := s.braces - 1);
      }
      k := k + 1;
    }
  }

  const LONGEST_SCAN := 151

  /** Where a scan from line `i` stops: the first line that closes it, the cut-off, or nowhere. */
  datatype Stop = Closed(j: nat) | CutOff | EndOfFile

  ghost predicate OpenUntil(lines: seq<string>, i: nat, n: nat)
    requires i <= n <= |lines|
  {
    forall j :: i <= j < n ==> !Closes(lines, i, j)
  }

  ghost predicate StopsAt(lines: seq<string>, i: nat, stop: Stop)
    requires i < |lines|
  {
    match stop
    case Closed(j) => i <= j < |lines| && j <= i + LONGEST_SCAN && Closes(lines, i, j) && OpenUntil(lines, i, j)
    case CutOff => i + LONGEST_SCAN < |lines| && OpenUntil(lines, i, i + LONGEST_SCAN + 1)
    case EndOfFile => |lines| <= i + LONGEST_SCAN && OpenUntil(lines, i, |lines|)
  }

  ghost function StopFrom(lines: seq<string>, i: nat, j: nat): Stop
    requires i <= j <= |lines|
    decreases |lines| - j
  {
    if j == |lines| then EndOfFile
    else if Closes(lines, i, j) then Closed(j)
    else if j - i >= LONGEST_SCAN then CutOff
    else StopFrom(lines, i, j + 1)
  }

  lemma {:induction false} StopFound(lines: seq<string>, i: nat, j: nat)
    requires i <= j <= |lines| && j <= i + LONGEST_SCAN && i < |lines| && OpenUntil(lines, i, j)
    ensures StopsAt(lines, i, StopFrom(lines, i, j))
    decreases |lines| - j
  {
    if j < |lines| && !Closes(lines, i, j) && j - i < LONGEST_SCAN {
      StopFound(lines, i, j + 1);
    }
  }

  /** Lines `start` to `end - 1`, counted from 0. */
  datatype Block = Block(start: nat, end: nat)

  /** The block of the declaration on line `i`. A file that ends before the braces close leaves one line. */
  ghost function BlockAt(lines: seq<string>, i: nat): Block
    requires i < |lines|
  {
    match StopFrom(lines, i, i)
    case Closed(j) => Block(i, j + 1)
    case CutOff => Block(i, i + LONGEST_SCAN + 1)
    case EndOfFile => Block(i, i + 1)
  }

  /** Some line the scan passed opened a brace. */
  ghost predicate Opens(lines: seq<string>, i: nat)
    requires i < |lines|
  {
    match StopFrom(lines, i, i)
    case Closed(j) => true
    case CutOff => i + LONGEST_SCAN < |lines| && After(lines, i, i + LONGEST_SCAN + 1).found
    case EndOfFile => After(lines, i, |lines|).found
  }

  /** What the scan decides: a closing line before line `j` of the 151st, or none. */
  method MatchBraces(lines: seq<string>, i: nat) returns (end: nat, found: bool)
    requires i < |lines|
    ensures Block(i, end) == BlockAt(lines, i) && found == Opens(lines, i)
    ensures i < end <= |lines|
  {
    var s := SCAN_START;
    for j := i to |lines|
      invariant s == After(lines, i, j)
      invariant j <= i + LONGEST_SCAN
      invariant StopFrom(lines, i, i) == StopFrom(lines, i, j)
    {
      s := ScanLine(lines[j], s);
      if s.found && s.braces == 0 {
        return j + 1, s.found;
      }
      if j - i > 150 {
        return j + 1, s.found;
      }
    }
    return i + 1, s.found;
  }

  // ---------------------------------------------------------------- blocks and gaps

  predicate Comment(line: string) {
    var t := Trim(line);
    "//" <= t || "/*" <= t || "*" <= t
  }

  predicate Includes(s: string, t: string) {
    t <= s || (s != "" && Includes(s[1..], t))
  }

  predicate IncludesOne(s: string, keywords: seq<string>) {
    keywords != [] && (Includes(s, keywords[0]) || IncludesOne(s, keywords[1..]))
  }

  lemma {:induction false} IncludesSomewhere(s: string, t: string)
    ensures Includes(s, t) <==> exists i :: 0 <= i <= |s| && t <= s[i..]
  {
    assert s[0..] == s;
    if s != "" {
      IncludesSomewhere(s[1..], t);
      assert forall i :: 0 <= i < |s| ==> s[1..][i..] == s[i + 1..];
      if Includes(s[1..], t) {
        var i :| 0 <= i <= |s[1..]| && t <= s[1..][i..];
        assert t <= s[i + 1..];
      }
      if i :| 0 < i <= |s| && t <= s[i..] {
        assert s[1..][i - 1..] == s[i..];
      }
    }
  }

  predicate Declares(line: string, keywords: seq<string>) {
    !Comment(line) && IncludesOne(Trim(line), keywords)
  }

  /** The declaration blocks from line `i` on. */
  ghost function Blocks(lines: seq<string>, keywords: seq<string>, i: nat): seq<Block>
    decreases |lines| - i
  {
    if i >= |lines| then []
    else if Declares(lines[i], keywords) && Opens(lines, i) then
      EndsLater(lines, i);
      [BlockAt(lines, i)] + Blocks(lines, keywords, BlockAt(lines, i).end)
    else Blocks(lines, keywords, i + 1)
  }

  lemma EndsLater(lines: seq<string>, i: nat)
    requires i < |lines|
    ensures i == BlockAt(lines, i).start < BlockAt(lines, i).end <= |lines|
  {
    StopFound(lines, i, i);
  }

  /** A line starts a block exactly when it declares something, a brace is opened from it on, and no block
      before it reaches it. */
  lemma {:induction false} BlockStartsExactly(lines: seq<string>, keywords: seq<string>, i: nat, l: nat)
    requires i <= l < |lines|
    ensures
      (exists b <- Blocks(lines, keywords, i) :: b.start == l) <==>
      Declares(lines[l], keywords) && Opens(lines, l) &&
      !exists b <- Blocks(lines, keywords, i) :: b.start < l < b.end
    decreases |lines| - i
  {
    if Declares(lines[i], keywords) && Opens(lines, i) {
      EndsLater(lines, i);
      var first, rest := BlockAt(lines, i), Blocks(lines, keywords, BlockAt(lines, i).end);
      assert Blocks(lines, keywords, i) == [first] + rest;
      assert first in Blocks(lines, keywords, i);
      if l >= first.end {
        BlockStartsExactly(lines, keywords, first.end, l);
      } else {
        LaterStarts(lines, keywords, first.end);
      }
    } else if l > i {
      BlockStartsExactly(lines, keywords, i + 1, l);
    } else {
      LaterStarts(lines, keywords, i + 1);
    }
  }

  lemma {:induction false} LaterStarts(lines: seq<string>, keywords: seq<string>, i: nat)
    ensures forall b <- Blocks(lines, keywords, i) :: i <= b.start < |lines|
    decreases |lines| - i
  {
    if i < |lines| {
      if Declares(lines[i], keywords) && Opens(lines, i) {
        EndsLater(lines, i);
        LaterStarts(lines, keywords, BlockAt(lines, i).end);
      } else {
        LaterStarts(lines, keywords, i + 1);
      }
    }
  }

  lemma {:induction false} BlockIsBlockAt(lines: seq<string>, keywords: seq<string>, i: nat, b: Block)
    requires b in Blocks(lines, keywords, i)
    ensures b.start < |lines| && b == BlockAt(lines, b.start)
    decreases |lines| - i
  {
    if Declares(lines[i], keywords) && Opens(lines, i) {
      EndsLater(lines, i);
      if b != BlockAt(lines, i) {
        BlockIsBlockAt(lines, keywords, BlockAt(lines, i).end, b);
      }
    } else {
      BlockIsBlockAt(lines, keywords, i + 1, b);
    }
  }

  /** A block ends with the first line that closes what was opened, if there is one within 152 lines; otherwise
      after 152 lines, or with its first line in a file that is shorter. */
  lemma BlockExtent(lines: seq<string>, keywords: seq<string>, i: nat, b: Block)
    requires b in Blocks(lines, keywords, i)
    ensures b.start < b.end <= |lines|
    ensures forall j :: b.start <= j < b.end - 1 ==> !Closes(lines, b.start, j)
    ensures
      || Closes(lines, b.start, b.end - 1)
      || b.end == b.start + 152
      || (b.end == b.start + 1 && |lines| <= b.start + 151 &&
          forall j :: b.start <= j < |lines| ==> !Closes(lines, b.start, j))
    ensures b.end <= b.start + 152
  {
    BlockIsBlockAt(lines, keywords, i, b);
    EndsLater(lines, b.start);
    StopFound(lines, b.start, b.start);
  }

  /** Blocks from line `from` on: in order, apart, not empty, inside the file. */
  ghost predicate Ordered(blocks: seq<Block>, from: nat, n: nat) {
    if blocks == [] then from <= n
    else from <= blocks[0].start < blocks[0].end <= n && Ordered(blocks[1..], blocks[0].end, n)
  }

  lemma {:induction false} OrderedFrom(blocks: seq<Block>, from: nat, lower: nat, n: nat)
    requires lower <= from && Ordered(blocks, from, n)
    ensures Ordered(blocks, lower, n)
  {
    if blocks != [] {
      OrderedFrom(blocks[1..], blocks[0].end, blocks[0].end, n);
    }
  }

  lemma {:induction false} BlocksOrdered(lines: seq<string>, keywords: seq<string>, i: nat)
    requires i <= |lines|
    ensures Ordered(Blocks(lines, keywords, i), i, |lines|)
    decreases |lines| - i
  {
    if i < |lines| {
      if Declares(lines[i], keywords) && Opens(lines, i) {
        EndsLater(lines, i);
        BlocksOrdered(lines, keywords, BlockAt(lines, i).end);
      } else {
        BlocksOrdered(lines, keywords, i + 1);
        OrderedFrom(Blocks(lines, keywords, i + 1), i + 1, i, |lines|);
      }
    }
  }

  /** The stretches between the blocks. */
  ghost function Gaps(blocks: seq<Block>, from: nat, n: nat): seq<Block> {
    if blocks == [] then (if from < n then [Block(from, n)] else [])
    else (if from < blocks[0].start then [Block(from, blocks[0].start)] else []) + Gaps(blocks[1..], blocks[0].end, n)
  }

  predicate Inside(b: Block, l: nat) {
    b.start <= l < b.end
  }

  ghost predicate Covers(blocks: seq<Block>, l: nat) {
    exists b <- blocks :: Inside(b, l)
  }

  // ---------------------------------------------------------------- windows

  /** The chunk of the lines `a` to `b - 1`. */
  function ChunkOf(lines: seq<string>, a: nat, b: nat): FileChunk
    requires a <= b <= |lines|
  {
    FileChunk(a + 1, b, JoinLines(lines[a..b]))
  }

  /** Fifty lines every forty, up to the window that reaches the end. */
  function Overlapping(lines: seq<string>, a: nat, b: nat): seq<FileChunk>
    requires a <= b <= |lines|
    decreases b - a
  {
    if a + 50 >= b then [ChunkOf(lines, a, b)]
    else [ChunkOf(lines, a, a + 50)] + Overlapping(lines, a + 40, b)
  }

  /** The same for a gap, except that blank windows are left out and the last window may repeat lines. */
  function NonblankWindows(lines: seq<string>, a: nat, b: nat): seq<FileChunk>
    requires a <= b <= |lines|
    decreases b - a
  {
    if a == b then []
    else
      var e := if a + 50 < b then a + 50 else b;
      (if Blank(JoinLines(lines[a..e])) then [] else [ChunkOf(lines, a, e)]) +
      NonblankWindows(lines, if a + 40 < b then a + 40 else b, b)
  }

  function BlockChunks(lines: seq<string>, b: Block): seq<FileChunk>
    requires b.start < b.end <= |lines|
  {
    if b.end - b.start > 51 then Overlapping(lines, b.start, b.end) else [ChunkOf(lines, b.start, b.end)]
  }

  function GapChunks(lines: seq<string>, b: Block): seq<FileChunk>
    requires b.start <= b.end <= |lines|
  {
    if Blank(JoinLines(lines[b.start..b.end])) then []
    else if b.end - b.start <= 50 then [ChunkOf(lines, b.start, b.end)]
    else NonblankWindows(lines, b.start, b.end)
  }

  ghost predicate Within(blocks: seq<Block>, n: nat) {
    forall b <- blocks :: b.start < b.end <= n
  }

  lemma {:induction false} OrderedWithin(blocks: seq<Block>, from: nat, n: nat)
    requires Ordered(blocks, from, n)
    ensures Within(blocks, n) && Within(Gaps(blocks, from, n), n)
  {
    if blocks != [] {
      OrderedWithin(blocks[1..], blocks[0].end, n);
    }
  }

  ghost function AllBlockChunks(lines: seq<string>, blocks: seq<Block>): seq<FileChunk>
    requires Within(blocks, |lines|)
  {
    if blocks == [] then [] else BlockChunks(lines, blocks[0]) + AllBlockChunks(lines, blocks[1..])
  }

  ghost function AllGapChunks(lines: seq<string>, gaps: seq<Block>): seq<FileChunk>
    requires Within(gaps, |lines|)
  {
    if gaps == [] then [] else GapChunks(lines, gaps[0]) + AllGapChunks(lines, gaps[1..])
  }

  // ---------------------------------------------------------------- sorting

  ghost predicate Sorted(chunks: seq<FileChunk>) {
    forall i, j :: 0 <= i < j < |chunks| ==> chunks[i].startLine <= chunks[j].startLine
  }

  /** Behind every chunk that starts no later. */
  function Insert(c: FileChunk, chunks: seq<FileChunk>): seq<FileChunk> {
    if chunks == [] || chunks[|chunks| - 1].startLine <= c.startLine then chunks + [c]
    else Insert(c, chunks[..|chunks| - 1]) + [chunks[|chunks| - 1]]
  }

  /** A stable sort by the first line. */
  function SortByStart(chunks: seq<FileChunk>): seq<FileChunk> {
    if chunks == [] then [] else Insert(chunks[|chunks| - 1], SortByStart(chunks[..|chunks| - 1]))
  }

  lemma {:induction false} InsertKeeps(c: FileChunk, chunks: seq<FileChunk>)
    ensures forall x :: x in Insert(c, chunks) <==> x == c || x in chunks
    ensures Sorted(chunks) ==> Sorted(Insert(c, chunks))
  {
    if chunks != [] && chunks[|chunks| - 1].startLine > c.startLine {
      var before, last := chunks[..|chunks| - 1], chunks[|chunks| - 1];
      InsertKeeps(c, before);
      assert chunks == before + [last];
      assert forall x <- Insert(c, before) :: x == c || x in before;
      if Sorted(chunks) {
        assert forall x <- before :: x.startLine <= last.startLine;
      }
    }
  }

  lemma {:induction false} SortKeeps(chunks: seq<FileChunk>)
    ensures forall x :: x in SortByStart(chunks) <==> x in chunks
    ensures Sorted(SortByStart(chunks))
  {
    if chunks != [] {
      var before, last := chunks[..|chunks| - 1], chunks[|chunks| - 1];
      assert chunks == before + [last];
      SortKeeps(before);
      InsertKeeps(last, SortByStart(before));
    }
  }

  // ---------------------------------------------------------------- the whole file

  ghost function Pieces(lines: seq<string>, keywords: seq<string>): seq<FileChunk> {
    var blocks := Blocks(lines, keywords, 0);
    BlocksOrdered(lines, keywords, 0);
    OrderedWithin(blocks, 0, |lines|);
    AllBlockChunks(lines, blocks) + AllGapChunks(lines, Gaps(blocks, 0, |lines|))
  }

  ghost function Chunks(content: string, keywords: seq<string>): seq<FileChunk> {
    var lines := SplitLines(content);
    var sorted := SortByStart(Pieces(lines, keywords));
    if sorted == [] then [FileChunk(1, |lines|, content)] else sorted
  }

  /** The chunk has these lines and no more than 51 of them. */
  predicate Good(lines: seq<string>, c: FileChunk) {
    && 1 <= c.startLine <= c.endLine <= |lines|
    && c.content == JoinLines(lines[c.startLine - 1..c.endLine])
    && c.endLine - c.startLine <= 50
  }

  predicate Holds(c: FileChunk, l: nat) {
    c.startLine <= l + 1 <= c.endLine
  }

  ghost predicate SomeHolds(chunks: seq<FileChunk>, l: nat) {
    exists c <- chunks :: Holds(c, l)
  }

  /** All of these chunks lie between line `a` and line `b - 1`. */
  ghost predicate GoodBetween(lines: seq<string>, chunks: seq<FileChunk>, a: nat, b: nat) {
    forall c <- chunks :: Good(lines, c) && a < c.startLine && c.endLine <= b
  }

  lemma {:induction false} OverlappingGood(lines: seq<string>, a: nat, b: nat)
    requires a < b <= |lines|
    ensures GoodBetween(lines, Overlapping(lines, a, b), a, b)
    ensures forall l :: a <= l < b ==> SomeHolds(Overlapping(lines, a, b), l)
    decreases b - a
  {
    var all := Overlapping(lines, a, b);
    assert all[0] in all;
    if a + 50 < b {
      OverlappingGood(lines, a + 40, b);
      var rest := Overlapping(lines, a + 40, b);
      forall l | a <= l < b
        ensures SomeHolds(all, l)
      {
        if l < a + 50 {
          assert Holds(all[0], l);
        } else {
          assert SomeHolds(rest, l);
          var c :| c in rest && Holds(c, l);
          assert c in all;
        }
      }
    } else {
      assert forall l :: a <= l < b ==> Holds(all[0], l);
    }
  }

  lemma LineNotBlank(lines: seq<string>, a: nat, b: nat, l: nat)
    requires a <= l < b <= |lines| && !Blank(lines[l])
    ensures !Blank(JoinLines(lines[a..b]))
  {
    JoinBlank(lines[a..b]);
    assert lines[a..b][l - a] == lines[l];
  }

  lemma {:induction false} WindowsGood(lines: seq<string>, a: nat, b: nat)
    requires a <= b <= |lines|
    ensures GoodBetween(lines, NonblankWindows(lines, a, b), a, b)
    decreases b - a
  {
    if a < b {
      WindowsGood(lines, if a + 40 < b then a + 40 else b, b);
    }
  }

  lemma {:induction false} WindowsHold(lines: seq<string>, a: nat, b: nat, l: nat)
    requires a <= l < b <= |lines| && !Blank(lines[l])
    ensures SomeHolds(NonblankWindows(lines, a, b), l)
    decreases b - a
  {
    var e := if a + 50 < b then a + 50 else b;
    var all := NonblankWindows(lines, a, b);
    if l < e {
      LineNotBlank(lines, a, e, l);
      assert all[0] in all && Holds(all[0], l);
    } else {
      WindowsHold(lines, a + 40, b, l);
      var c :| c in NonblankWindows(lines, a + 40, b) && Holds(c, l);
      assert c in all;
    }
  }

  lemma GapChunksGood(lines: seq<string>, g: Block)
    requires g.start < g.end <= |lines|
    ensures GoodBetween(lines, GapChunks(lines, g), g.start, g.end)
  {
    WindowsGood(lines, g.start, g.end);
  }

  lemma GapChunksHold(lines: seq<string>, g: Block, l: nat)
    requires g.end <= |lines| && Inside(g, l) && !Blank(lines[l])
    ensures SomeHolds(GapChunks(lines, g), l)
  {
    LineNotBlank(lines, g.start, g.end, l);
    if g.end - g.start <= 50 {
      assert GapChunks(lines, g)[0] in GapChunks(lines, g) && Holds(GapChunks(lines, g)[0], l);
    } else {
      WindowsHold(lines, g.start, g.end, l);
    }
  }

  lemma BlockChunksGood(lines: seq<string>, b: Block)
    requires b.start < b.end <= |lines|
    ensures GoodBetween(lines, BlockChunks(lines, b), b.start, b.end)
    ensures forall l :: Inside(b, l) ==> SomeHolds(BlockChunks(lines, b), l)
  {
    if b.end - b.start > 51 {
      OverlappingGood(lines, b.start, b.end);
    } else {
      var c := ChunkOf(lines, b.start, b.end);
      assert c in BlockChunks(lines, b);
      assert forall l :: Inside(b, l) ==> Holds(c, l);
    }
  }

  ghost predicate InOne(c: FileChunk, blocks: seq<Block>) {
    exists b <- blocks :: b.start < c.startLine && c.endLine <= b.end
  }

  lemma {:induction false} AllBlocksGood(lines: seq<string>, blocks: seq<Block>, c: FileChunk)
    requires Within(blocks, |lines|) && c in AllBlockChunks(lines, blocks)
    ensures Good(lines, c) && InOne(c, blocks)
  {
    BlockChunksGood(lines, blocks[0]);
    if c in BlockChunks(lines, blocks[0]) {
      assert blocks[0] in blocks;
    } else {
      AllBlocksGood(lines, blocks[1..], c);
    }
  }

  lemma {:induction false} AllGapsGood(lines: seq<string>, gaps: seq<Block>, c: FileChunk)
    requires Within(gaps, |lines|) && c in AllGapChunks(lines, gaps)
    ensures Good(lines, c) && InOne(c, gaps)
  {
    GapChunksGood(lines, gaps[0]);
    if c in GapChunks(lines, gaps[0]) {
      assert gaps[0] in gaps;
    } else {
      AllGapsGood(lines, gaps[1..], c);
    }
  }

  lemma {:induction false} AllBlocksHold(lines: seq<string>, blocks: seq<Block>, l: nat)
    requires Within(blocks, |lines|) && Covers(blocks, l)
    ensures SomeHolds(AllBlockChunks(lines, blocks), l)
  {
    var chunks;
    if Inside(blocks[0], l) {
      BlockChunksGood(lines, blocks[0]);
      chunks := BlockChunks(lines, blocks[0]);
    } else {
      AllBlocksHold(lines, blocks[1..], l);
      chunks := AllBlockChunks(lines, blocks[1..]);
    }
    var c :| c in chunks && Holds(c, l);
    assert c in AllBlockChunks(lines, blocks);
  }

  lemma {:induction false} AllGapsHold(lines: seq<string>, gaps: seq<Block>, l: nat)
    requires Within(gaps, |lines|) && Covers(gaps, l) && l < |lines| && !Blank(lines[l])
    ensures SomeHolds(AllGapChunks(lines, gaps), l)
  {
    var chunks;
    if Inside(gaps[0], l) {
      GapChunksHold(lines, gaps[0], l);
      chunks := GapChunks(lines, gaps[0]);
    } else {
      AllGapsHold(lines, gaps[1..], l);
      chunks := AllGapChunks(lines, gaps[1..]);
    }
    var c :| c in chunks && Holds(c, l);
    assert c in AllGapChunks(lines, gaps);
  }

  /** Every line is in a block or in a gap, never in both. */
  lemma {:induction false} BlockOrGap(blocks: seq<Block>, from: nat, n: nat, l: nat)
    requires Ordered(blocks, from, n) && from <= l < n
    ensures Covers(blocks, l) <==> !Covers(Gaps(blocks, from, n), l)
  {
    var gaps := Gaps(blocks, from, n);
    if blocks == [] {
      assert gaps[0] in gaps && Inside(gaps[0], l);
    } else if l < blocks[0].end {
      LaterOnly(blocks[1..], blocks[0].end, n, l);
      if l < blocks[0].start {
        assert gaps[0] in gaps && Inside(gaps[0], l);
      } else {
        assert blocks[0] in blocks && Inside(blocks[0], l);
      }
    } else {
      BlockOrGap(blocks[1..], blocks[0].end, n, l);
      CoversRest(blocks, l);
      var first := if from < blocks[0].start then [Block(from, blocks[0].start)] else [];
      var rest := Gaps(blocks[1..], blocks[0].end, n);
      assert forall g :: g in gaps <==> g in first || g in rest;
      if Covers(rest, l) {
        var g :| g in rest && Inside(g, l);
        assert g in gaps;
      }
    }
  }

  lemma CoversRest(blocks: seq<Block>, l: nat)
    requires blocks != [] && !Inside(blocks[0], l)
    ensures Covers(blocks, l) <==> Covers(blocks[1..], l)
  {
    assert forall b :: b in blocks <==> b == blocks[0] || b in blocks[1..];
  }

  lemma {:induction false} LaterOnly(blocks: seq<Block>, from: nat, n: nat, l: nat)
    requires Ordered(blocks, from, n) && l < from
    ensures !Covers(blocks, l) && !Covers(Gaps(blocks, from, n), l)
  {
    if blocks != [] {
      LaterOnly(blocks[1..], blocks[0].end, n, l);
    }
  }

  // ---------------------------------------------------------------- what the chunks promise

  lemma EveryLineInPieces(lines: seq<string>, keywords: seq<string>, l: nat)
    requires l < |lines| && !Blank(lines[l])
    ensures SomeHolds(Pieces(lines, keywords), l)
  {
    var blocks := Blocks(lines, keywords, 0);
    BlocksOrdered(lines, keywords, 0);
    OrderedWithin(blocks, 0, |lines|);
    BlockOrGap(blocks, 0, |lines|, l);
    var chunks;
    if Covers(blocks, l) {
      AllBlocksHold(lines, blocks, l);
      chunks := AllBlockChunks(lines, blocks);
    } else {
      AllGapsHold(lines, Gaps(blocks, 0, |lines|), l);
      chunks := AllGapChunks(lines, Gaps(blocks, 0, |lines|));
    }
    var c :| c in chunks && Holds(c, l);
    assert c in Pieces(lines, keywords);
  }

  /** Every line with something on it is in some chunk. */
  lemma EveryLineCovered(content: string, keywords: seq<string>, l: nat)
    requires l < |SplitLines(content)| && !Blank(SplitLines(content)[l])
    ensures SomeHolds(Chunks(content, keywords), l)
  {
    var pieces := Pieces(SplitLines(content), keywords);
    EveryLineInPieces(SplitLines(content), keywords, l);
    var c :| c in pieces && Holds(c, l);
    SortKeeps(pieces);
    assert c in SortByStart(pieces);
  }

  /** Some chunk has the `n` lines from line `l` on. */
  ghost predicate Together(chunks: seq<FileChunk>, l: nat, n: nat) {
    exists c <- chunks :: c.startLine <= l + 1 && l + n <= c.endLine
  }

  /** Windows overlap: up to eleven lines that follow each other are together in one of them. */
  lemma {:induction false} WindowsOverlap(lines: seq<string>, a: nat, b: nat, l: nat, n: nat)
    requires a <= l && l + n <= b <= |lines| && 0 < n <= 11
    ensures Together(Overlapping(lines, a, b), l, n)
    decreases b - a
  {
    if a + 50 >= b {
      assert ChunkOf(lines, a, b) in Overlapping(lines, a, b);
    } else if l + n <= a + 50 {
      assert Overlapping(lines, a, b)[0] == ChunkOf(lines, a, a + 50);
      assert ChunkOf(lines, a, a + 50) in Overlapping(lines, a, b);
    } else {
      WindowsOverlap(lines, a + 40, b, l, n);
      var c :| c in Overlapping(lines, a + 40, b) && c.startLine <= l + 1 && l + n <= c.endLine;
      assert c in Overlapping(lines, a, b);
    }
  }

  /** The same in a gap, unless they are all blank. */
  lemma {:induction false} GapWindowsOverlap(lines: seq<string>, a: nat, b: nat, l: nat, n: nat)
    requires a <= l && l + n <= b <= |lines| && 0 < n <= 11 && exists k :: l <= k < l + n && !Blank(lines[k])
    ensures Together(NonblankWindows(lines, a, b), l, n)
    decreases b - a
  {
    var e := if a + 50 < b then a + 50 else b;
    if l + n <= e {
      NotBlankWith(lines, a, e, l, n);
      assert NonblankWindows(lines, a, b)[0] == ChunkOf(lines, a, e);
      assert ChunkOf(lines, a, e) in NonblankWindows(lines, a, b);
    } else {
      GapWindowsOverlap(lines, a + 40, b, l, n);
      var c :| c in NonblankWindows(lines, a + 40, b) && c.startLine <= l + 1 && l + n <= c.endLine;
      assert c in NonblankWindows(lines, a, b);
    }
  }

  lemma NotBlankWith(lines: seq<string>, a: nat, e: nat, l: nat, n: nat)
    requires a <= l && l + n <= e <= |lines| && exists k :: l <= k < l + n && !Blank(lines[k])
    ensures !Blank(JoinLines(lines[a..e]))
  {
    var k :| l <= k < l + n && !Blank(lines[k]);
    JoinBlank(lines[a..e]);
    assert lines[a..e][k - a] == lines[k] && lines[k] in lines[a..e];
  }

  lemma {:induction false} ChunksOfBlock(lines: seq<string>, blocks: seq<Block>, b: Block)
    requires Within(blocks, |lines|) && b in blocks
    ensures b.start < b.end <= |lines|
    ensures forall c <- BlockChunks(lines, b) :: c in AllBlockChunks(lines, blocks)
    ensures forall c <- GapChunks(lines, b) :: c in AllGapChunks(lines, blocks)
  {
    if b != blocks[0] {
      ChunksOfBlock(lines, blocks[1..], b);
    }
  }

  lemma BlockTogether(lines: seq<string>, b: Block, l: nat, n: nat)
    requires b.start <= l && l + n <= b.end <= |lines| && 0 < n <= 11
    ensures Together(BlockChunks(lines, b), l, n)
  {
    if b.end - b.start > 51 {
      WindowsOverlap(lines, b.start, b.end, l, n);
    } else {
      assert ChunkOf(lines, b.start, b.end) in BlockChunks(lines, b);
    }
  }

  lemma GapTogether(lines: seq<string>, b: Block, l: nat, n: nat)
    requires b.start <= l && l + n <= b.end <= |lines| && 0 < n <= 11
    requires exists k :: l <= k < l + n && !Blank(lines[k])
    ensures Together(GapChunks(lines, b), l, n)
  {
    NotBlankWith(lines, b.start, b.end, l, n);
    if b.end - b.start <= 50 {
      assert ChunkOf(lines, b.start, b.end) in GapChunks(lines, b);
    } else {
      GapWindowsOverlap(lines, b.start, b.end, l, n);
    }
  }

  /** Up to eleven lines of one block or of one gap that follow each other, not all blank, are together in
      some chunk. */
  lemma NeighboursTogether(content: string, keywords: seq<string>, b: Block, l: nat, n: nat)
    requires
      var lines := SplitLines(content);
      var blocks := Blocks(lines, keywords, 0);
      && (b in blocks || b in Gaps(blocks, 0, |lines|))
      && b.start <= l && l + n <= b.end <= |lines| && 0 < n <= 11 && exists k :: l <= k < l + n && !Blank(lines[k])
    ensures Together(Chunks(content, keywords), l, n)
  {
    var lines := SplitLines(content);
    var blocks := Blocks(lines, keywords, 0);
    BlocksOrdered(lines, keywords, 0);
    OrderedWithin(blocks, 0, |lines|);
    var chunks;
    if b in blocks {
      ChunksOfBlock(lines, blocks, b);
      BlockTogether(lines, b, l, n);
      chunks := BlockChunks(lines, b);
    } else {
      ChunksOfBlock(lines, Gaps(blocks, 0, |lines|), b);
      GapTogether(lines, b, l, n);
      chunks := GapChunks(lines, b);
    }
    var c :| c in chunks && c.startLine <= l + 1 && l + n <= c.endLine;
    assert c in Pieces(lines, keywords);
    SortKeeps(Pieces(lines, keywords));
    assert c in SortByStart(Pieces(lines, keywords));
  }

  /**
   Unless all lines are blank, a chunk has exactly its lines, at most 51, all of one block or all of one
   gap between the blocks, which are apart; and the chunks are in the order of their first lines.
   */
  lemma EveryChunkGood(content: string, keywords: seq<string>, c: FileChunk)
    requires c in Chunks(content, keywords) && !Blank(content)
    ensures
      var lines := SplitLines(content);
      var blocks := Blocks(lines, keywords, 0);
      && Good(lines, c)
      && Ordered(blocks, 0, |lines|)
      && (InOne(c, blocks) || InOne(c, Gaps(blocks, 0, |lines|)))
    ensures Sorted(Chunks(content, keywords))
  {
    var lines := SplitLines(content);
    var blocks := Blocks(lines, keywords, 0);
    JoinUndoesSplit(content);
    JoinBlank(lines);
    var l :| 0 <= l < |lines| && !Blank(lines[l]);
    EveryLineInPieces(lines, keywords, l);
    BlocksOrdered(lines, keywords, 0);
    OrderedWithin(blocks, 0, |lines|);
    SortKeeps(Pieces(lines, keywords));
    assert c in Pieces(lines, keywords);
    if c in AllBlockChunks(lines, blocks) {
      AllBlocksGood(lines, blocks, c);
    } else {
      AllGapsGood(lines, Gaps(blocks, 0, |lines|), c);
    }
  }

  lemma {:induction false} BlankScan(line: string, k: nat)
    requires Blank(line) && k <= |line|
    ensures ScanFrom(line, k, SCAN_START) == SCAN_START
    decreases |line| - k
  {
    if k < |line| {
      assert line[k] in line;
      BlankScan(line, k + 1);
    }
  }

  lemma {:induction false} BlankAfter(lines: seq<string>, i: nat, j: nat)
    requires i <= j <= |lines| && forall l <- lines :: Blank(l)
    ensures After(lines, i, j) == SCAN_START
  {
    if i < j {
      BlankAfter(lines, i, j - 1);
      assert lines[j - 1] in lines;
      BlankScan(lines[j - 1], 0);
    }
  }

  lemma {:induction false} BlankBlocks(lines: seq<string>, keywords: seq<string>, i: nat)
    requires i <= |lines| && forall l <- lines :: Blank(l)
    ensures Blocks(lines, keywords, i) == []
    decreases |lines| - i
  {
    if i < |lines| {
      StopFound(lines, i, i);
      forall j | i <= j <= |lines|
        ensures After(lines, i, j) == SCAN_START
      {
        BlankAfter(lines, i, j);
      }
      BlankBlocks(lines, keywords, i + 1);
    }
  }

  /** A blank file is one chunk, however long. */
  lemma BlankFileWhole(content: string, keywords: seq<string>)
    requires Blank(content)
    ensures Chunks(content, keywords) == [FileChunk(1, |SplitLines(content)|, content)]
  {
    var lines := SplitLines(content);
    JoinUndoesSplit(content);
    JoinBlank(lines);
    BlankBlocks(lines, keywords, 0);
    assert lines[0..|lines|] == lines;
    assert Gaps([], 0, |lines|) == [Block(0, |lines|)];
    assert AllGapChunks(lines, [Block(0, |lines|)]) == [];
  }

  // ---------------------------------------------------------------- the loops

  /** The loop that cuts a long block or a long file. */
  method PushOverlapping(lines: seq<string>, a: nat, b: nat, chunks: seq<FileChunk>) returns (r: seq<FileChunk>)
    requires a < b <= |lines|
    ensures r == chunks + Overlapping(lines, a, b)
  {
    r := chunks;
    var o := a;
    while o < b
      invariant a <= o < b
      invariant r + Overlapping(lines, o, b) == chunks + Overlapping(lines, a, b)
      decreases b - o
    {
      var e := if o + 50 < b then o + 50 else b;
      var sub := lines[o..e];
      r := r + [FileChunk(o + 1, o + |sub|, JoinLines(sub))];
      if o + 50 >= b {
        break;
      }
      o := o + 40;
    }
  }

  method FlushOrphan(lines: seq<string>, a: nat, b: nat, chunks: seq<FileChunk>) returns (r: seq<FileChunk>)
    requires a < b <= |lines|
    ensures r == chunks + GapChunks(lines, Block(a, b))
  {
    var content := JoinLines(lines[a..b]);
    TrimBlank(content);
    if |Trim(content)| == 0 {
      return chunks;
    }
    if b - a <= 50 {
      return chunks + [FileChunk(a + 1, b, content)];
    }
    r := PushNonblank(lines, a, b, chunks);
  }

  method PushNonblank(lines: seq<string>, a: nat, b: nat, chunks: seq<FileChunk>) returns (r: seq<FileChunk>)
    requires a < b <= |lines|
    ensures r == chunks + NonblankWindows(lines, a, b)
  {
    r := chunks;
    var o := a;
    while o < b
      invariant a <= o
      invariant r + NonblankWindows(lines, if o < b then o else b, b) == chunks + NonblankWindows(lines, a, b)
      decreases b - o
    {
      var e := if o + 50 < b then o + 50 else b;
      var sub := lines[o..e];
      var text := JoinLines(sub);
      TrimBlank(text);
      PushWindow(lines, o, b, e, r);
      if |Trim(text)| != 0 {
        r := r + [FileChunk(o + 1, if o + |sub| < b then o + |sub| else b, text)];
      }
      o := o + 40;
    }
  }

  lemma PushWindow(lines: seq<string>, o: nat, b: nat, e: nat, r: seq<FileChunk>)
    requires o < b <= |lines| && e == if o + 50 < b then o + 50 else b
    ensures
      var done := if Blank(JoinLines(lines[o..e])) then r else r + [ChunkOf(lines, o, e)];
      r + NonblankWindows(lines, o, b) == done + NonblankWindows(lines, if o + 40 < b then o + 40 else b, b)
  {
    var rest := NonblankWindows(lines, if o + 40 < b then o + 40 else b, b);
    assert [] + rest == rest;
    assert r + ([ChunkOf(lines, o, e)] + rest) == r + [ChunkOf(lines, o, e)] + rest;
  }

  method MentionsOne(line: string, keywords: seq<string>) returns (r: bool)
    ensures r == IncludesOne(line, keywords)
  {
    for k := 0 to |keywords|
      invariant IncludesOne(line, keywords) == IncludesOne(line, keywords[k..])
    {
      assert keywords[k..][1..] == keywords[k + 1..];
      if Includes(line, keywords[k]) {
        return true;
      }
    }
    return false;
  }

  method IsDeclaration(line: string, keywords: seq<string>) returns (r: bool)
    ensures r == Declares(line, keywords)
  {
    var t := Trim(line);
    if "//" <= t || "/*" <= t || "*" <= t {
      return false;
    }
    r := MentionsOne(t, keywords);
  }

  method PushBlock(lines: seq<string>, i: nat, end: nat, chunks: seq<FileChunk>) returns (r: seq<FileChunk>)
    requires i < end <= |lines|
    ensures r == chunks + BlockChunks(lines, Block(i, end))
  {
    if end - (i + 1) > 50 {
      r := PushOverlapping(lines, i, end, chunks);
    } else {
      r := chunks + [FileChunk(i + 1, end, JoinLines(lines[i..end]))];
    }
  }

  /** The first loop: the chunks of the blocks, and the lines they take. */
  method ChunkBlocks(lines: seq<string>, keywords: seq<string>) returns (chunks: seq<FileChunk>, processed: set<nat>)
    requires Within(Blocks(lines, keywords, 0), |lines|)
    ensures chunks == AllBlockChunks(lines, Blocks(lines, keywords, 0))
    ensures Marked(processed, [], Blocks(lines, keywords, 0))
  {
    chunks, processed := [], {};
    ghost var all := Blocks(lines, keywords, 0);
    ghost var rest, goal := all, AllBlockChunks(lines, all);
    var i := 0;
    BlocksOrdered(lines, keywords, 0);
    OrderedWithin(all, 0, |lines|);
    while i < |lines|
      invariant 0 <= i <= |lines|
      invariant rest == Blocks(lines, keywords, i) && Within(rest, |lines|)
      invariant chunks + AllBlockChunks(lines, rest) == goal
      invariant Marked(processed, rest, all)
      invariant forall l <- processed :: l < i
    {
      var isDecl := IsDeclaration(lines[i], keywords);
      if isDecl && i !in processed {
        var end, found := MatchBraces(lines, i);
        if found {
          ghost var b := Block(i, end);
          assert rest == [b] + rest[1..];
          rest := rest[1..];
          TakeBlock(lines, b, rest, chunks);
          chunks := PushBlock(lines, i, end, chunks);
          ghost var before := processed;
          processed := AddLines(processed, i, end);
          MarkBlock(before, processed, b, rest, all);
          i := end;
          continue;
        }
      }
      i := i + 1;
    }
  }

  /** The lines marked and those of the blocks to come are the lines of all blocks. */
  ghost predicate Marked(processed: set<nat>, rest: seq<Block>, all: seq<Block>) {
    forall l: nat :: l in processed || Covers(rest, l) <==> Covers(all, l)
  }

  lemma MarkBlock(before: set<nat>, after: set<nat>, b: Block, rest: seq<Block>, all: seq<Block>)
    requires Marked(before, [b] + rest, all)
    requires forall l: nat :: l in after <==> l in before || b.start <= l < b.end
    ensures Marked(after, rest, all)
  {
    CoversCons(b, rest);
  }

  method AddLines(processed: set<nat>, a: nat, b: nat) returns (r: set<nat>)
    requires a <= b
    ensures forall l: nat :: l in r <==> l in processed || a <= l < b
  {
    r := processed;
    for l := a to b
      invariant forall x: nat :: x in r <==> x in processed || a <= x < l
    {
      r := r + {l};
    }
  }

  lemma TakeBlock(lines: seq<string>, b: Block, rest: seq<Block>, chunks: seq<FileChunk>)
    requires Within([b] + rest, |lines|)
    ensures Within(rest, |lines|)
    ensures
      chunks + AllBlockChunks(lines, [b] + rest) == chunks + BlockChunks(lines, b) + AllBlockChunks(lines, rest)
  {
    assert ([b] + rest)[0] == b && ([b] + rest)[1..] == rest;
    assert b in [b] + rest && forall x <- rest :: x in [b] + rest;
    var c, r := BlockChunks(lines, b), AllBlockChunks(lines, rest);
    assert chunks + (c + r) == chunks + c + r;
  }

  lemma CoversCons(b: Block, rest: seq<Block>)
    ensures forall l :: Covers([b] + rest, l) <==> Inside(b, l) || Covers(rest, l)
  {
    assert forall x :: x in [b] + rest <==> x == b || x in rest;
  }

  /** Before line `l`: a gap is open since `from`, or line `l` is the next, or the first block left is being passed. */
  ghost predicate Standing(orphanStart: int, left: seq<Block>, from: nat, l: nat, n: nat) {
    && Ordered(left, from, n) && from <= l && -1 <= orphanStart < l
    && if orphanStart >= 0 then from == orphanStart && (left == [] || l <= left[0].start)
       else from == l || (left != [] && left[0].start == from < l < left[0].end)
  }

  /** A line that no block has, and one that the next block has. */
  lemma StandingFacts(orphanStart: int, left: seq<Block>, from: nat, l: nat, n: nat)
    requires Standing(orphanStart, left, from, l, n)
    ensures Covers(left, l) ==> left != [] && Inside(left[0], l) && (orphanStart >= 0 ==> left[0].start == l)
    ensures !Covers(left, l) ==> (left == [] || l < left[0].start) && (orphanStart == -1 ==> from == l)
  {
    if left != [] {
      assert left[0] in left;
      if l < left[0].end {
        LaterOnly(left[1..], left[0].end, n, l);
        CoversFirst(left, l);
      }
    }
  }

  lemma CoversFirst(left: seq<Block>, l: nat)
    requires left != [] && !Covers(left[1..], l)
    ensures Covers(left, l) <==> Inside(left[0], l)
  {
    assert forall b :: b in left <==> b == left[0] || b in left[1..];
  }

  ghost function Rest(lines: seq<string>, left: seq<Block>, from: nat): seq<FileChunk>
    requires Ordered(left, from, |lines|)
  {
    OrderedWithin(left, from, |lines|);
    AllGapChunks(lines, Gaps(left, from, |lines|))
  }

  lemma GapFirst(lines: seq<string>, g: Block, others: seq<Block>)
    requires Within([g] + others, |lines|)
    ensures Within(others, |lines|) && g.start < g.end <= |lines|
    ensures AllGapChunks(lines, [g] + others) == GapChunks(lines, g) + AllGapChunks(lines, others)
  {
    assert ([g] + others)[0] in [g] + others;
    assert ([g] + others)[1..] == others;
    assert forall x <- others :: x in [g] + others;
  }

  /** A gap is closed, or not there, at the first line of the next block. */
  lemma RestAtBlock(lines: seq<string>, left: seq<Block>, from: nat)
    requires Ordered(left, from, |lines|) && left != []
    ensures
      Rest(lines, left, from) ==
      (if from < left[0].start then GapChunks(lines, Block(from, left[0].start)) else []) +
      Rest(lines, left[1..], left[0].end)
    ensures Rest(lines, left, left[0].start) == Rest(lines, left[1..], left[0].end)
  {
    OrderedWithin(left, from, |lines|);
    assert Gaps(left, left[0].start, |lines|) == Gaps(left[1..], left[0].end, |lines|);
    OrderedWithin(left[1..], left[0].end, |lines|);
    var others := Gaps(left[1..], left[0].end, |lines|);
    if from < left[0].start {
      GapFirst(lines, Block(from, left[0].start), others);
    } else {
      assert Gaps(left, from, |lines|) == others;
    }
  }

  lemma RestAtEnd(lines: seq<string>, from: nat)
    requires from <= |lines|
    ensures Rest(lines, [], from) == if from < |lines| then GapChunks(lines, Block(from, |lines|)) else []
  {
    if from < |lines| {
      var g := Block(from, |lines|);
      assert [g] + [] == [g];
      OrderedWithin([], from, |lines|);
      GapFirst(lines, g, []);
    }
  }

  /** Where the loop stands after line `l`. */
  lemma StandingNext(orphanStart: int, left: seq<Block>, from: nat, l: nat, n: nat)
    requires Standing(orphanStart, left, from, l, n) && l < n
    ensures !Covers(left, l) ==> Standing(if orphanStart == -1 then l else orphanStart, left, from, l + 1, n)
    ensures Covers(left, l) ==> left != []
    ensures Covers(left, l) && l + 1 < left[0].end ==> Standing(-1, left, left[0].start, l + 1, n)
    ensures Covers(left, l) && l + 1 >= left[0].end ==> l + 1 == left[0].end && Standing(-1, left[1..], l + 1, l + 1, n)
  {
    StandingFacts(orphanStart, left, from, l, n);
  }

  /** What closing the gap at the next block leaves to do. */
  lemma CloseGap(lines: seq<string>, chunks: seq<FileChunk>, left: seq<Block>, from: nat, goal: seq<FileChunk>)
    requires Ordered(left, from, |lines|) && left != []
    requires chunks + Rest(lines, left, from) == goal
    ensures
      var closed := if from < left[0].start then chunks + GapChunks(lines, Block(from, left[0].start)) else chunks;
      closed + Rest(lines, left, left[0].start) == closed + Rest(lines, left[1..], left[0].end) == goal
  {
    RestAtBlock(lines, left, from);
    var rest := Rest(lines, left[1..], left[0].end);
    if from < left[0].start {
      var gap := GapChunks(lines, Block(from, left[0].start));
      assert chunks + (gap + rest) == chunks + gap + rest;
    } else {
      assert [] + rest == rest;
    }
  }

  /** The gap still open, if there is one, ends at line `l`. */
  method CloseOpenGap(lines: seq<string>, orphanStart: int, l: nat, chunks: seq<FileChunk>,
                      ghost left: seq<Block>, ghost from: nat, ghost goal: seq<FileChunk>)
      returns (r: seq<FileChunk>)
    requires Ordered(left, from, |lines|) && left != [] && chunks + Rest(lines, left, from) == goal
    requires if orphanStart == -1 then from == left[0].start else from == orphanStart < left[0].start == l
    ensures r + Rest(lines, left, left[0].start) == r + Rest(lines, left[1..], left[0].end) == goal
  {
    CloseGap(lines, chunks, left, from, goal);
    r := chunks;
    if orphanStart != -1 {
      r := FlushOrphan(lines, orphanStart, l, chunks);
    }
  }

  /** The second loop, up to the end of the file: the chunks so far and the gap still open. */
  method CloseGaps(lines: seq<string>, ghost blocks: seq<Block>, processed: set<nat>, start: seq<FileChunk>)
      returns (chunks: seq<FileChunk>, orphanStart: int, ghost from: nat)
    requires Ordered(blocks, 0, |lines|) && Marked(processed, [], blocks)
    ensures from <= |lines| && from == if orphanStart == -1 then |lines| else orphanStart
    ensures orphanStart < |lines| || orphanStart == -1
    ensures chunks + Rest(lines, [], from) == start + Rest(lines, blocks, 0)
  {
    chunks, orphanStart, from := start, -1, 0;
    ghost var left, goal := blocks, start + Rest(lines, blocks, 0);
    MarkedTaken(processed, blocks);
    for l := 0 to |lines|
      invariant Standing(orphanStart, left, from, l, |lines|)
      invariant Taken(processed, left, l)
      invariant chunks + Rest(lines, left, from) == goal
    {
      StandingFacts(orphanStart, left, from, l, |lines|);
      StandingNext(orphanStart, left, from, l, |lines|);
      if l !in processed {
        if orphanStart == -1 {
          orphanStart := l;
        }
      } else {
        chunks := CloseOpenGap(lines, orphanStart, l, chunks, left, from, goal);
        orphanStart, from := -1, left[0].start;
        if l + 1 == left[0].end {
          PassBlock(processed, left, l);
          left, from := left[1..], l + 1;
        }
      }
    }
    assert left == [];
  }

  /** The stretches of lines that no block took. */
  method ChunkGaps(lines: seq<string>, ghost blocks: seq<Block>, processed: set<nat>, start: seq<FileChunk>)
      returns (chunks: seq<FileChunk>)
    requires Ordered(blocks, 0, |lines|) && Marked(processed, [], blocks)
    ensures chunks == start + Rest(lines, blocks, 0)
  {
    var orphanStart: int;
    ghost var from: nat;
    chunks, orphanStart, from := CloseGaps(lines, blocks, processed, start);
    RestAtEnd(lines, from);
    if orphanStart != -1 {
      chunks := FlushOrphan(lines, orphanStart, |lines|, chunks);
    }
  }

  /** From line `from` on, the lines taken are those of the blocks left. */
  ghost predicate Taken(processed: set<nat>, left: seq<Block>, from: nat) {
    forall l: nat :: l >= from ==> (l in processed <==> Covers(left, l))
  }

  lemma MarkedTaken(processed: set<nat>, blocks: seq<Block>)
    requires Marked(processed, [], blocks)
    ensures Taken(processed, blocks, 0)
  {
    assert forall l :: !Covers([], l);
  }

  lemma PassBlock(processed: set<nat>, left: seq<Block>, l: nat)
    requires left != [] && left[0].end == l + 1 && Taken(processed, left, l)
    ensures Taken(processed, left[1..], l + 1)
  {
    forall k: nat | k > l
      ensures k in processed <==> Covers(left[1..], k)
    {
      CoversRest(left, k);
    }
  }

  method ChunkBraceLanguages(content: string, keywords: seq<string>) returns (chunks: seq<FileChunk>)
    ensures chunks == Chunks(content, keywords)
  {
    var lines := SplitLines(content);
    ghost var blocks := Blocks(lines, keywords, 0);
    BlocksOrdered(lines, keywords, 0);
    OrderedWithin(blocks, 0, |lines|);
    var processed;
    chunks, processed := ChunkBlocks(lines, keywords);
    chunks := ChunkGaps(lines, blocks, processed, chunks);
    chunks := SortByStart(chunks);
    if chunks == [] {
      chunks := [FileChunk(1, |lines|, content)];
    }
  }

  // ---------------------------------------------------------------- the fallback

  /** Files of at most sixty lines are one chunk; longer ones are cut every forty lines. */
  method ChunkFallback(content: string) returns (chunks: seq<FileChunk>)
    ensures forall l: nat :: l < |SplitLines(content)| ==> SomeHolds(chunks, l)
    ensures |SplitLines(content)| > 60 ==> GoodBetween(SplitLines(content), chunks, 0, |SplitLines(content)|)
    ensures |SplitLines(content)| <= 60 ==> chunks == [FileChunk(1, |SplitLines(content)|, content)]
    ensures forall l: nat, n: nat :: 0 < n <= 11 && l + n <= |SplitLines(content)| ==> Together(chunks, l, n)
  {
    var lines := SplitLines(content);
    if |lines| <= 60 {
      chunks := [FileChunk(1, |lines|, content)];
      assert chunks[0] in chunks && forall l: nat :: l < |lines| ==> Holds(chunks[0], l);
      return;
    }
    OverlappingGood(lines, 0, |lines|);
    chunks := PushOverlapping(lines, 0, |lines|, []);
    assert chunks == Overlapping(lines, 0, |lines|);
    forall l: nat, n: nat | 0 < n <= 11 && l + n <= |lines|
      ensures Together(chunks, l, n)
    {
      WindowsOverlap(lines, 0, |lines|, l, n);
    }
  }
}
