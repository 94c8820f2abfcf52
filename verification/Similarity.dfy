/**
 packages/container/internal/bola/similarity.go: how alike two response bodies are. Numbers are reals
 where the source has floats; runes are numbers; UTF-8 decoding, JSON parsing and the Unicode tables
 are parameters.
 */
module Similarity {

  type Rune = nat

  // ---------------------------------------------------------------- edit distance

  /** Single-element edits, in the order of the text. */
  datatype Edit = Keep | Change | Insert | Remove

  /** The script, read from its end, turns `a` into `b`. */
  ghost predicate Turns<T>(script: seq<Edit>, a: seq<T>, b: seq<T>) {
    if script == [] then a == [] && b == []
    else
      var rest := script[..|script| - 1];
      match script[|script| - 1]
      case Keep => a != [] && b != [] && a[|a| - 1] == b[|b| - 1] && Turns(rest, a[..|a| - 1], b[..|b| - 1])
      case Change => a != [] && b != [] && Turns(rest, a[..|a| - 1], b[..|b| - 1])
      case Insert => b != [] && Turns(rest, a, b[..|b| - 1])
      case Remove => a != [] && Turns(rest, a[..|a| - 1], b)
  }

  ghost function Cost(script: seq<Edit>): nat {
    if script == [] then 0
    else Cost(script[..|script| - 1]) + (if script[|script| - 1].Keep? then 0 else 1)
  }

  function Min(a: nat, b: nat): nat {
    if a < b then a else b
  }

  /** The recursive edit distance. */
  function Distance<T(==)>(a: seq<T>, b: seq<T>): nat
    decreases |a| + |b|
  {
    if a == [] then |b|
    else if b == [] then |a|
    else
      var a', b' := a[..|a| - 1], b[..|b| - 1];
      var change := if a[|a| - 1] == b[|b| - 1] then 0 else 1;
      Min(Distance(a, b') + 1, Min(Distance(a', b) + 1, Distance(a', b') + change))
  }

  /** No script is cheaper than the distance. */
  lemma {:induction false} NoCheaperScript<T>(script: seq<Edit>, a: seq<T>, b: seq<T>)
    requires Turns(script, a, b)
    ensures Cost(script) >= Distance(a, b)
  {
    if script != [] {
      var rest := script[..|script| - 1];
      match script[|script| - 1]
      case Keep => NoCheaperScript(rest, a[..|a| - 1], b[..|b| - 1]);
      case Change => NoCheaperScript(rest, a[..|a| - 1], b[..|b| - 1]);
      case Insert => NoCheaperScript(rest, a, b[..|b| - 1]);
      case Remove => NoCheaperScript(rest, a[..|a| - 1], b);
    }
  }

  /** Some script costs exactly the distance. */
  lemma {:induction false} CheapestScript<T>(a: seq<T>, b: seq<T>) returns (script: seq<Edit>)
    ensures Turns(script, a, b) && Cost(script) == Distance(a, b)
    decreases |a| + |b|
  {
    if a == [] && b == [] {
      script := [];
    } else if a == [] || (b != [] && Distance(a, b) == Distance(a, b[..|b| - 1]) + 1) {
      var rest := CheapestScript(a, b[..|b| - 1]);
      script := rest + [Insert];
      assert script[..|script| - 1] == rest;
    } else if b == [] || Distance(a, b) == Distance(a[..|a| - 1], b) + 1 {
      var rest := CheapestScript(a[..|a| - 1], b);
      script := rest + [Remove];
      assert script[..|script| - 1] == rest;
    } else {
      var rest := CheapestScript(a[..|a| - 1], b[..|b| - 1]);
      script := rest + [if a[|a| - 1] == b[|b| - 1] then Keep else Change];
      assert script[..|script| - 1] == rest;
    }
  }

  lemma {:induction false} DistanceSymmetric<T>(a: seq<T>, b: seq<T>)
    ensures Distance(a, b) == Distance(b, a)
    decreases |a| + |b|
  {
    if a != [] && b != [] {
      DistanceSymmetric(a, b[..|b| - 1]);
      DistanceSymmetric(a[..|a| - 1], b);
      DistanceSymmetric(a[..|a| - 1], b[..|b| - 1]);
    }
  }

  lemma {:induction false} LengthBounds<T>(a: seq<T>, b: seq<T>)
    ensures Distance(a, b) <= (if |a| < |b| then |b| else |a|)
    ensures Distance(a, b) >= (if |a| < |b| then |b| - |a| else |a| - |b|)
    decreases |a| + |b|
  {
    if a != [] && b != [] {
      LengthBounds(a, b[..|b| - 1]);
      LengthBounds(a[..|a| - 1], b);
      LengthBounds(a[..|a| - 1], b[..|b| - 1]);
    }
  }

  lemma {:induction false} ZeroForEqual<T>(a: seq<T>, b: seq<T>)
    ensures Distance(a, b) == 0 <==> a == b
    decreases |a| + |b|
  {
    if a != [] && b != [] {
      var a', b' := a[..|a| - 1], b[..|b| - 1];
      ZeroForEqual(a', b');
      assert a == a' + [a[|a| - 1]] && b == b' + [b[|b| - 1]];
      if Distance(a, b) == 0 {
        assert Distance(a', b') == 0;
      }
    }
  }

  /** Between the difference of the lengths and the longer length; nothing exactly for equal texts. */
  lemma {:induction false} DistanceBounds<T>(a: seq<T>, b: seq<T>)
    ensures Distance(a, b) <= (if |a| < |b| then |b| else |a|)
    ensures Distance(a, b) >= (if |a| < |b| then |b| - |a| else |a| - |b|)
    ensures Distance(a, b) == 0 <==> a == b
  {
    LengthBounds(a, b);
    ZeroForEqual(a, b);
  }

  function Capped<T>(r: seq<T>, cap: nat): seq<T> {
    if |r| > cap then r[..cap] else r
  }

  /** The distance of two prefixes. */
  ghost function At<T>(a: seq<T>, b: seq<T>, y: nat, x: nat): nat
    requires y <= |a| && x <= |b|
  {
    Distance(a[..y], b[..x])
  }

  lemma AtStep<T>(a: seq<T>, b: seq<T>, y: nat, x: nat)
    requires 0 < y <= |a| && 0 < x <= |b|
    ensures
      At(a, b, y, x) ==
      Min(At(a, b, y, x - 1) + 1,
          Min(At(a, b, y - 1, x) + 1, At(a, b, y - 1, x - 1) + (if a[y - 1] == b[x - 1] then 0 else 1)))
  {
    assert a[..y][..y - 1] == a[..y - 1] && b[..x][..x - 1] == b[..x - 1];
  }

  /** One column of the table, updated in place, gives the recursive distance. */
  method NextColumn<T(==)>(r1: seq<T>, r2: seq<T>, column: array<nat>, x: nat)
    requires 0 < x <= |r2| && column.Length == |r1| + 1
    requires forall y :: 0 <= y <= |r1| ==> column[y] == At(r1, r2, y, x - 1)
    modifies column
    ensures forall y :: 0 <= y <= |r1| ==> column[y] == At(r1, r2, y, x)
  {
    column[0] := x;
    var lastkey := x - 1;
    for y := 1 to |r1| + 1
      invariant forall k :: 0 <= k < y ==> column[k] == At(r1, r2, k, x)
      invariant forall k :: y <= k <= |r1| ==> column[k] == At(r1, r2, k, x - 1)
      invariant lastkey == At(r1, r2, y - 1, x - 1)
    {
      var oldkey := column[y];
      var incr := if r1[y - 1] != r2[x - 1] then 1 else 0;
      AtStep(r1, r2, y, x);
      column[y] := Min(column[y] + 1, Min(column[y - 1] + 1, lastkey + incr));
      lastkey := oldkey;
    }
  }

  method LevenshteinDistance<T(==)>(s1: seq<T>, s2: seq<T>) returns (d: nat)
    ensures d == Distance(Capped(s1, 5000), Capped(s2, 5000))
  {
    var r1, r2 := Capped(s1, 5000), Capped(s2, 5000);
    var len1, len2 := |r1|, |r2|;
    if len1 == 0 {
      return len2;
    }
    if len2 == 0 {
      return len1;
    }
    var column := new nat[len1 + 1](y => y);
    for x := 1 to len2 + 1
      invariant forall y :: 0 <= y <= len1 ==> column[y] == At(r1, r2, y, x - 1)
    {
      NextColumn(r1, r2, column, x);
    }
    assert r1[..len1] == r1 && r2[..len2] == r2;
    return column[len1];
  }

  /** 1 for equal texts, 0 for entirely different ones; long texts are compared by their beginning. */
  function NormalizedLevenshtein(s1: seq<Rune>, s2: seq<Rune>): (r: real)
    ensures 0.0 <= r <= 1.0
  {
    var maxLen := if |s2| > |s1| then |s2| else |s1|;
    if maxLen == 0 then 1.0
    else
      var r1 := if maxLen > 2000 then Capped(s1, 2000) else s1;
      var r2 := if maxLen > 2000 then Capped(s2, 2000) else s2;
      var longer := if |r2| > |r1| then |r2| else |r1|;
      DistanceBounds(Capped(r1, 5000), Capped(r2, 5000));
      RatioBounds(Distance(Capped(r1, 5000), Capped(r2, 5000)), longer);
      1.0 - Distance(Capped(r1, 5000), Capped(r2, 5000)) as real / longer as real
  }

  lemma QuotientBounds(n: real, d: real, q: real)
    requires 0.0 <= n <= d && d > 0.0 && q * d == n
    ensures 0.0 <= q <= 1.0
    ensures (q == 1.0 <==> n == d) && (q == 0.0 <==> n == 0.0)
  {
    assert (1.0 - q) * d == d - n;
    assert q < 0.0 ==> q * d < 0.0;
    assert 1.0 - q < 0.0 ==> (1.0 - q) * d < 0.0;
  }

  lemma RatioBounds(n: nat, d: nat)
    requires n <= d && d > 0
    ensures 0.0 <= n as real / d as real <= 1.0
    ensures n as real / d as real == 1.0 <==> n == d
    ensures n as real / d as real == 0.0 <==> n == 0
  {
    var q := n as real / d as real;
    assert q * d as real == n as real;
    QuotientBounds(n as real, d as real, q);
  }

  lemma NormalizedSymmetric(s1: seq<Rune>, s2: seq<Rune>)
    ensures NormalizedLevenshtein(s1, s2) == NormalizedLevenshtein(s2, s1)
  {
    DistanceSymmetric(s1, s2);
    DistanceSymmetric(Capped(s1, 2000), Capped(s2, 2000));
  }

  // ---------------------------------------------------------------- tokens

  function Jaccard<T(==)>(a: set<T>, b: set<T>): (r: real)
    ensures 0.0 <= r <= 1.0
    ensures r == 1.0 <==> a == b
  {
    if a == {} && b == {} then 1.0
    else
      var common := |a * b|;
      Cardinalities(a, b);
      RatioBounds(common, |a| + |b| - common);
      common as real / (|a| + |b| - common) as real
  }

  lemma Cardinalities<T>(a: set<T>, b: set<T>)
    ensures |a * b| <= |a| && |a * b| <= |b|
    ensures |a| + |b| - |a * b| == |a + b|
    ensures |a * b| == |a + b| <==> a == b
    ensures |a + b| == 0 <==> a == {} && b == {}
  {
    assert a == (a * b) + (a - b) && (a * b) !! (a - b);
    assert b == (a * b) + (b - a) && (a * b) !! (b - a);
    assert a + b == (a * b) + (a - b) + (b - a);
    assert |a + b| == |a * b| + |a - b| + |b - a|;
    if |a * b| == |a + b| {
      assert a - b == {} && b - a == {};
    }
  }

  lemma JaccardSymmetric<T>(a: set<T>, b: set<T>)
    ensures Jaccard(a, b) == Jaccard(b, a)
  {
    assert a * b == b * a;
  }

  /** A longest run of letters and digits. */
  predicate Run(s: seq<Rune>, isWord: Rune -> bool, i: nat, j: nat)
    requires i <= j <= |s|
  {
    && i < j
    && (forall k :: i <= k < j ==> isWord(s[k]))
    && (i == 0 || !isWord(s[i - 1]))
    && (j == |s| || !isWord(s[j]))
  }

  function Lowered(s: seq<Rune>, lower: Rune -> Rune): seq<Rune> {
    seq(|s|, k requires 0 <= k < |s| => lower(s[k]))
  }

  /** Every longest run of letters and digits, in lower case. */
  function Tokens(s: seq<Rune>, isWord: Rune -> bool, lower: Rune -> Rune): set<seq<Rune>> {
    set i, j | 0 <= i <= j <= |s| && Run(s, isWord, i, j) :: Lowered(s[i..j], lower)
  }

  method Tokenize(s: seq<Rune>, isWord: Rune -> bool, lower: Rune -> Rune) returns (tokens: set<seq<Rune>>)
    ensures tokens == Tokens(s, isWord, lower)
  {
    tokens := {};
    var current: seq<Rune> := [];
    ghost var start := 0;
    for n := 0 to |s|
      invariant start <= n && current == Lowered(s[start..n], lower)
      invariant forall k :: start <= k < n ==> isWord(s[k])
      invariant start == 0 || !isWord(s[start - 1])
      invariant forall t :: t in tokens <==>
        exists i, j :: 0 <= i <= j < start && Run(s, isWord, i, j) && t == Lowered(s[i..j], lower)
    {
      if isWord(s[n]) {
        current := current + [lower(s[n])];
      } else {
        ghost var was := tokens;
        if |current| > 0 {
          tokens := tokens + {current};
          assert Run(s, isWord, start, n);
        }
        current := [];
        forall t
          ensures t in tokens <==>
            exists i, j :: 0 <= i <= j < n + 1 && Run(s, isWord, i, j) && t == Lowered(s[i..j], lower)
        {
          RunsUpTo(s, isWord, lower, start, n, t);
        }
        start := n + 1;
      }
    }
    if |current| > 0 {
      tokens := tokens + {current};
      assert Run(s, isWord, start, |s|);
    }
    forall t
      ensures t in tokens <==> t in Tokens(s, isWord, lower)
    {
      RunsUpTo(s, isWord, lower, start, |s|, t);
    }
  }

  /** A run that ends at `n` or before either ends before `start` or is the one from `start` to `n`. */
  lemma RunsUpTo(s: seq<Rune>, isWord: Rune -> bool, lower: Rune -> Rune, start: nat, n: nat, t: seq<Rune>)
    requires start <= n <= |s|
    requires forall k :: start <= k < n ==> isWord(s[k])
    requires start == 0 || !isWord(s[start - 1])
    requires n == |s| || !isWord(s[n])
    ensures
      (exists i, j :: 0 <= i <= j <= n && Run(s, isWord, i, j) && t == Lowered(s[i..j], lower)) <==>
      (start < n && t == Lowered(s[start..n], lower)) ||
      exists i, j :: 0 <= i <= j < start && Run(s, isWord, i, j) && t == Lowered(s[i..j], lower)
  {
    if start < n {
      assert Run(s, isWord, start, n);
    }
    forall i, j | 0 <= i <= j <= n && Run(s, isWord, i, j)
      ensures j < start || (i == start && j == n)
    {
      if j >= start {
        assert i >= start;
      }
    }
  }

  // ---------------------------------------------------------------- JSON structure

  datatype Json =
    | JNull
    | JBool(b: bool)
    | JNumber(n: real)
    | JString(s: string)
    | JArray(elems: seq<Json>)
    | JObject(fields: seq<Field>)

  datatype Field = Field(key: string, val: Json)

  function Extend(prefix: string, key: string): string {
    if prefix == "" then key else prefix + "." + key
  }

  /** The paths of the keys in `v`, below `prefix`. */
  function Paths(v: Json, prefix: string): set<string>
    decreases v, 0
  {
    match v
    case JObject(fields) => FieldPaths(fields, prefix)
    case JArray(elems) => ElemPaths(elems, prefix)
    case _ => {}
  }

  function FieldPaths(fields: seq<Field>, prefix: string): set<string>
    decreases fields
  {
    if fields == [] then {}
    else
      var path := Extend(prefix, fields[0].key);
      {path} + Paths(fields[0].val, path) + FieldPaths(fields[1..], prefix)
  }

  function ElemPaths(elems: seq<Json>, prefix: string): set<string>
    decreases elems
  {
    if elems == [] then {} else Paths(elems[0], prefix) + ElemPaths(elems[1..], prefix)
  }

  function Kind(v: Json): nat {
    match v
    case JNull => 0
    case JBool(_) => 1
    case JNumber(_) => 2
    case JString(_) => 3
    case JArray(_) => 4
    case JObject(_) => 5
  }

  datatype Parsed = NotJson | IsJson(val: Json)

  /** A trimmed response body: its size, its text, and what it is as JSON. */
  datatype Body = Body(size: nat, text: seq<Rune>, json: Parsed)

  function StructureSimilarity(a: Json, b: Json): (r: real)
    ensures 0.0 <= r <= 1.0
  {
    var pathsA, pathsB := Paths(a, ""), Paths(b, "");
    if pathsA == {} && pathsB == {} then (if Kind(a) == Kind(b) then 1.0 else 0.0)
    else Jaccard(pathsA, pathsB)
  }

  const MAX_SIZE: nat := 50000

  function CheckSimilarity(a: Body, b: Body, isWord: Rune -> bool, lower: Rune -> Rune): (r: real)
    ensures 0.0 <= r <= 1.0
  {
    if a.size == 0 && b.size == 0 then 1.0
    else if a.size == 0 || b.size == 0 then 0.0
    else if a.size > MAX_SIZE || b.size > MAX_SIZE then 0.0
    else
      var textSim := Jaccard(Tokens(a.text, isWord, lower), Tokens(b.text, isWord, lower));
      if a.json.IsJson? && b.json.IsJson? then
        0.8 * StructureSimilarity(a.json.val, b.json.val) + 0.2 * textSim
      else
        var levSim := NormalizedLevenshtein(a.text, b.text);
        if levSim > textSim then levSim else textSim
  }

  lemma StructureSymmetric(a: Json, b: Json)
    ensures StructureSimilarity(a, b) == StructureSimilarity(b, a)
  {
    JaccardSymmetric(Paths(a, ""), Paths(b, ""));
  }

  lemma SimilaritySymmetric(a: Body, b: Body, isWord: Rune -> bool, lower: Rune -> Rune)
    ensures CheckSimilarity(a, b, isWord, lower) == CheckSimilarity(b, a, isWord, lower)
  {
    JaccardSymmetric(Tokens(a.text, isWord, lower), Tokens(b.text, isWord, lower));
    NormalizedSymmetric(a.text, b.text);
    if a.json.IsJson? && b.json.IsJson? {
      StructureSymmetric(a.json.val, b.json.val);
    }
  }

  /** A body is fully similar to itself exactly when it is not over the size limit. */
  lemma SimilarToItself(a: Body, isWord: Rune -> bool, lower: Rune -> Rune)
    ensures CheckSimilarity(a, a, isWord, lower) == 1.0 <==> a.size <= MAX_SIZE
  {
    DistanceBounds(a.text, a.text);
    DistanceBounds(Capped(a.text, 2000), Capped(a.text, 2000));
  }

  // ---------------------------------------------------------------- what the key paths are

  /** Following the keys `ks` from `v`, through arrays, arrives at a value. */
  ghost predicate Leads(v: Json, ks: seq<string>)
    decreases v
  {
    match v
    case JObject(fields) =>
      exists i :: 0 <= i < |fields| && LeadsFrom(fields[i], ks)
    case JArray(elems) => exists i :: 0 <= i < |elems| && Leads(elems[i], ks)
    case _ => false
  }

  ghost predicate LeadsFrom(f: Field, ks: seq<string>)
    decreases f
  {
    ks != [] && f.key == ks[0] && (|ks| == 1 || Leads(f.val, ks[1..]))
  }

  /** The keys joined by dots, after what is there already. */
  function Joined(prefix: string, ks: seq<string>): string
    decreases |ks|
  {
    if ks == [] then prefix else Joined(Extend(prefix, ks[0]), ks[1..])
  }

  lemma {:induction false} PathLeads(v: Json, prefix: string, path: string) returns (ks: seq<string>)
    requires path in Paths(v, prefix)
    ensures Leads(v, ks) && Joined(prefix, ks) == path
    decreases v, 0
  {
    match v
    case JObject(fields) =>
      var i;
      i, ks := FieldPathLeads(fields, prefix, path);
    case JArray(elems) =>
      var i;
      i, ks := ElemPathLeads(elems, prefix, path);
  }

  lemma {:induction false} FieldPathLeads(fields: seq<Field>, prefix: string, path: string)
      returns (i: nat, ks: seq<string>)
    requires path in FieldPaths(fields, prefix)
    ensures i < |fields| && LeadsFrom(fields[i], ks) && Joined(prefix, ks) == path
    decreases fields
  {
    var f := fields[0];
    var here := Extend(prefix, f.key);
    if path == here {
      i, ks := 0, [f.key];
      assert Joined(here, ks[1..]) == here;
    } else if path in Paths(f.val, here) {
      var rest := PathLeads(f.val, here, path);
      i, ks := 0, [f.key] + rest;
      assert ks[1..] == rest;
    } else {
      i, ks := FieldPathLeads(fields[1..], prefix, path);
      i := i + 1;
    }
  }

  lemma {:induction false} ElemPathLeads(elems: seq<Json>, prefix: string, path: string)
      returns (i: nat, ks: seq<string>)
    requires path in ElemPaths(elems, prefix)
    ensures i < |elems| && Leads(elems[i], ks) && Joined(prefix, ks) == path
    decreases elems
  {
    if path in Paths(elems[0], prefix) {
      ks := PathLeads(elems[0], prefix, path);
      i := 0;
    } else {
      i, ks := ElemPathLeads(elems[1..], prefix, path);
      i := i + 1;
    }
  }

  lemma {:induction false} LeadsToPath(v: Json, prefix: string, ks: seq<string>)
    requires Leads(v, ks)
    ensures Joined(prefix, ks) in Paths(v, prefix)
    decreases v
  {
    match v
    case JObject(fields) =>
      var i :| 0 <= i < |fields| && LeadsFrom(fields[i], ks);
      FieldLeadsToPath(fields[i], prefix, ks);
      FieldIn(fields, prefix, i);
    case JArray(elems) =>
      var i :| 0 <= i < |elems| && Leads(elems[i], ks);
      LeadsToPath(elems[i], prefix, ks);
      ElemIn(elems, prefix, i);
  }

  lemma {:induction false} FieldLeadsToPath(f: Field, prefix: string, ks: seq<string>)
    requires LeadsFrom(f, ks)
    ensures
      var here := Extend(prefix, f.key);
      Joined(prefix, ks) in {here} + Paths(f.val, here)
    decreases f
  {
    if |ks| > 1 {
      LeadsToPath(f.val, Extend(prefix, f.key), ks[1..]);
    } else {
      assert Joined(Extend(prefix, f.key), ks[1..]) == Extend(prefix, f.key);
    }
  }

  lemma {:induction false} FieldIn(fields: seq<Field>, prefix: string, i: nat)
    requires i < |fields|
    ensures
      var here := Extend(prefix, fields[i].key);
      {here} + Paths(fields[i].val, here) <= FieldPaths(fields, prefix)
  {
    if i > 0 {
      FieldIn(fields[1..], prefix, i - 1);
    }
  }

  lemma {:induction false} ElemIn(elems: seq<Json>, prefix: string, i: nat)
    requires i < |elems|
    ensures Paths(elems[i], prefix) <= ElemPaths(elems, prefix)
  {
    if i > 0 {
      ElemIn(elems[1..], prefix, i - 1);
    }
  }

  /** The paths are exactly the ways through the keys of objects, those inside arrays included. */
  lemma PathsExactly(v: Json, path: string)
    ensures path in Paths(v, "") <==> exists ks :: Leads(v, ks) && Joined("", ks) == path
  {
    if path in Paths(v, "") {
      var ks := PathLeads(v, "", path);
    }
    if ks :| Leads(v, ks) && Joined("", ks) == path {
      LeadsToPath(v, "", ks);
    }
  }

  // ---------------------------------------------------------------- what weighs how much

  lemma DisjointJaccard<T>(a: set<T>, b: set<T>)
    requires a * b == {} && a + b != {}
    ensures Jaccard(a, b) == 0.0
  {
    Cardinalities(a, b);
    assert |a * b| == 0;
    RatioBounds(0, |a| + |b|);
  }

  /** Of two JSON bodies with key paths, the same paths make them at least 0.8 similar, and 0.8 without a common
      word; no path in common makes them at most 0.2 similar, and 0.2 with the same words. */
  lemma StructureWeighs(a: Body, b: Body, isWord: Rune -> bool, lower: Rune -> Rune)
    requires 0 < a.size <= MAX_SIZE && 0 < b.size <= MAX_SIZE && a.json.IsJson? && b.json.IsJson?
    requires Paths(a.json.val, "") != {} && Paths(b.json.val, "") != {}
    ensures
      var sim := CheckSimilarity(a, b, isWord, lower);
      var wordsA, wordsB := Tokens(a.text, isWord, lower), Tokens(b.text, isWord, lower);
      var pathsA, pathsB := Paths(a.json.val, ""), Paths(b.json.val, "");
      && (pathsA == pathsB ==> sim >= 0.8)
      && (pathsA == pathsB && wordsA * wordsB == {} && wordsA + wordsB != {} ==> sim == 0.8)
      && (pathsA * pathsB == {} ==> sim <= 0.2)
      && (pathsA * pathsB == {} && wordsA == wordsB ==> sim == 0.2)
  {
    var wordsA, wordsB := Tokens(a.text, isWord, lower), Tokens(b.text, isWord, lower);
    if wordsA * wordsB == {} && wordsA + wordsB != {} {
      DisjointJaccard(wordsA, wordsB);
    }
    var pathsA, pathsB := Paths(a.json.val, ""), Paths(b.json.val, "");
    if pathsA * pathsB == {} {
      DisjointJaccard(pathsA, pathsB);
    }
  }

  /** Other bodies are as similar as the larger of the two measures of their texts. */
  lemma LargerMeasure(a: Body, b: Body, isWord: Rune -> bool, lower: Rune -> Rune)
    requires 0 < a.size <= MAX_SIZE && 0 < b.size <= MAX_SIZE && !(a.json.IsJson? && b.json.IsJson?)
    ensures
      var sim := CheckSimilarity(a, b, isWord, lower);
      var words := Jaccard(Tokens(a.text, isWord, lower), Tokens(b.text, isWord, lower));
      sim >= words && sim >= NormalizedLevenshtein(a.text, b.text) &&
      (sim == words || sim == NormalizedLevenshtein(a.text, b.text))
  {
  }
}
