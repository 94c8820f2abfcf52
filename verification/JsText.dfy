/** White space, trimming and looking ahead, as in JavaScript strings. */
module JsText {

  /** What String.prototype.trim removes. */
  predicate Space(c: char) {
    var n := c as int;
    9 <= n <= 13 || n in {0x20, 0xA0, 0x1680, 0x2028, 0x2029, 0x202F, 0x205F, 0x3000, 0xFEFF} || 0x2000 <= n <= 0x200A
  }

  function TrimStart(s: string): (r: string)
    ensures |r| <= |s|
    ensures r != [] ==> !Space(r[0])
    ensures s != [] && !Space(s[0]) ==> r == s
    ensures |r| == |s| ==> r == s
  {
    if s != [] && Space(s[0]) then TrimStart(s[1..]) else s
  }

  function TrimEnd(s: string): (r: string)
    ensures r <= s
    ensures r != [] ==> !Space(r[|r| - 1])
    ensures s != [] && !Space(s[|s| - 1]) ==> r == s
  {
    if s != [] && Space(s[|s| - 1]) then TrimEnd(s[..|s| - 1]) else s
  }

  function Trim(s: string): (r: string)
    ensures |r| <= |s| && (|r| == |s| ==> r == s)
    ensures r != [] ==> !Space(r[0]) && !Space(r[|r| - 1])
  {
    TrimEnd(TrimStart(s))
  }

  lemma TrimTwice(s: string)
    ensures Trim(Trim(s)) == Trim(s)
  {
    var r := Trim(s);
    assert TrimStart(r) == r;
  }

  /** These two characters stand at position `i`. */
  predicate PairAt(s: string, i: nat, a: char, b: char)
    requires i < |s|
  {
    s[i] == a && i + 1 < |s| && s[i + 1] == b
  }

  /** These two characters stand somewhere next to each other. */
  predicate HasPair(s: string, a: char, b: char) {
    exists i :: 0 <= i < |s| && PairAt(s, i, a, b)
  }

  lemma PairInRest(c: string, a: char, b: char)
    requires c != ""
    ensures HasPair(c[1..], a, b) ==> HasPair(c, a, b)
    ensures PairAt(c, 0, a, b) ==> HasPair(c, a, b)
  {
    if HasPair(c[1..], a, b) {
      var i :| 0 <= i < |c[1..]| && PairAt(c[1..], i, a, b);
      assert PairAt(c, i + 1, a, b);
    }
  }

  lemma {:induction false} FindChar(s: string, c: char) returns (n: nat)
    ensures n <= |s| && c !in s[..n] && (n < |s| ==> s[n] == c)
  {
    n := 0;
    while n < |s| && s[n] != c
      invariant n <= |s| && c !in s[..n]
    {
      n := n + 1;
    }
  }

  lemma {:induction false} FindPair(s: string, a: char, b: char) returns (n: nat)
    ensures n <= |s| && !HasPair(s[..n], a, b)
    ensures n < |s| ==> n + 2 <= |s| && s[n] == a && s[n + 1] == b
  {
    n := 0;
    while n < |s| && !(n + 1 < |s| && s[n] == a && s[n + 1] == b)
      invariant n <= |s|
      invariant forall i :: 0 <= i < n && i + 1 < |s| ==> !(s[i] == a && s[i + 1] == b)
    {
      n := n + 1;
    }
  }
}
