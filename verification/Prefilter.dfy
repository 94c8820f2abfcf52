/**
 packages/container/internal/analyzer/prefilter.go and the cached views of analyzer.go: a
 case-insensitive substring search with a lazily built index of the two-byte pairs of the body.
 */
module Prefilter {

  type Byte = bv8
  type Bytes = seq<Byte>

  const MIN_BIGRAM_BODY_LEN := 2048
  const MIN_BIGRAM_NEEDLES := 4
  const INDEX_WORDS := 1024

  predicate Upper(c: Byte) {
    65 <= c <= 90
  }

  function Fold(c: Byte): Byte {
    if Upper(c) then c + 32 else c
  }

  function Lowered(b: Bytes): (r: Bytes)
    ensures |r| == |b|
    ensures forall i :: 0 <= i < |b| ==> r[i] == Fold(b[i])
  {
    seq(|b|, i requires 0 <= i < |b| => Fold(b[i]))
  }

  /** The needle stands at position `i`, letter case aside. */
  predicate FoldedAt(body: Bytes, needle: Bytes, i: nat) {
    i + |needle| <= |body| && forall j :: 0 <= j < |needle| ==> Fold(body[i + j]) == Fold(needle[j])
  }

  ghost predicate ContainsFold(body: Bytes, needle: Bytes) {
    exists i: nat :: FoldedAt(body, needle, i)
  }

  predicate StandsAt(body: Bytes, needle: Bytes, i: nat) {
    i + |needle| <= |body| && body[i..i + |needle|] == needle
  }

  /** bytes.Contains */
  predicate Contains(body: Bytes, needle: Bytes) {
    exists i: nat | i <= |body| :: StandsAt(body, needle, i)
  }

  lemma LowercasedContains(body: Bytes, needle: Bytes)
    ensures Contains(Lowered(body), Lowered(needle)) <==> ContainsFold(body, needle)
  {
    var low, n := Lowered(body), Lowered(needle);
    forall i: nat
      ensures StandsAt(low, n, i) <==> FoldedAt(body, needle, i)
    {
      if StandsAt(low, n, i) {
        forall j | 0 <= j < |needle|
          ensures Fold(body[i + j]) == Fold(needle[j])
        {
          assert low[i..i + |n|][j] == n[j];
        }
      }
    }
    if ContainsFold(body, needle) {
      var i: nat :| FoldedAt(body, needle, i);
      assert StandsAt(low, n, i);
    }
  }

  // ---------------------------------------------------------------- the pair index

  function Pair(a: Byte, b: Byte): bv16 {
    ((a as bv16) << 8) | (b as bv16)
  }

  function Number(a: bv16): (n: nat)
    ensures a < 1024 ==> n < INDEX_WORDS
  {
    a as int
  }

  function Word(pair: bv16): (i: nat)
    ensures i < INDEX_WORDS
  {
    Number(pair >> 6)
  }

  function Mask(pair: bv16): bv64 {
    (1 as bv64) << (pair & 63)
  }

  predicate Has(index: seq<bv64>, pair: bv16)
    requires |index| == INDEX_WORDS
  {
    index[Word(pair)] & Mask(pair) != 0
  }

  function Marked(index: seq<bv64>, pair: bv16): (r: seq<bv64>)
    requires |index| == INDEX_WORDS
    ensures |r| == INDEX_WORDS
  {
    index[Word(pair) := index[Word(pair)] | Mask(pair)]
  }

  lemma PairsDiffer(a: Byte, b: Byte, c: Byte, d: Byte)
    ensures Pair(a, b) == Pair(c, d) <==> a == c && b == d
  {
  }

  lemma SameNumber(a: bv16, b: bv16)
    requires Number(a) == Number(b)
    ensures a == b
  {
    assert (a as int) as bv16 == a && (b as int) as bv16 == b;
  }

  lemma SameBit(p: bv16, q: bv16)
    requires Word(p) == Word(q) && p & 63 == q & 63
    ensures p == q
  {
    SameNumber(p >> 6, q >> 6);
  }

  lemma OneBitMore(word: bv64, p: bv16, q: bv16)
    ensures (word | Mask(p)) & Mask(q) != 0 <==> p & 63 == q & 63 || word & Mask(q) != 0
  {
  }

  /** Setting one pair's bit adds that pair to the index and no other. */
  lemma SetAddsOne(index: seq<bv64>, p: bv16, q: bv16)
    requires |index| == INDEX_WORDS
    ensures Has(Marked(index, p), q) <==> p == q || Has(index, q)
  {
    if Word(p) == Word(q) {
      OneBitMore(index[Word(p)], p, q);
      if p & 63 == q & 63 {
        SameBit(p, q);
      }
    }
  }

  /** The index has exactly the pairs found before position `n` of the text. */
  ghost predicate Indexes(index: seq<bv64>, text: Bytes, n: nat)
    requires |index| == INDEX_WORDS && n < |text|
  {
    forall p :: Has(index, p) <==> PairWithin(text, n, p)
  }

  ghost predicate PairWithin(text: Bytes, n: nat, p: bv16)
    requires n < |text|
  {
    exists i :: 0 <= i < n && Pair(text[i], text[i + 1]) == p
  }

  lemma IndexStep(index: seq<bv64>, text: Bytes, n: nat)
    requires |index| == INDEX_WORDS && n + 1 < |text|
    requires Indexes(index, text, n)
    ensures
      var p := Pair(text[n], text[n + 1]);
      Indexes(Marked(index, p), text, n + 1)
  {
    var p := Pair(text[n], text[n + 1]);
    var index' := Marked(index, p);
    forall q
      ensures Has(index', q) <==> PairWithin(text, n + 1, q)
    {
      SetAddsOne(index, p, q);
      if PairWithin(text, n, q) {
        var i :| 0 <= i < n && Pair(text[i], text[i + 1]) == q;
        assert 0 <= i < n + 1;
      }
    }
  }

  lemma EmptyIndex(index: seq<bv64>, text: Bytes)
    requires |index| == INDEX_WORDS && text != []
    requires forall w :: 0 <= w < INDEX_WORDS ==> index[w] == 0
    ensures Indexes(index, text, 0)
  {
    forall q
      ensures !Has(index, q)
    {
      var w := index[Word(q)];
      assert w == 0;
      assert w & Mask(q) == 0;
    }
  }

  /** No two pairs share a bit: the finished index has exactly the neighbours in the text. */
  lemma IndexExact(index: seq<bv64>, text: Bytes, a: Byte, b: Byte)
    requires |index| == INDEX_WORDS && text != [] && Indexes(index, text, |text| - 1)
    ensures Has(index, Pair(a, b)) <==> exists i :: 0 <= i < |text| - 1 && text[i] == a && text[i + 1] == b
  {
    forall i | 0 <= i < |text| - 1
      ensures Pair(text[i], text[i + 1]) == Pair(a, b) <==> text[i] == a && text[i + 1] == b
    {
      PairsDiffer(text[i], text[i + 1], a, b);
    }
    if Has(index, Pair(a, b)) {
      assert PairWithin(text, |text| - 1, Pair(a, b));
    }
  }

  /** The index never turns away a needle that occurs: each of its pairs is there. */
  lemma OccurringPairsIndexed(index: seq<bv64>, text: Bytes, needle: Bytes, j: nat)
    requires |index| == INDEX_WORDS && text != [] && Indexes(index, text, |text| - 1)
    requires Contains(text, needle) && j + 1 < |needle|
    ensures Has(index, Pair(needle[j], needle[j + 1]))
  {
    var i: nat :| i <= |text| && StandsAt(text, needle, i);
    assert text[i + j] == needle[j] && text[i + j + 1] == needle[j + 1];
    assert 0 <= i + j < |text| - 1 && Pair(text[i + j], text[i + j + 1]) == Pair(needle[j], needle[j + 1]);
    assert PairWithin(text, |text| - 1, Pair(needle[j], needle[j + 1]));
  }

  // ---------------------------------------------------------------- loops over bytes

  method LowerASCIIInto(dst: array<Byte>, b: Bytes)
    requires dst.Length == |b|
    modifies dst
    ensures dst[..] == Lowered(b)
  {
    for i := 0 to |b|
      invariant forall k :: 0 <= k < i ==> dst[k] == Fold(b[k])
    {
      var c := b[i];
      if 65 <= c <= 90 {
        c := c + 32;
      }
      dst[i] := c;
    }
  }

  /** The needle itself when it has no capital, a lowered copy otherwise. */
  method LowerNeedle(needle: Bytes) returns (r: Bytes)
    ensures r == Lowered(needle)
  {
    for i := 0 to |needle|
      invariant forall k :: 0 <= k < i ==> !Upper(needle[k])
    {
      if 65 <= needle[i] <= 90 {
        var copy := new Byte[|needle|];
        LowerASCIIInto(copy, needle);
        return copy[..];
      }
    }
    return needle;
  }

  /** The leftmost position of the needle, letter case aside, or -1 when it occurs nowhere. */
  method IndexFoldASCII(haystack: Bytes, needle: Bytes) returns (r: int)
    ensures r < 0 ==> r == -1 && !ContainsFold(haystack, needle)
    ensures r >= 0 ==> FoldedAt(haystack, needle, r) && forall i: nat | i < r :: !FoldedAt(haystack, needle, i)
  {
    if |needle| == 0 {
      return 0;
    }
    if |haystack| < |needle| {
      return -1;
    }
    var firstLower := needle[0];
    var firstUpper := firstLower;
    if 97 <= firstLower <= 122 {
      firstUpper := firstLower - 32;
    } else if 65 <= firstLower <= 90 {
      firstLower := firstLower + 32;
    }
    FirstByte(needle[0], firstLower, firstUpper);
    for i := 0 to |haystack| - |needle| + 1
      invariant forall k: nat | k < i :: !FoldedAt(haystack, needle, k)
    {
      var c := haystack[i];
      if c == firstLower || c == firstUpper {
        var match' := MatchesFrom(haystack, needle, i);
        if match' {
          return i;
        }
      } else {
        assert Fold(haystack[i + 0]) != Fold(needle[0]);
      }
    }
    return -1;
  }

  lemma FirstByte(first: Byte, lower: Byte, upper: Byte)
    requires
      if 97 <= first <= 122 then lower == first && upper == first - 32
      else if 65 <= first <= 90 then lower == first + 32 && upper == first
      else lower == first && upper == first
    ensures forall c: Byte :: c == lower || c == upper <==> Fold(c) == Fold(first)
  {
  }

  /** The inner loop: the bytes after the first, which the caller has matched. */
  method MatchesFrom(haystack: Bytes, needle: Bytes, i: nat) returns (matches: bool)
    requires needle != [] && i + |needle| <= |haystack|
    requires Fold(haystack[i]) == Fold(needle[0])
    ensures matches <==> FoldedAt(haystack, needle, i)
  {
    for j := 1 to |needle|
      invariant forall k :: 0 <= k < j ==> Fold(haystack[i + k]) == Fold(needle[k])
    {
      var hc, nc := haystack[i + j], needle[j];
      if hc != nc {
        if 65 <= hc <= 90 {
          hc := hc + 32;
        }
        if 65 <= nc <= 90 {
          nc := nc + 32;
        }
        if hc != nc {
          assert Fold(haystack[i + j]) != Fold(needle[j]);
          return false;
        }
      }
    }
    return true;
  }

  /**
   The leftmost match of an anchored pattern, skipping positions that cannot start one. `end(i)` is
   where the pattern's match at position `i` ends, -1 for none: the regular expression is a parameter.
   */
  method FindFrom(body: Bytes, end: nat -> int, first: Byte, canStart: nat -> bool) returns (from: int, to: int)
    requires forall i: nat | i < |body| && end(i) >= 0 :: body[i] == first && canStart(i)
    ensures from == -1 ==> forall i: nat | i < |body| :: end(i) < 0
    ensures from != -1 ==> 0 <= from < |body| && to == end(from) >= 0
    ensures from != -1 ==> forall i: nat | i < from :: end(i) < 0
  {
    var i := 0;
    while i < |body|
      invariant 0 <= i <= |body|
      invariant forall k: nat | k < i :: end(k) < 0
    {
      while i < |body| && body[i] != first
        invariant 0 <= i <= |body|
        invariant forall k: nat | k < i :: end(k) < 0
      {
        i := i + 1;
      }
      if i == |body| {
        return -1, -1;
      }
      if canStart(i) && end(i) >= 0 {
        return i, end(i);
      }
      i := i + 1;
    }
    return -1, -1;
  }

  // ---------------------------------------------------------------- the cached views

  class AnalysisInput {
    var responseBody: Bytes
    var lowered: array?<Byte>
    var loweredDone: bool
    var bigrams: array?<bv64>
    var bigramsDone: bool
    var needleChecks: nat

    /** Whatever is cached was computed from the body held now. */
    ghost predicate Valid()
      reads this, lowered, bigrams
    {
      && (loweredDone ==> lowered != null && lowered[..] == Lowered(responseBody))
      && (bigramsDone ==> bigrams != null && bigrams.Length == INDEX_WORDS && loweredDone)
      && (bigramsDone && responseBody != [] ==> Indexes(bigrams[..], Lowered(responseBody), |responseBody| - 1))
    }

    constructor (body: Bytes)
      ensures Valid() && responseBody == body && !loweredDone && !bigramsDone
    {
      responseBody, needleChecks := body, 0;
      lowered, loweredDone := null, false;
      bigrams, bigramsDone := null, false;
    }

    /** A pooled input taken for another response. */
    method Acquire(body: Bytes)
      modifies this
      ensures Valid() && responseBody == body
    {
      responseBody, needleChecks := body, 0;
      lowered, loweredDone := null, false;
      bigrams, bigramsDone := null, false;
    }

    method Release()
      modifies this
      ensures Valid() && responseBody == old(responseBody)
      ensures !loweredDone && !bigramsDone && needleChecks == 0
    {
      lowered, loweredDone := null, false;
      bigrams, bigramsDone := null, false;
      needleChecks := 0;
    }

    /** The lowered body, computed once; a buffer from the pool still holds another body's bytes. */
    method LowerBody() returns (r: array<Byte>)
      requires Valid()
      modifies this
      ensures Valid() && loweredDone && lowered == r && r[..] == Lowered(responseBody)
      ensures old(loweredDone) ==> r == old(lowered)
      ensures responseBody == old(responseBody) && needleChecks == old(needleChecks)
      ensures bigrams == old(bigrams) && bigramsDone == old(bigramsDone)
    {
      if !loweredDone {
        var buffer := new Byte[|responseBody|];
        LowerASCIIInto(buffer, responseBody);
        lowered := buffer;
        loweredDone := true;
      }
      r := lowered;
    }

    /** The index, computed once; one from the pool still holds another body's pairs until it is cleared. */
    method BodyBigrams() returns (r: array<bv64>)
      requires Valid()
      modifies this
      ensures Valid() && bigramsDone && bigrams == r
      ensures old(bigramsDone) ==> r == old(bigrams)
      ensures old(loweredDone) ==> lowered == old(lowered)
      ensures responseBody == old(responseBody) && needleChecks == old(needleChecks)
    {
      if !bigramsDone {
        var body := LowerBody();
        r := IndexPairs(body[..]);
        bigrams := r;
        bigramsDone := true;
      }
      r := bigrams;
    }

    /** Whether some needle occurs in the body, letter case aside, whatever was cached or asked before. */
    method ContainsAnyLower(needles: seq<Bytes>) returns (found: bool)
      requires Valid()
      modifies this
      ensures Valid() && responseBody == old(responseBody)
      ensures found <==> exists k :: 0 <= k < |needles| && ContainsFold(responseBody, needles[k])
    {
      var body := LowerBody();
      needleChecks := needleChecks + |needles|;
      if body.Length >= MIN_BIGRAM_BODY_LEN && (bigramsDone || needleChecks >= MIN_BIGRAM_NEEDLES) {
        var index := BodyBigrams();
        found := SearchIndexed(body[..], index, needles, responseBody);
      } else {
        found := SearchPlain(body[..], needles, responseBody);
      }
    }
  }

  /** The loop over the needles with the index in front. */
  method SearchIndexed(body: Bytes, index: array<bv64>, needles: seq<Bytes>, ghost text: Bytes) returns (found: bool)
    requires body != [] && body == Lowered(text)
    requires index.Length == INDEX_WORDS && Indexes(index[..], body, |body| - 1)
    ensures found <==> exists k :: 0 <= k < |needles| && ContainsFold(text, needles[k])
  {
    for k := 0 to |needles|
      invariant forall m :: 0 <= m < k ==> !ContainsFold(text, needles[m])
    {
      var n := LowerNeedle(needles[k]);
      LowercasedContains(text, needles[k]);
      var may := MayContain(index, n, body);
      if may && Contains(body, n) {
        return true;
      }
    }
    return false;
  }

  /** The loop over the needles without it. */
  method SearchPlain(body: Bytes, needles: seq<Bytes>, ghost text: Bytes) returns (found: bool)
    requires body == Lowered(text)
    ensures found <==> exists k :: 0 <= k < |needles| && ContainsFold(text, needles[k])
  {
    for k := 0 to |needles|
      invariant forall m :: 0 <= m < k ==> !ContainsFold(text, needles[m])
    {
      var n := LowerNeedle(needles[k]);
      LowercasedContains(text, needles[k]);
      if Contains(body, n) {
        return true;
      }
    }
    return false;
  }

  method SetPair(index: array<bv64>, pair: bv16)
    requires index.Length == INDEX_WORDS
    modifies index
    ensures index[..] == Marked(old(index[..]), pair)
  {
    index[Word(pair)] := index[Word(pair)] | Mask(pair);
  }

  method IndexPairs(body: Bytes) returns (r: array<bv64>)
    ensures fresh(r) && r.Length == INDEX_WORDS
    ensures body != [] ==> Indexes(r[..], body, |body| - 1)
  {
    r := new bv64[INDEX_WORDS];
    for w := 0 to INDEX_WORDS
      invariant forall k :: 0 <= k < w ==> r[k] == 0
    {
      r[w] := 0;
    }
    if body == [] {
      return;
    }
    EmptyIndex(r[..], body);
    for i := 0 to |body| - 1
      invariant Indexes(r[..], body, i)
    {
      IndexStep(r[..], body, i);
      SetPair(r, Pair(body[i], body[i + 1]));
    }
  }

  /** The first, last and middle pairs of a needle, looked up; a needle that occurs is never refused. */
  method MayContain(index: array<bv64>, n: Bytes, ghost text: Bytes) returns (may: bool)
    requires index.Length == INDEX_WORDS && text != [] && Indexes(index[..], text, |text| - 1)
    ensures Contains(text, n) ==> may
  {
    if |n| >= 2 {
      if Contains(text, n) {
        OccurringPairsIndexed(index[..], text, n, 0);
        OccurringPairsIndexed(index[..], text, n, |n| - 2);
        OccurringPairsIndexed(index[..], text, n, |n| / 2 - 1);
      }
      if !Has(index[..], Pair(n[0], n[1])) {
        return false;
      }
      if |n| > 2 {
        var last := |n| - 1;
        if !Has(index[..], Pair(n[last - 1], n[last])) {
          return false;
        }
        if |n| >= 4 {
          var mid := |n| / 2;
          if !Has(index[..], Pair(n[mid - 1], n[mid])) {
            return false;
          }
        }
      }
    }
    return true;
  }
}
