/**
 packages/container/internal/boundedmap/boundedmap.go: a map with a size limit that drops its least
 recently set entries, as a doubly linked list with a sentinel (Go's container/list) and an index.
 */
module BoundedMapSpec {

  datatype Entry<K, V> = Entry(key: K, val: V)

  ghost predicate DistinctKeys<K, V>(s: seq<Entry<K, V>>) {
    forall i, j :: 0 <= i < j < |s| ==> s[i].key != s[j].key
  }

  ghost predicate HasKey<K, V>(s: seq<Entry<K, V>>, k: K) {
    exists i :: 0 <= i < |s| && s[i].key == k
  }

  ghost function Without<K, V>(s: seq<Entry<K, V>>, k: K): seq<Entry<K, V>> {
    if s == [] then [] else (if s[0].key == k then [] else [s[0]]) + Without(s[1..], k)
  }

  /** The last `n` elements. */
  ghost function Last<T>(s: seq<T>, n: nat): seq<T> {
    if |s| > n then s[|s| - n..] else s
  }

  ghost function Keys<K, V>(s: seq<Entry<K, V>>): (r: seq<K>)
    ensures |r| == |s|
  {
    seq(|s|, i requires 0 <= i < |s| => s[i].key)
  }

  ghost function Reversed<T>(s: seq<T>): (r: seq<T>)
    ensures |r| == |s|
  {
    seq(|s|, i requires 0 <= i < |s| => s[|s| - 1 - i])
  }

  /** Least recent first: what one Set leaves of a map with this limit. */
  ghost function AfterSet<K, V>(limit: nat, s: seq<Entry<K, V>>, k: K, v: V): seq<Entry<K, V>> {
    Last(Without(s, k) + [Entry(k, v)], limit)
  }

  ghost predicate Drops<K, V>(limit: nat, s: seq<Entry<K, V>>, k: K) {
    |s| >= limit && !HasKey(s, k)
  }

  /** What a history of Sets leaves of an empty map. */
  ghost function AfterSets<K, V>(limit: nat, history: seq<Entry<K, V>>): seq<Entry<K, V>> {
    if history == [] then []
    else
      var e := history[|history| - 1];
      AfterSet(limit, AfterSets(limit, history[..|history| - 1]), e.key, e.val)
  }

  /** Of each key only its last Set, in the order of the history. */
  ghost function LatestSets<K, V>(history: seq<Entry<K, V>>): seq<Entry<K, V>> {
    if history == [] then []
    else (if HasKey(history[1..], history[0].key) then [] else [history[0]]) + LatestSets(history[1..])
  }

  // ---------------------------------------------------------------- proofs

  lemma {:induction false} WithoutMembers<K, V>(s: seq<Entry<K, V>>, k: K)
    ensures forall e :: e in Without(s, k) <==> e in s && e.key != k
  {
    if s != [] {
      WithoutMembers(s[1..], k);
    }
  }

  lemma {:induction false} WithoutAbsent<K, V>(s: seq<Entry<K, V>>, k: K)
    requires !HasKey(s, k)
    ensures Without(s, k) == s
  {
    if s != [] {
      assert s[0].key != k;
      LaterLacks(s, 1, k);
      WithoutAbsent(s[1..], k);
    }
  }

  lemma LaterLacks<K, V>(s: seq<Entry<K, V>>, from: nat, k: K)
    requires from <= |s| && forall i :: from <= i < |s| ==> s[i].key != k
    ensures !HasKey(s[from..], k)
  {
    forall i | 0 <= i < |s[from..]|
      ensures s[from..][i].key != k
    {
      assert s[from..][i] == s[from + i];
    }
  }

  lemma {:induction false} WithoutAt<K, V>(s: seq<Entry<K, V>>, i: nat)
    requires i < |s| && DistinctKeys(s)
    ensures Without(s, s[i].key) == s[..i] + s[i + 1..]
  {
    if i == 0 {
      LaterLacks(s, 1, s[0].key);
      WithoutAbsent(s[1..], s[0].key);
    } else {
      WithoutAt(s[1..], i - 1);
      assert s[1..][i - 1] == s[i];
      assert s[..i] == [s[0]] + s[1..][..i - 1];
      assert s[i + 1..] == s[1..][i..];
    }
  }

  lemma HasKeyAppend<K, V>(s: seq<Entry<K, V>>, e: Entry<K, V>, k: K)
    ensures HasKey(s + [e], k) <==> HasKey(s, k) || e.key == k
  {
    if HasKey(s, k) {
      var i :| 0 <= i < |s| && s[i].key == k;
      assert (s + [e])[i].key == k;
    }
    assert (s + [e])[|s|] == e;
  }

  /** A Set moves its key to the end of the list of latest sets. */
  lemma {:induction false} LatestSetsAppend<K, V>(history: seq<Entry<K, V>>, e: Entry<K, V>)
    ensures LatestSets(history + [e]) == Without(LatestSets(history), e.key) + [e]
  {
    if history == [] {
      assert history + [e] == [e];
    } else {
      var rest := history[1..];
      assert (history + [e])[1..] == rest + [e];
      LatestSetsAppend(rest, e);
      HasKeyAppend(rest, e, history[0].key);
      if HasKey(rest, history[0].key) {
        assert LatestSets(history) == LatestSets(rest);
        assert LatestSets(history + [e]) == LatestSets(rest + [e]);
      } else {
        assert ([history[0]] + LatestSets(rest))[1..] == LatestSets(rest);
        assert LatestSets(history + [e]) ==
               (if e.key == history[0].key then [] else [history[0]]) + LatestSets(rest + [e]);
        var others := Without(LatestSets(rest), e.key);
        assert [history[0]] + (others + [e]) == [history[0]] + others + [e];
      }
    }
  }

  lemma {:induction false} LatestSetsMembers<K, V>(history: seq<Entry<K, V>>)
    ensures forall e :: e in LatestSets(history) ==> e in history
    ensures DistinctKeys(LatestSets(history))
  {
    if history != [] {
      var rest := history[1..];
      LatestSetsMembers(rest);
      if !HasKey(rest, history[0].key) {
        forall j | 0 <= j < |LatestSets(rest)|
          ensures LatestSets(rest)[j].key != history[0].key
        {
          assert LatestSets(rest)[j] in rest;
        }
      }
    }
  }

  lemma LastDistinct<K, V>(s: seq<Entry<K, V>>, n: nat)
    requires DistinctKeys(s)
    ensures DistinctKeys(Last(s, n))
  {
  }

  /** One element taken out of the last `n`, or out of the whole before the last `n - 1` are taken. */
  lemma OutOfLast<T>(s: seq<T>, i: nat, m: nat, n: nat)
    requires 0 < n < |s| && i == |s| - n + m && m < n
    ensures s[|s| - n..][..m] + s[|s| - n..][m + 1..] == (s[..i] + s[i + 1..])[|s| - n..]
  {
    assert s[|s| - n..][m + 1..] == s[i + 1..];
  }

  lemma OutBeforeLast<T>(s: seq<T>, i: nat, n: nat)
    requires 0 < n < |s| && i < |s| - n
    ensures s[|s| - n..][1..] == (s[..i] + s[i + 1..])[|s| - n..]
  {
  }

  lemma WithoutDropped<K, V>(s: seq<Entry<K, V>>, i: nat, n: nat)
    requires 0 < n < |s| && i < |s| - n && DistinctKeys(s)
    ensures Without(s[|s| - n..], s[i].key) == s[|s| - n..]
  {
    LaterLacks(s, |s| - n, s[i].key);
    WithoutAbsent(s[|s| - n..], s[i].key);
  }

  lemma WithoutLastAt<K, V>(s: seq<Entry<K, V>>, i: nat, n: nat)
    requires 0 < n < |s| && i < |s| && DistinctKeys(s)
    ensures Last(Without(s[|s| - n..], s[i].key), n - 1) == Last(Without(s, s[i].key), n - 1)
  {
    WithoutAt(s, i);
    if i < |s| - n {
      WithoutDropped(s, i, n);
      OutBeforeLast(s, i, n);
    } else {
      WithoutKept(s, i, n);
    }
  }

  lemma WithoutKept<K, V>(s: seq<Entry<K, V>>, i: nat, n: nat)
    requires 0 < n < |s| && |s| - n <= i < |s| && DistinctKeys(s)
    ensures Without(s[|s| - n..], s[i].key) == (s[..i] + s[i + 1..])[|s| - n..]
  {
    var t, m := s[|s| - n..], i - (|s| - n);
    LastDistinct(s, n);
    assert t[m] == s[i];
    WithoutAt(t, m);
    OutOfLast(s, i, m, n);
  }

  /** Taking a key out of the last `n` or taking the last `n` of what is left differs by one dropped entry. */
  lemma WithoutLast<K, V>(s: seq<Entry<K, V>>, k: K, n: nat)
    requires n > 0 && DistinctKeys(s)
    ensures Last(Without(Last(s, n), k), n - 1) == Last(Without(s, k), n - 1)
  {
    if |s| > n {
      if HasKey(s, k) {
        var i :| 0 <= i < |s| && s[i].key == k;
        WithoutLastAt(s, i, n);
      } else {
        LaterLacks(s, |s| - n, k);
        WithoutAbsent(s, k);
        WithoutAbsent(s[|s| - n..], k);
      }
    }
  }

  lemma LastOfAll<T>(s: seq<T>, n: nat)
    ensures |s| <= n ==> Last(s, n) == s
    ensures |s| == n + 1 ==> Last(s, n) == s[1..]
  {
  }

  lemma LastAppend<T>(s: seq<T>, x: T, n: nat)
    requires n > 0
    ensures Last(s + [x], n) == Last(s, n - 1) + [x]
  {
  }

  /** Only Sets: the map holds the `limit` most recently set keys with their latest values. */
  lemma {:induction false} MostRecentKept<K, V>(limit: nat, history: seq<Entry<K, V>>)
    requires limit > 0
    ensures AfterSets(limit, history) == Last(LatestSets(history), limit)
  {
    if history != [] {
      var before, e := history[..|history| - 1], history[|history| - 1];
      assert history == before + [e];
      MostRecentKept(limit, before);
      var all := LatestSets(before);
      LatestSetsAppend(before, e);
      LatestSetsMembers(before);
      WithoutLast(all, e.key, limit);
      LastAppend(Without(Last(all, limit), e.key), e, limit);
      LastAppend(Without(all, e.key), e, limit);
    }
  }

  lemma AppendDistinct<K, V>(s: seq<Entry<K, V>>, e: Entry<K, V>)
    requires DistinctKeys(s) && !HasKey(s, e.key)
    ensures DistinctKeys(s + [e])
  {
    forall i, j | 0 <= i < j < |s| + 1
      ensures (s + [e])[i].key != (s + [e])[j].key
    {
      assert s[i].key != e.key;
    }
  }

  lemma OutDistinct<K, V>(s: seq<Entry<K, V>>, i: nat)
    requires DistinctKeys(s) && i < |s|
    ensures DistinctKeys(s[..i] + s[i + 1..]) && !HasKey(s[..i] + s[i + 1..], s[i].key)
  {
    var t := s[..i] + s[i + 1..];
    assert forall j :: 0 <= j < |t| ==> t[j] == s[if j < i then j else j + 1];
  }

  /** What one call keeps: distinct keys and at most `limit` entries, the new one last. */
  lemma OneSet<K, V>(limit: nat, s: seq<Entry<K, V>>, k: K, v: V)
    requires limit > 0 && |s| <= limit && DistinctKeys(s)
    ensures
      var t := AfterSet(limit, s, k, v);
      DistinctKeys(t) && |t| <= limit && t != [] && t[|t| - 1] == Entry(k, v)
  {
    if HasKey(s, k) {
      var i :| 0 <= i < |s| && s[i].key == k;
      WithoutAt(s, i);
      OutDistinct(s, i);
    } else {
      WithoutAbsent(s, k);
    }
    AppendDistinct(Without(s, k), Entry(k, v));
    LastDistinct(Without(s, k) + [Entry(k, v)], limit);
  }

  /** A Set drops an entry of another key exactly when it reports a drop. */
  lemma OneDrop<K, V>(limit: nat, s: seq<Entry<K, V>>, k: K, v: V)
    requires limit > 0 && |s| <= limit && DistinctKeys(s)
    ensures Drops(limit, s, k) <==> exists e :: e in s && e.key != k && e !in AfterSet(limit, s, k, v)
  {
    if Drops(limit, s, k) {
      WithoutAbsent(s, k);
      FirstDropped(s, k, v);
      assert s[0] in s && s[0].key != k && s[0] !in AfterSet(limit, s, k, v);
    } else {
      NothingDropped(limit, s, k, v);
    }
  }

  lemma FirstDropped<K, V>(s: seq<Entry<K, V>>, k: K, v: V)
    requires s != [] && DistinctKeys(s) && !HasKey(s, k)
    ensures s[0].key != k && s[0] !in Last(s + [Entry(k, v)], |s|)
  {
    assert s[0].key != k;
    assert Last(s + [Entry(k, v)], |s|) == s[1..] + [Entry(k, v)];
  }

  lemma NothingDropped<K, V>(limit: nat, s: seq<Entry<K, V>>, k: K, v: V)
    requires limit > 0 && |s| <= limit && DistinctKeys(s) && !Drops(limit, s, k)
    ensures forall e :: e in s && e.key != k ==> e in AfterSet(limit, s, k, v)
  {
    WithoutMembers(s, k);
    if HasKey(s, k) {
      var i :| 0 <= i < |s| && s[i].key == k;
      WithoutAt(s, i);
    } else {
      WithoutAbsent(s, k);
    }
    assert AfterSet(limit, s, k, v) == Without(s, k) + [Entry(k, v)];
  }

  /** Which Sets of a history report a drop. */
  lemma DropsExactly<K, V>(limit: nat, history: seq<Entry<K, V>>, k: K)
    requires limit > 0
    ensures
      Drops(limit, AfterSets(limit, history), k) <==>
      |LatestSets(history)| >= limit && !HasKey(Last(LatestSets(history), limit), k)
  {
    MostRecentKept(limit, history);
  }
}

module BoundedMap {
  import opened BoundedMapSpec
  import opened Options

  /** A node of the list: the sentinel holds no entry. */
  class Element<K, V> {
    var next: Element?<K, V>
    var prev: Element?<K, V>
    var value: Option<Entry<K, V>>

    constructor (value: Option<Entry<K, V>>)
      ensures this.value == value
    {
      this.value := value;
      next, prev := null, null;
    }
  }

  /** Position 0 is the sentinel, and so is the position after the last element. */
  ghost function At<K, V>(root: Element<K, V>, elems: seq<Element<K, V>>, i: nat): Element<K, V> {
    if 0 < i <= |elems| then elems[i - 1] else root
  }

  ghost predicate Linked<K, V>(root: Element<K, V>, elems: seq<Element<K, V>>)
    reads root, elems
  {
    && root !in elems
    && (forall i, j :: 0 <= i < j < |elems| ==> elems[i] != elems[j])
    && (forall i :: 0 <= i <= |elems| ==> At(root, elems, i).next == At(root, elems, i + 1))
    && (forall i :: 0 <= i <= |elems| ==> At(root, elems, i + 1).prev == At(root, elems, i))
  }

  /** list.remove */
  method Unlink<K, V>(root: Element<K, V>, ghost elems: seq<Element<K, V>>, e: Element<K, V>, ghost k: nat)
    requires Linked(root, elems) && k < |elems| && elems[k] == e
    modifies root, elems
    ensures Linked(root, elems[..k] + elems[k + 1..])
    ensures root.value == old(root.value)
    ensures forall x <- elems :: x.value == old(x.value)
  {
    ghost var rest := elems[..k] + elems[k + 1..];
    assert At(root, elems, k + 1) == e;
    assert e.next == At(root, elems, k + 2) && e.prev == At(root, elems, k);
    e.prev.next := e.next;
    e.next.prev := e.prev;
    e.next, e.prev := null, null;
    forall i | 0 <= i <= |rest|
      ensures At(root, rest, i).next == At(root, rest, i + 1) && At(root, rest, i + 1).prev == At(root, rest, i)
    {
      assert At(root, rest, i) == At(root, elems, if i <= k then i else i + 1);
      assert At(root, rest, i + 1) == At(root, elems, if i < k then i + 1 else i + 2);
    }
  }

  /** list.insertValue before the sentinel */
  method LinkBack<K, V>(root: Element<K, V>, ghost elems: seq<Element<K, V>>, e: Element<K, V>)
    requires Linked(root, elems) && e != root && e !in elems
    modifies root, elems, e
    ensures Linked(root, elems + [e])
    ensures root.value == old(root.value) && e.value == old(e.value)
    ensures forall x <- elems :: x.value == old(x.value)
  {
    ghost var n, all := |elems|, elems + [e];
    assert root.prev == At(root, elems, n) by {
      assert At(root, elems, n + 1) == root;
    }
    assert At(root, elems, n).next == At(root, elems, n + 1) == root;
    var last := root.prev;
    e.prev := last;
    e.next := last.next;
    e.prev.next := e;
    e.next.prev := e;
    forall i | 0 <= i <= |all|
      ensures At(root, all, i).next == At(root, all, i + 1) && At(root, all, i + 1).prev == At(root, all, i)
    {
      if i < n {
        assert At(root, all, i) == At(root, elems, i) && At(root, all, i + 1) == At(root, elems, i + 1);
      }
    }
  }

  /** Every element has an entry, and the index leads to it by its key. */
  ghost predicate Indexed<K, V>(elems: seq<Element<K, V>>, idx: map<K, Element<K, V>>)
    reads elems
  {
    && (forall e <- elems :: e.value.Some? && e.value.value.key in idx && idx[e.value.value.key] == e)
    && (forall k <- idx :: idx[k] in elems && idx[k].value.Some? && idx[k].value.value.key == k)
  }

  ghost function EntriesOf<K, V>(elems: seq<Element<K, V>>): (r: seq<Entry<K, V>>)
    requires forall e <- elems :: e.value.Some?
    reads elems
    ensures |r| == |elems|
  {
    seq(|elems|, i requires 0 <= i < |elems| reads elems requires elems[i].value.Some? => elems[i].value.value)
  }

  lemma IndexedKeys<K, V>(elems: seq<Element<K, V>>, idx: map<K, Element<K, V>>)
    requires Indexed(elems, idx)
    requires forall i, j :: 0 <= i < j < |elems| ==> elems[i] != elems[j]
    ensures DistinctKeys(EntriesOf(elems))
    ensures forall k :: HasKey(EntriesOf(elems), k) <==> k in idx
  {
    var s := EntriesOf(elems);
    forall i, j | 0 <= i < j < |s|
      ensures s[i].key != s[j].key
    {
      assert elems[i] in elems && elems[j] in elems;
    }
    forall k
      ensures HasKey(s, k) <==> k in idx
    {
      if k in idx {
        var i :| 0 <= i < |elems| && elems[i] == idx[k];
        assert s[i].key == k;
      }
      if HasKey(s, k) {
        var i :| 0 <= i < |s| && s[i].key == k;
        assert elems[i] in elems;
      }
    }
  }

  lemma IndexedWithout<K, V>(elems: seq<Element<K, V>>, idx: map<K, Element<K, V>>, i: nat)
    requires Indexed(elems, idx) && i < |elems|
    requires forall i, j :: 0 <= i < j < |elems| ==> elems[i] != elems[j]
    ensures Indexed(elems[..i] + elems[i + 1..], idx - {elems[i].value.value.key})
  {
    var rest := elems[..i] + elems[i + 1..];
    forall e | e in rest
      ensures e in elems && e != elems[i]
    {
    }
    forall e | e in elems && e != elems[i]
      ensures e in rest
    {
      var j :| 0 <= j < |elems| && elems[j] == e;
      assert rest[if j < i then j else j - 1] == e;
    }
  }

  lemma EntriesWithout<K, V>(elems: seq<Element<K, V>>, i: nat)
    requires (forall e <- elems :: e.value.Some?) && i < |elems|
    ensures EntriesOf(elems[..i] + elems[i + 1..]) == EntriesOf(elems)[..i] + EntriesOf(elems)[i + 1..]
  {
  }

  lemma IndexedMoved<K, V>(elems: seq<Element<K, V>>, idx: map<K, Element<K, V>>, i: nat)
    requires Indexed(elems, idx) && i < |elems|
    ensures Indexed(elems[..i] + elems[i + 1..] + [elems[i]], idx)
  {
    var moved := elems[..i] + elems[i + 1..] + [elems[i]];
    forall e
      ensures e in moved <==> e in elems
    {
      if e in elems {
        var j :| 0 <= j < |elems| && elems[j] == e;
        assert moved[if j < i then j else if j == i then |elems| - 1 else j - 1] == e;
      }
    }
  }

  method TakeOut<K, V>(root: Element<K, V>, ghost elems: seq<Element<K, V>>, ghost idx: map<K, Element<K, V>>,
                       el: Element<K, V>, ghost i: nat)
    requires Linked(root, elems) && Indexed(elems, idx) && i < |elems| && elems[i] == el
    modifies root, elems
    ensures el.value == old(el.value)
    ensures Linked(root, elems[..i] + elems[i + 1..])
    ensures Indexed(elems[..i] + elems[i + 1..], idx - {old(el.value.value.key)})
    ensures EntriesOf(elems[..i] + elems[i + 1..]) == old(EntriesOf(elems)[..i] + EntriesOf(elems)[i + 1..])
  {
    ghost var was := EntriesOf(elems);
    IndexedWithout(elems, idx, i);
    Unlink(root, elems, el, i);
    assert EntriesOf(elems) == was;
    EntriesWithout(elems, i);
  }

  lemma EntriesMoved<K, V>(elems: seq<Element<K, V>>, i: nat)
    requires (forall e <- elems :: e.value.Some?) && i < |elems|
    ensures
      EntriesOf(elems[..i] + elems[i + 1..] + [elems[i]]) ==
      EntriesOf(elems)[..i] + EntriesOf(elems)[i + 1..] + [elems[i].value.value]
  {
  }

  /** list.MoveToBack */
  method MoveToBack<K, V>(root: Element<K, V>, ghost elems: seq<Element<K, V>>, ghost idx: map<K, Element<K, V>>,
                          el: Element<K, V>, ghost i: nat)
    requires Linked(root, elems) && Indexed(elems, idx) && i < |elems| && elems[i] == el
    modifies root, elems
    ensures Linked(root, elems[..i] + elems[i + 1..] + [el])
    ensures Indexed(elems[..i] + elems[i + 1..] + [el], idx)
    ensures
      EntriesOf(elems[..i] + elems[i + 1..] + [el]) ==
      old(EntriesOf(elems)[..i] + EntriesOf(elems)[i + 1..] + [el.value.value])
  {
    ghost var was := EntriesOf(elems);
    if root.prev == el {
      assert At(root, elems, |elems| + 1).prev == At(root, elems, |elems|);
      assert elems[..i] + elems[i + 1..] + [el] == elems;
    } else {
      Unlink(root, elems, el, i);
      LinkBack(root, elems[..i] + elems[i + 1..], el);
    }
    IndexedMoved(elems, idx, i);
    EntriesMoved(elems, i);
    assert EntriesOf(elems) == was;
  }

  /** A new value for an element, which becomes the most recent. */
  method Renew<K, V>(root: Element<K, V>, ghost elems: seq<Element<K, V>>, ghost idx: map<K, Element<K, V>>,
                     el: Element<K, V>, v: V, ghost i: nat)
    requires Linked(root, elems) && Indexed(elems, idx) && i < |elems| && elems[i] == el
    modifies root, elems
    ensures Linked(root, elems[..i] + elems[i + 1..] + [el])
    ensures Indexed(elems[..i] + elems[i + 1..] + [el], idx)
    ensures
      EntriesOf(elems[..i] + elems[i + 1..] + [el]) ==
      old(EntriesOf(elems)[..i] + EntriesOf(elems)[i + 1..] + [Entry(el.value.value.key, v)])
  {
    ghost var was := EntriesOf(elems);
    el.value := Some(Entry(el.value.value.key, v));
    ghost var now := EntriesOf(elems);
    assert now[..i] == was[..i] && now[i + 1..] == was[i + 1..];
    MoveToBack(root, elems, idx, el, i);
  }

  class Map<K(==), V> {
    const limit: int
    const root: Element<K, V>
    var len: nat
    var idx: map<K, Element<K, V>>
    ghost var elems: seq<Element<K, V>>

    ghost predicate Sound()
      reads this, root, elems
    {
      |elems| == len && Linked(root, elems) && Indexed(elems, idx)
    }

    ghost predicate Valid()
      reads this, root, elems
    {
      Sound() && 1 <= limit && len <= limit
    }

    /** Least recent first. */
    ghost function Entries(): (r: seq<Entry<K, V>>)
      requires Sound()
      reads this, root, elems
      ensures |r| == len
    {
      EntriesOf(elems)
    }

    constructor (limit: int)
      ensures Valid() && Entries() == []
      ensures this.limit == (if limit < 1 then 1 else limit)
      ensures fresh(root)
    {
      this.limit := if limit < 1 then 1 else limit;
      var sentinel := new Element<K, V>(None);
      root := sentinel;
      len, idx, elems := 0, map[], [];
      new;
      root.next, root.prev := root, root;
    }

    /** One entry for each key of the index. */
    lemma OneEntryPerKey()
      requires Sound()
      ensures DistinctKeys(Entries())
      ensures forall k :: HasKey(Entries(), k) <==> k in idx
    {
      IndexedKeys(elems, idx);
    }

    /** The element at position `i` leaves the list and the index. */
    method RemoveAt(el: Element<K, V>, ghost i: nat)
      requires Sound() && i < |elems| && elems[i] == el
      modifies this, root, elems
      ensures Sound() && elems == old(elems)[..i] + old(elems)[i + 1..]
      ensures len == old(len) - 1
      ensures Entries() == old(Entries())[..i] + old(Entries())[i + 1..]
      ensures el.value == old(el.value)
    {
      TakeOut(root, elems, idx, el, i);
      idx := idx - {el.value.value.key};
      elems, len := elems[..i] + elems[i + 1..], len - 1;
    }

    method RemoveFront()
      requires Sound() && elems != []
      modifies this, root, elems
      ensures Sound() && elems == old(elems)[1..]
      ensures len == old(len) - 1
      ensures Entries() == old(Entries())[1..]
    {
      assert At(root, elems, 0).next == At(root, elems, 1);
      RemoveAt(root.next, 0);
    }

    /** A new element enters the list and the index. */
    method PushBack(el: Element<K, V>)
      requires Sound() && el != root && el !in elems
      requires el.value.Some? && el.value.value.key !in idx
      modifies this, root, elems, el
      ensures Sound() && elems == old(elems) + [el]
      ensures len == old(len) + 1
      ensures Entries() == old(Entries()) + [old(el.value.value)]
    {
      LinkBack(root, elems, el);
      idx := idx[el.value.value.key := el];
      elems, len := elems + [el], len + 1;
    }

    /** The element at position `i` takes a new value and becomes the most recent. */
    method Refresh(el: Element<K, V>, v: V, ghost i: nat)
      requires Sound() && i < |elems| && elems[i] == el
      modifies this, root, elems
      ensures Sound() && forall e <- elems :: e in old(elems)
      ensures len == old(len)
      ensures Entries() == old(Entries())[..i] + old(Entries())[i + 1..] + [Entry(old(el.value.value.key), v)]
    {
      Renew(root, elems, idx, el, v, i);
      elems := elems[..i] + elems[i + 1..] + [el];
    }

    method Set(k: K, v: V) returns (dropped: bool)
      requires Valid()
      modifies this, root, elems
      ensures Valid() && forall e <- elems :: e in old(elems) || fresh(e)
      ensures Entries() == AfterSet(limit, old(Entries()), k, v)
      ensures dropped == Drops(limit, old(Entries()), k)
    {
      OneEntryPerKey();
      ghost var was := Entries();
      if k in idx {
        ghost var i :| 0 <= i < |elems| && elems[i] == idx[k];
        assert was[i].key == k;
        WithoutAt(was, i);
        Refresh(idx[k], v, i);
        return false;
      }
      WithoutAbsent(was, k);
      dropped := SetNew(k, v);
    }

    method Insert(k: K, v: V) returns (el: Element<K, V>)
      requires Sound() && k !in idx
      modifies this, root, elems
      ensures Sound() && len == old(len) + 1
      ensures fresh(el) && elems == old(elems) + [el]
      ensures Entries() == old(Entries()) + [Entry(k, v)]
    {
      el := new Element(Some(Entry(k, v)));
      PushBack(el);
    }

    method SetNew(k: K, v: V) returns (dropped: bool)
      requires Valid() && k !in idx
      modifies this, root, elems
      ensures Valid() && forall e <- elems :: e in old(elems) || fresh(e)
      ensures Entries() == Last(old(Entries()) + [Entry(k, v)], limit)
      ensures dropped <==> |old(Entries())| >= limit
    {
      ghost var all := Entries() + [Entry(k, v)];
      LastOfAll(all, limit);
      var el := Insert(k, v);
      assert Entries() == all;
      dropped := len > limit;
      if dropped {
        RemoveFront();
        assert elems == old(elems)[1..] + [el];
        assert Entries() == all[1..];
      }
    }

    method Get(k: K) returns (v: Option<V>)
      requires Valid()
      ensures v.None? <==> !HasKey(Entries(), k)
      ensures v.Some? ==> Entry(k, v.value) in Entries()
    {
      OneEntryPerKey();
      if k in idx {
        ghost var i :| 0 <= i < |elems| && elems[i] == idx[k];
        assert Entries()[i] == idx[k].value.value;
        return Some(idx[k].value.value.val);
      }
      return None;
    }

    method Delete(k: K) returns (v: Option<V>)
      requires Valid()
      modifies this, root, elems
      ensures Valid() && forall e <- elems :: e in old(elems)
      ensures Entries() == Without(old(Entries()), k)
      ensures v.None? <==> !HasKey(old(Entries()), k)
      ensures v.Some? ==> Entry(k, v.value) in old(Entries())
    {
      OneEntryPerKey();
      ghost var was := Entries();
      if k !in idx {
        WithoutAbsent(was, k);
        return None;
      }
      var el := idx[k];
      ghost var i :| 0 <= i < |elems| && elems[i] == el;
      assert was[i] == el.value.value && was[i].key == k;
      WithoutAt(was, i);
      RemoveAt(el, i);
      return Some(el.value.value.val);
    }

    method Len() returns (n: nat)
      requires Valid()
      ensures n == |Entries()|
    {
      return len;
    }

    method NewestKeys(n: int) returns (out: seq<K>)
      requires Valid()
      ensures |out| == if n < 0 then 0 else if n < |Entries()| then n else |Entries()|
      ensures out == Reversed(Keys(Entries()))[..|out|]
    {
      out := [];
      assert At(root, elems, len + 1) == root;
      var el := root.prev;
      ghost var keys := Reversed(Keys(Entries()));
      while el != root && |out| < n
        invariant |out| <= len && (n >= 0 ==> |out| <= n) && (n < 0 ==> out == [])
        invariant el == At(root, elems, len - |out|)
        invariant out == keys[..|out|]
        decreases len - |out|
      {
        ghost var i := len - |out|;
        assert el == elems[i - 1] && el in elems;
        assert keys[|out|] == el.value.value.key;
        assert At(root, elems, i).prev == At(root, elems, i - 1);
        out := out + [el.value.value.key];
        el := el.prev;
      }
    }

    method Clear()
      requires Valid()
      modifies this, root
      ensures Valid() && Entries() == []
    {
      root.next, root.prev := root, root;
      len, idx, elems := 0, map[], [];
    }
  }
}
