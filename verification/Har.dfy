/**
 packages/extension/har.js: exporting captured requests as HAR entries, one for each pair of a query
 and a body, and reading such entries back. URLs are structured values, and what the platform does to
 text (upper case, path placeholders, query syntax) is a parameter. Times are numbers, 0 for none.
 */
module Har {
  import opened JsText
  import opened Options

  const MAX_QUERIES := 20
  const MAX_BODIES := 10
  const MAX_BODY_LENGTH := 10000

  /** `search` is empty or starts with a question mark. */
  datatype Url = Url(webMcp: bool, origin: string, path: string, search: string)

  /** What URL parsing makes of a query, the parameter names in it, and so on. */
  datatype Platform = Platform(
    upper: string -> string,
    normalizePath: string -> string,
    parsedSearch: string -> string,
    paramNames: string -> seq<string>,
    href: Url -> string,
    decimal: int -> string)

  datatype Response = Response(status: int, statusText: string, body: string)

  datatype Captured = Captured(
    key: string,
    method': string,
    exampleUrl: Option<Url>,
    count: nat,
    lastCaptured: nat,
    queryKeys: seq<string>,
    queryVariations: seq<string>,
    bodyVariations: seq<string>,
    statuses: map<string, nat>,
    lastResponse: Option<Response>)

  /** The custom field of our own exports. */
  datatype Stamp = Stamp(statuses: map<string, nat>, count: nat)

  datatype Entry = Entry(
    stamp: Option<Stamp>,
    time: nat,
    method': string,
    url: Option<Url>,
    queryString: seq<string>,
    postData: Option<string>,
    response: Option<Response>)

  // ---------------------------------------------------------------- exporting

  /** A URL with another query, as parsing the text gives it. */
  function Variant(p: Platform, url: Url, search: string): Url {
    url.(search := p.parsedSearch(search))
  }

  function QueryList(r: Captured, url: Url): (qs: seq<string>)
    ensures qs != []
  {
    if r.queryVariations != [] then r.queryVariations else [url.search]
  }

  function BodyList(r: Captured): (bs: seq<string>)
    ensures bs != []
  {
    if r.bodyVariations != [] then r.bodyVariations else [""]
  }

  function ExportedResponse(r: Captured): Response {
    match r.lastResponse
    case None => Response(200, "OK", "")
    case Some(last) =>
      Response(last.status,
               if last.statusText != "" then last.statusText else if last.status == 200 then "OK" else "",
               last.body)
  }

  function EntryOf(p: Platform, r: Captured, url: Url, q: string, b: string, now: nat): Entry {
    Entry(Some(Stamp(r.statuses, r.count)),
          if r.lastCaptured != 0 then r.lastCaptured else now,
          r.method',
          Some(Variant(p, url, q)),
          p.paramNames(p.parsedSearch(q)),
          if b != "" then Some(b) else None,
          Some(ExportedResponse(r)))
  }

  /** The entries of one query, one for each body. */
  function Row(p: Platform, r: Captured, url: Url, q: string, bs: seq<string>, now: nat): (es: seq<Entry>)
    ensures |es| == |bs|
  {
    seq(|bs|, i requires 0 <= i < |bs| => EntryOf(p, r, url, q, bs[i], now))
  }

  function FanOut(p: Platform, r: Captured, url: Url, qs: seq<string>, bs: seq<string>, now: nat): (es: seq<Entry>)
    ensures |es| == |qs| * |bs|
  {
    if qs == [] then []
    else FanOut(p, r, url, qs[..|qs| - 1], bs, now) + Row(p, r, url, qs[|qs| - 1], bs, now)
  }

  /** All entries of one captured endpoint; none when its URL is missing or malformed. */
  function EntriesOf(p: Platform, r: Captured, now: nat): seq<Entry> {
    if r.exampleUrl.None? then []
    else FanOut(p, r, r.exampleUrl.value, QueryList(r, r.exampleUrl.value), BodyList(r), now)
  }

  function Exported(p: Platform, keys: seq<string>, requests: map<string, Captured>, now: nat): seq<Entry>
    requires forall k <- keys :: k in requests
  {
    if keys == [] then []
    else Exported(p, keys[..|keys| - 1], requests, now) + EntriesOf(p, requests[keys[|keys| - 1]], now)
  }

  method BuildEntries(p: Platform, keys: seq<string>, requests: map<string, Captured>, now: nat)
      returns (entries: seq<Entry>)
    requires forall k <- keys :: k in requests
    ensures entries == Exported(p, keys, requests, now)
  {
    entries := [];
    for i := 0 to |keys|
      invariant entries == Exported(p, keys[..i], requests, now)
    {
      assert keys[..i + 1][..i] == keys[..i];
      var r := requests[keys[i]];
      if r.exampleUrl.None? {
        continue;
      }
      var url := r.exampleUrl.value;
      var bodyList := if |r.bodyVariations| > 0 then r.bodyVariations else [""];
      var queryList := if |r.queryVariations| > 0 then r.queryVariations else [url.search];
      var made := PushFanOut(p, r, url, queryList, bodyList, now);
      entries := entries + made;
    }
    assert keys[..|keys|] == keys;
  }

  /** The two inner loops. */
  method PushFanOut(p: Platform, r: Captured, url: Url, queryList: seq<string>, bodyList: seq<string>, now: nat)
      returns (entries: seq<Entry>)
    ensures entries == FanOut(p, r, url, queryList, bodyList, now)
  {
    entries := [];
    for i := 0 to |queryList|
      invariant entries == FanOut(p, r, url, queryList[..i], bodyList, now)
    {
      assert queryList[..i + 1][..i] == queryList[..i];
      var q := queryList[i];
      var row := [];
      for j := 0 to |bodyList|
        invariant row == Row(p, r, url, q, bodyList, now)[..j]
      {
        row := row + [EntryOf(p, r, url, q, bodyList[j], now)];
      }
      entries := entries + row;
    }
    assert queryList[..|queryList|] == queryList;
  }

  // ---------------------------------------------------------------- importing

  function KeyOf(p: Platform, method': string, url: Url): string {
    var name := p.upper(if method' != "" then method' else "GET");
    name + ":" + if url.webMcp then p.href(url) else p.normalizePath(if url.path != "" then url.path else "/")
  }

  /** A variation is added when it is not empty, not there yet, and there is room. */
  function AddNew(list: seq<string>, x: string, cap: nat): seq<string> {
    if x != "" && x !in list && |list| < cap then list + [x] else list
  }

  function AddNames(list: seq<string>, names: seq<string>): seq<string> {
    if names == [] then list
    else
      var before := AddNames(list, names[..|names| - 1]);
      var x := names[|names| - 1];
      if x !in before then before + [x] else before
  }

  function Named(names: seq<string>): seq<string> {
    if names == [] then []
    else Named(names[..|names| - 1]) + (if names[|names| - 1] != "" then [names[|names| - 1]] else [])
  }

  /** The body as it is kept: trimmed, and not kept when it is long. */
  function KeptBody(postData: Option<string>): string {
    var t := if postData.Some? then Trim(postData.value) else "";
    if |t| < MAX_BODY_LENGTH then t else ""
  }

  function StampedCount(e: Entry, count: nat): nat {
    if e.stamp.Some? && e.stamp.value.count > 0 then e.stamp.value.count else count + 1
  }

  function StampedStatuses(p: Platform, e: Entry, statuses: map<string, nat>): map<string, nat> {
    if e.response.None? || e.response.value.status <= 0 then statuses
    else if e.stamp.Some? && e.stamp.value.statuses != map[] then e.stamp.value.statuses
    else
      var k := p.decimal(e.response.value.status);
      statuses[k := (if k in statuses then statuses[k] else 0) + 1]
  }

  function Sample(e: Entry, last: Option<Response>): Option<Response> {
    if e.response.None? || e.response.value.status <= 0 then last
    else
      var r := e.response.value;
      Some(r.(body := if |r.body| > 10000 then r.body[..10000] else r.body))
  }

  function New(key: string, method': string, url: Url): Captured {
    Captured(key, method', Some(url), 0, 0, [], [], [], map[], None)
  }

  /** What one entry adds to the record of its endpoint. */
  function Updated(p: Platform, r: Captured, e: Entry, now: nat): Captured
    requires e.url.Some?
  {
    var url := e.url.value;
    r.(
      count := StampedCount(e, r.count),
      lastCaptured := if e.time > r.lastCaptured then e.time else if r.lastCaptured == 0 then now else r.lastCaptured,
      exampleUrl := if e.time > r.lastCaptured then Some(url) else r.exampleUrl,
      queryKeys := AddNames(AddNames(r.queryKeys, p.paramNames(url.search)), Named(e.queryString)),
      queryVariations := AddNew(r.queryVariations, url.search, MAX_QUERIES),
      bodyVariations := AddNew(r.bodyVariations, KeptBody(e.postData), MAX_BODIES),
      statuses := StampedStatuses(p, e, r.statuses),
      lastResponse := Sample(e, r.lastResponse))
  }

  function EntryKey(p: Platform, e: Entry): string
    requires e.url.Some?
  {
    KeyOf(p, e.method', e.url.value)
  }

  function StartOf(p: Platform, e: Entry): Captured
    requires e.url.Some?
  {
    New(EntryKey(p, e), p.upper(if e.method' != "" then e.method' else "GET"), e.url.value)
  }

  function Parsed(p: Platform, entries: seq<Entry>, now: nat): map<string, Captured> {
    if entries == [] then map[]
    else
      var before, e := Parsed(p, entries[..|entries| - 1], now), entries[|entries| - 1];
      if e.url.None? then before
      else
        var k := EntryKey(p, e);
        before[k := Updated(p, if k in before then before[k] else StartOf(p, e), e, now)]
  }

  method ParseEntries(p: Platform, entries: seq<Entry>, now: nat) returns (requests: map<string, Captured>)
    ensures requests == Parsed(p, entries, now)
  {
    requests := map[];
    for i := 0 to |entries|
      invariant requests == Parsed(p, entries[..i], now)
    {
      assert entries[..i + 1][..i] == entries[..i];
      var e := entries[i];
      if e.url.None? {
        continue;
      }
      var name := p.upper(if e.method' != "" then e.method' else "GET");
      var url := e.url.value;
      var path := if url.webMcp then p.href(url) else p.normalizePath(if url.path != "" then url.path else "/");
      var key := name + ":" + path;
      var existing := if key in requests then requests[key] else New(key, name, url);
      existing := UpdateRecord(p, existing, e, now);
      requests := requests[key := existing];
    }
    assert entries[..|entries|] == entries;
  }

  /** The record is updated field by field. */
  method UpdateRecord(p: Platform, was: Captured, e: Entry, now: nat) returns (r: Captured)
    requires e.url.Some?
    ensures r == Updated(p, was, e, now)
  {
    r := was;
    if e.stamp.Some? && e.stamp.value.count > 0 {
      r := r.(count := e.stamp.value.count);
    } else {
      r := r.(count := r.count + 1);
    }
    if e.time != 0 && e.time > r.lastCaptured {
      r := r.(lastCaptured := e.time, exampleUrl := e.url);
    } else if r.lastCaptured == 0 {
      r := r.(lastCaptured := now);
    }
    assert r.count == StampedCount(e, was.count);
    var queryKeys, queryVariations, bodyVariations := UpdateVariations(p, r, e);
    var statuses, lastResponse := UpdateResponses(p, r, e);
    r := r.(queryKeys := queryKeys, queryVariations := queryVariations, bodyVariations := bodyVariations,
            statuses := statuses, lastResponse := lastResponse);
  }

  method UpdateVariations(p: Platform, r: Captured, e: Entry)
      returns (queryKeys: seq<string>, queryVariations: seq<string>, bodyVariations: seq<string>)
    requires e.url.Some?
    ensures queryKeys == AddNames(AddNames(r.queryKeys, p.paramNames(e.url.value.search)), Named(e.queryString))
    ensures queryVariations == AddNew(r.queryVariations, e.url.value.search, MAX_QUERIES)
    ensures bodyVariations == AddNew(r.bodyVariations, KeptBody(e.postData), MAX_BODIES)
  {
    queryKeys := AddMissing(r.queryKeys, p.paramNames(e.url.value.search), true);
    queryKeys := AddMissing(queryKeys, e.queryString, false);
    queryVariations, bodyVariations := r.queryVariations, r.bodyVariations;
    var search := e.url.value.search;
    if search != "" && search !in queryVariations && |queryVariations| < MAX_QUERIES {
      queryVariations := queryVariations + [search];
    }
    var body := if e.postData.Some? then Trim(e.postData.value) else "";
    if body != "" && |body| < MAX_BODY_LENGTH {
      if body !in bodyVariations && |bodyVariations| < MAX_BODIES {
        bodyVariations := bodyVariations + [body];
      }
    }
  }

  method UpdateResponses(p: Platform, r: Captured, e: Entry)
      returns (statuses: map<string, nat>, lastResponse: Option<Response>)
    ensures statuses == StampedStatuses(p, e, r.statuses) && lastResponse == Sample(e, r.lastResponse)
  {
    statuses, lastResponse := r.statuses, r.lastResponse;
    if e.response.Some? && e.response.value.status > 0 {
      var resp := e.response.value;
      if e.stamp.Some? && e.stamp.value.statuses != map[] {
        statuses := e.stamp.value.statuses;
      } else {
        var k := p.decimal(resp.status);
        statuses := statuses[k := (if k in statuses then statuses[k] else 0) + 1];
      }
      var sample := if |resp.body| > 10000 then resp.body[..10000] else resp.body;
      lastResponse := Some(resp.(body := sample));
    }
  }

  method AddMissing(list: seq<string>, names: seq<string>, unnamed: bool) returns (r: seq<string>)
    ensures r == AddNames(list, if unnamed then names else Named(names))
  {
    r := list;
    for i := 0 to |names|
      invariant r == AddNames(list, Wanted(names[..i], unnamed))
    {
      var x := names[i];
      AddNextName(list, names, i, unnamed);
      if (unnamed || x != "") && x !in r {
        r := r + [x];
      }
    }
    assert names[..|names|] == names;
  }

  ghost function Wanted(names: seq<string>, unnamed: bool): seq<string> {
    if unnamed then names else Named(names)
  }

  lemma WantedNext(names: seq<string>, i: nat, unnamed: bool)
    requires i < |names|
    ensures
      Wanted(names[..i + 1], unnamed) ==
      if unnamed || names[i] != "" then Wanted(names[..i], unnamed) + [names[i]] else Wanted(names[..i], unnamed)
  {
    assert names[..i + 1][..i] == names[..i];
    assert Named(names[..i]) + [] == Named(names[..i]);
  }

  lemma AddNextName(list: seq<string>, names: seq<string>, i: nat, unnamed: bool)
    requires i < |names|
    ensures
      var before, x := AddNames(list, Wanted(names[..i], unnamed)), names[i];
      AddNames(list, Wanted(names[..i + 1], unnamed)) ==
      if (unnamed || x != "") && x !in before then before + [x] else before
  {
    WantedNext(names, i, unnamed);
    var so := Wanted(names[..i], unnamed);
    assert (so + [names[i]])[..|so|] == so;
  }

  // ---------------------------------------------------------------- variations survive the fan-out

  ghost function Gather(list: seq<string>, xs: seq<string>, cap: nat): seq<string> {
    if xs == [] then list else AddNew(Gather(list, xs[..|xs| - 1], cap), xs[|xs| - 1], cap)
  }

  lemma {:induction false} GatherAppend(list: seq<string>, xs: seq<string>, ys: seq<string>, cap: nat)
    ensures Gather(list, xs + ys, cap) == Gather(Gather(list, xs, cap), ys, cap)
  {
    if ys == [] {
      assert xs + ys == xs;
    } else {
      assert (xs + ys)[..|xs + ys| - 1] == xs + ys[..|ys| - 1];
      GatherAppend(list, xs, ys[..|ys| - 1], cap);
    }
  }

  /** Adding this variation again changes nothing. */
  ghost predicate Settled(list: seq<string>, x: string, cap: nat) {
    x == "" || x in list || |list| >= cap
  }

  lemma {:induction false} GatherSettles(list: seq<string>, xs: seq<string>, cap: nat)
    ensures list <= Gather(list, xs, cap)
    ensures forall x <- xs :: Settled(Gather(list, xs, cap), x, cap)
  {
    if xs != [] {
      GatherSettles(list, xs[..|xs| - 1], cap);
      assert xs == xs[..|xs| - 1] + [xs[|xs| - 1]];
    }
  }

  lemma {:induction false} GatherSettled(list: seq<string>, xs: seq<string>, cap: nat)
    requires forall x <- xs :: Settled(list, x, cap)
    ensures Gather(list, xs, cap) == list
  {
    if xs != [] {
      var before, x := xs[..|xs| - 1], xs[|xs| - 1];
      assert xs == before + [x] && x in xs;
      GatherSettled(list, before, cap);
    }
  }

  /** Gathering gives the list back exactly when it has distinct, non-empty elements within the cap. */
  ghost predicate Gatherable(xs: seq<string>, cap: nat) {
    && |xs| <= cap && "" !in xs
    && forall i, j :: 0 <= i < j < |xs| ==> xs[i] != xs[j]
  }

  lemma {:induction false} GatherExactly(xs: seq<string>, cap: nat)
    ensures |Gather([], xs, cap)| <= |xs|
    ensures |Gather([], xs, cap)| == |xs| <==> Gatherable(xs, cap)
    ensures |Gather([], xs, cap)| == |xs| ==> Gather([], xs, cap) == xs
  {
    if xs != [] {
      var before, x := xs[..|xs| - 1], xs[|xs| - 1];
      assert xs == before + [x];
      GatherExactly(before, cap);
      GatherableAppend(before, x, cap);
    }
  }

  lemma GatherableAppend(before: seq<string>, x: string, cap: nat)
    ensures Gatherable(before + [x], cap) <==> Gatherable(before, cap) && x != "" && x !in before && |before| < cap
  {
    var xs := before + [x];
    assert xs[|before|] == x && forall i :: 0 <= i < |before| ==> xs[i] == before[i];
    if x in before {
      var i :| 0 <= i < |before| && before[i] == x;
      assert xs[i] == xs[|before|];
    }
    if Gatherable(xs, cap) {
      assert forall i :: 0 <= i < |xs| ==> xs[i] in xs;
    }
  }

  // ---------------------------------------------------------------- the entries of one endpoint

  ghost predicate Readable(es: seq<Entry>) {
    forall e <- es :: e.url.Some?
  }

  ghost function OfKey(p: Platform, es: seq<Entry>, k: string): (r: seq<Entry>)
    ensures Readable(r)
  {
    if es == [] then []
    else
      var e := es[|es| - 1];
      OfKey(p, es[..|es| - 1], k) + (if e.url.Some? && EntryKey(p, e) == k then [e] else [])
  }

  ghost function UpdatedAll(p: Platform, r: Captured, es: seq<Entry>, now: nat): Captured
    requires Readable(es)
  {
    if es == [] then r else Updated(p, UpdatedAll(p, r, es[..|es| - 1], now), es[|es| - 1], now)
  }

  ghost function RecordOf(p: Platform, es: seq<Entry>, k: string, now: nat): Option<Captured> {
    var own := OfKey(p, es, k);
    if own == [] then None else Some(UpdatedAll(p, StartOf(p, own[0]), own, now))
  }

  lemma RecordStep(p: Platform, es: seq<Entry>, e: Entry, now: nat)
    requires e.url.Some?
    ensures
      var k := EntryKey(p, e);
      var was := RecordOf(p, es, k, now);
      RecordOf(p, es + [e], k, now) == Some(Updated(p, if was.Some? then was.value else StartOf(p, e), e, now))
  {
    var k := EntryKey(p, e);
    var own := OfKey(p, es, k);
    assert (es + [e])[..|es|] == es;
    assert OfKey(p, es + [e], k) == own + [e];
    var all := own + [e];
    var start := StartOf(p, all[0]);
    assert all[..|all| - 1] == own && all[|all| - 1] == e;
    assert UpdatedAll(p, start, all, now) == Updated(p, UpdatedAll(p, start, own, now), e, now);
    if own == [] {
      assert UpdatedAll(p, start, own, now) == start && start == StartOf(p, e);
    }
  }

  lemma RecordOther(p: Platform, es: seq<Entry>, e: Entry, k: string, now: nat)
    requires e.url.Some? ==> EntryKey(p, e) != k
    ensures RecordOf(p, es + [e], k, now) == RecordOf(p, es, k, now)
  {
    assert (es + [e])[..|es|] == es;
    assert OfKey(p, es + [e], k) == OfKey(p, es, k);
  }

  /** The record of a key comes from the entries of that key and no others. */
  lemma {:induction false} ParsedByKey(p: Platform, es: seq<Entry>, k: string, now: nat)
    ensures (if k in Parsed(p, es, now) then Some(Parsed(p, es, now)[k]) else None) == RecordOf(p, es, k, now)
  {
    if es != [] {
      var before, e := es[..|es| - 1], es[|es| - 1];
      assert es == before + [e];
      ParsedByKey(p, before, k, now);
      if e.url.Some? && EntryKey(p, e) == k {
        RecordStep(p, before, e, now);
      } else {
        RecordOther(p, before, e, k, now);
      }
    }
  }

  lemma {:induction false} OfKeyAppend(p: Platform, a: seq<Entry>, b: seq<Entry>, k: string)
    ensures OfKey(p, a + b, k) == OfKey(p, a, k) + OfKey(p, b, k)
  {
    if b == [] {
      assert a + b == a;
    } else {
      assert (a + b)[..|a + b| - 1] == a + b[..|b| - 1];
      OfKeyAppend(p, a, b[..|b| - 1], k);
    }
  }

  lemma {:induction false} OfKeyAll(p: Platform, es: seq<Entry>, own: string, k: string)
    requires Readable(es) && forall e <- es :: EntryKey(p, e) == own
    ensures OfKey(p, es, k) == if k == own then es else []
  {
    if es != [] {
      var before, e := es[..|es| - 1], es[|es| - 1];
      assert es == before + [e];
      assert e in es;
      OfKeyAll(p, before, own, k);
    }
  }

  /** Reading an endpoint's URLs back gives its own key. */
  ghost predicate Canonical(p: Platform, k: string, r: Captured) {
    r.exampleUrl.Some? ==>
      forall q <- QueryList(r, r.exampleUrl.value) :: KeyOf(p, r.method', Variant(p, r.exampleUrl.value, q)) == k
  }

  ghost predicate AllCanonical(p: Platform, keys: seq<string>, requests: map<string, Captured>) {
    forall k <- keys :: k in requests && Canonical(p, k, requests[k])
  }

  ghost predicate Distinct(keys: seq<string>) {
    forall i, j :: 0 <= i < j < |keys| ==> keys[i] != keys[j]
  }

  lemma {:induction false} FanOutEntries(p: Platform, r: Captured, url: Url, qs: seq<string>, bs: seq<string>, now: nat)
    ensures forall e <- FanOut(p, r, url, qs, bs, now) :: exists q, b :: q in qs && e == EntryOf(p, r, url, q, b, now)
  {
    if qs != [] {
      var before, q := qs[..|qs| - 1], qs[|qs| - 1];
      FanOutEntries(p, r, url, before, bs, now);
      var row := Row(p, r, url, q, bs, now);
      assert qs == before + [q] && q in qs;
      forall e | e in row
        ensures exists b :: e == EntryOf(p, r, url, q, b, now)
      {
        var i :| 0 <= i < |row| && row[i] == e;
        assert e == EntryOf(p, r, url, q, bs[i], now);
      }
    }
  }

  lemma EntriesOfKey(p: Platform, own: string, r: Captured, now: nat, k: string)
    requires Canonical(p, own, r)
    ensures OfKey(p, EntriesOf(p, r, now), k) == if k == own then EntriesOf(p, r, now) else []
  {
    if r.exampleUrl.Some? {
      var url := r.exampleUrl.value;
      FanOutEntries(p, r, url, QueryList(r, url), BodyList(r), now);
      OfKeyAll(p, EntriesOf(p, r, now), own, k);
    }
  }

  lemma LastOfKeys(keys: seq<string>)
    requires keys != [] && Distinct(keys)
    ensures
      var before, last := keys[..|keys| - 1], keys[|keys| - 1];
      last !in before && last in keys && Distinct(before) && forall x :: x in keys <==> x in before || x == last
  {
    assert keys == keys[..|keys| - 1] + [keys[|keys| - 1]];
  }

  /** An export keeps the endpoints apart. */
  lemma {:induction false} ExportedByKey(
    p: Platform, keys: seq<string>, requests: map<string, Captured>, now: nat, k: string)
    requires AllCanonical(p, keys, requests) && Distinct(keys)
    ensures OfKey(p, Exported(p, keys, requests, now), k) == if k in keys then EntriesOf(p, requests[k], now) else []
  {
    if keys != [] {
      var before, last := keys[..|keys| - 1], keys[|keys| - 1];
      LastOfKeys(keys);
      ExportedByKey(p, before, requests, now, k);
      EntriesOfKey(p, last, requests[last], now, k);
      OfKeyAppend(p, Exported(p, before, requests, now), EntriesOf(p, requests[last], now), k);
    }
  }

  // ---------------------------------------------------------------- field by field

  ghost predicate Stamped(es: seq<Entry>, s: Stamp, status: int) {
    forall e <- es :: e.stamp == Some(s) && e.response.Some? && e.response.value.status == status
  }

  /** The stamped count is adopted; without one the fan-out is counted. */
  lemma {:induction false} CountOf(p: Platform, r: Captured, es: seq<Entry>, s: Stamp, status: int, now: nat)
    requires Readable(es) && es != [] && Stamped(es, s, status)
    ensures UpdatedAll(p, r, es, now).count == if s.count > 0 then s.count else r.count + |es|
  {
    var before, e := es[..|es| - 1], es[|es| - 1];
    assert es == before + [e] && e in es;
    if before != [] {
      CountOf(p, r, before, s, status, now);
    }
  }

  /** The status counts that entries with this stamp and response status leave of an empty record. */
  ghost predicate StatusesFrom(p: Platform, s: Stamp, status: int, statuses: map<string, nat>) {
    if status <= 0 then statuses == map[]
    else if s.statuses != map[] then statuses == s.statuses
    else p.decimal(status) in statuses
  }

  lemma StatusesStep(p: Platform, e: Entry, s: Stamp, status: int, was: map<string, nat>)
    requires e.stamp == Some(s) && e.response.Some? && e.response.value.status == status
    requires was == map[] || StatusesFrom(p, s, status, was)
    ensures StatusesFrom(p, s, status, StampedStatuses(p, e, was))
  {
  }

  /** The stamped counts of the statuses are adopted verbatim, unless there are none or no response to go with. */
  lemma {:induction false} StatusesOf(p: Platform, r: Captured, es: seq<Entry>, s: Stamp, status: int, now: nat)
    requires Readable(es) && es != [] && Stamped(es, s, status) && r.statuses == map[]
    ensures StatusesFrom(p, s, status, UpdatedAll(p, r, es, now).statuses)
  {
    var before, e := es[..|es| - 1], es[|es| - 1];
    assert es == before + [e] && e in es;
    if before != [] {
      StatusesOf(p, r, before, s, status, now);
    }
    StatusesStep(p, e, s, status, UpdatedAll(p, r, before, now).statuses);
  }

  ghost function Searches(es: seq<Entry>): seq<string>
    requires Readable(es)
  {
    if es == [] then [] else Searches(es[..|es| - 1]) + [es[|es| - 1].url.value.search]
  }

  ghost function Bodies(es: seq<Entry>): seq<string> {
    if es == [] then [] else Bodies(es[..|es| - 1]) + [KeptBody(es[|es| - 1].postData)]
  }

  lemma {:induction false} Variations(p: Platform, r: Captured, es: seq<Entry>, now: nat)
    requires Readable(es) && r.queryVariations == [] && r.bodyVariations == []
    ensures UpdatedAll(p, r, es, now).queryVariations == Gather([], Searches(es), MAX_QUERIES)
    ensures UpdatedAll(p, r, es, now).bodyVariations == Gather([], Bodies(es), MAX_BODIES)
  {
    if es != [] {
      var before := es[..|es| - 1];
      Variations(p, r, before, now);
      assert Searches(es)[..|Searches(es)| - 1] == Searches(before);
      assert Bodies(es)[..|Bodies(es)| - 1] == Bodies(before);
    }
  }

  lemma {:induction false} SearchesAppend(a: seq<Entry>, b: seq<Entry>)
    requires Readable(a) && Readable(b)
    ensures Searches(a + b) == Searches(a) + Searches(b)
  {
    if b == [] {
      assert a + b == a;
    } else {
      assert (a + b)[..|a + b| - 1] == a + b[..|b| - 1];
      SearchesAppend(a, b[..|b| - 1]);
    }
  }

  lemma {:induction false} BodiesAppend(a: seq<Entry>, b: seq<Entry>)
    ensures Bodies(a + b) == Bodies(a) + Bodies(b)
  {
    if b == [] {
      assert a + b == a;
    } else {
      assert (a + b)[..|a + b| - 1] == a + b[..|b| - 1];
      BodiesAppend(a, b[..|b| - 1]);
    }
  }

  ghost function Copies(x: string, n: nat): seq<string> {
    if n == 0 then [] else Copies(x, n - 1) + [x]
  }

  lemma AddTwice(list: seq<string>, x: string, cap: nat)
    ensures AddNew(AddNew(list, x, cap), x, cap) == AddNew(list, x, cap)
  {
  }

  lemma {:induction false} GatherCopies(list: seq<string>, x: string, n: nat, cap: nat)
    requires n > 0
    ensures Gather(list, Copies(x, n), cap) == AddNew(list, x, cap)
  {
    var xs := Copies(x, n);
    assert xs[..|xs| - 1] == Copies(x, n - 1) && xs[|xs| - 1] == x;
    if n > 1 {
      GatherCopies(list, x, n - 1, cap);
      AddTwice(list, x, cap);
    } else {
      assert Copies(x, 0) == [];
    }
  }

  /** The kept form of each body. */
  ghost function KeptBodies(bs: seq<string>): seq<string> {
    if bs == [] then [] else KeptBodies(bs[..|bs| - 1]) + [KeptBody(Some(bs[|bs| - 1]))]
  }

  ghost function ParsedSearches(p: Platform, qs: seq<string>): seq<string> {
    if qs == [] then [] else ParsedSearches(p, qs[..|qs| - 1]) + [p.parsedSearch(qs[|qs| - 1])]
  }

  lemma {:induction false} RowVariations(p: Platform, r: Captured, url: Url, q: string, bs: seq<string>, now: nat)
    ensures Searches(Row(p, r, url, q, bs, now)) == Copies(p.parsedSearch(q), |bs|)
    ensures Bodies(Row(p, r, url, q, bs, now)) == KeptBodies(bs)
  {
    if bs != [] {
      var row := Row(p, r, url, q, bs, now);
      assert row[..|row| - 1] == Row(p, r, url, q, bs[..|bs| - 1], now);
      RowVariations(p, r, url, q, bs[..|bs| - 1], now);
    }
  }

  /** However often the fan-out repeats them, each variation is gathered once. */
  lemma {:induction false} FanOutVariations(
    p: Platform, r: Captured, url: Url, qs: seq<string>, bs: seq<string>, now: nat)
    requires bs != []
    ensures
      var es := FanOut(p, r, url, qs, bs, now);
      && Readable(es)
      && Gather([], Searches(es), MAX_QUERIES) == Gather([], ParsedSearches(p, qs), MAX_QUERIES)
      && (qs != [] ==> Gather([], Bodies(es), MAX_BODIES) == Gather([], KeptBodies(bs), MAX_BODIES))
  {
    if qs != [] {
      var before, q := qs[..|qs| - 1], qs[|qs| - 1];
      var es, row := FanOut(p, r, url, before, bs, now), Row(p, r, url, q, bs, now);
      FanOutVariations(p, r, url, before, bs, now);
      RowVariations(p, r, url, q, bs, now);
      SearchesAppend(es, row);
      BodiesAppend(es, row);
      SearchRepeated(p, Searches(es), qs, |bs|);
      BodiesRepeated(Bodies(es), KeptBodies(bs), before != []);
    }
  }

  lemma SearchRepeated(p: Platform, sofar: seq<string>, qs: seq<string>, n: nat)
    requires qs != [] && n > 0
    requires Gather([], sofar, MAX_QUERIES) == Gather([], ParsedSearches(p, qs[..|qs| - 1]), MAX_QUERIES)
    ensures
      Gather([], sofar + Copies(p.parsedSearch(qs[|qs| - 1]), n), MAX_QUERIES) ==
      Gather([], ParsedSearches(p, qs), MAX_QUERIES)
  {
    var x, searches := p.parsedSearch(qs[|qs| - 1]), ParsedSearches(p, qs);
    GatherAppend([], sofar, Copies(x, n), MAX_QUERIES);
    GatherCopies(Gather([], sofar, MAX_QUERIES), x, n, MAX_QUERIES);
    assert searches[..|searches| - 1] == ParsedSearches(p, qs[..|qs| - 1]);
  }

  lemma BodiesRepeated(sofar: seq<string>, bodies: seq<string>, again: bool)
    requires Gather([], sofar, MAX_BODIES) == if again then Gather([], bodies, MAX_BODIES) else []
    ensures Gather([], sofar + bodies, MAX_BODIES) == Gather([], bodies, MAX_BODIES)
  {
    GatherAppend([], sofar, bodies, MAX_BODIES);
    if again {
      GatherSettles([], bodies, MAX_BODIES);
      GatherSettled(Gather([], bodies, MAX_BODIES), bodies, MAX_BODIES);
    }
  }

  // ---------------------------------------------------------------- the round trip

  predicate BodyKept(b: string) {
    Trim(b) == b && |b| < MAX_BODY_LENGTH
  }

  lemma {:induction false} KeptBodiesSame(bs: seq<string>)
    ensures |KeptBodies(bs)| == |bs|
    ensures "" !in bs ==> (KeptBodies(bs) == bs <==> forall b <- bs :: BodyKept(b))
  {
    if bs != [] {
      var before, b := bs[..|bs| - 1], bs[|bs| - 1];
      assert bs == before + [b];
      KeptBodiesSame(before);
      assert b in bs;
      assert b != "" ==> (KeptBody(Some(b)) == b <==> BodyKept(b));
      var kept := KeptBodies(bs);
      assert kept[..|kept| - 1] == KeptBodies(before) && kept[|kept| - 1] == KeptBody(Some(b));
    }
  }

  lemma {:induction false} ParsedSearchesSame(p: Platform, qs: seq<string>)
    ensures |ParsedSearches(p, qs)| == |qs|
    ensures ParsedSearches(p, qs) == qs <==> forall q <- qs :: p.parsedSearch(q) == q
  {
    if qs != [] {
      var before, q := qs[..|qs| - 1], qs[|qs| - 1];
      assert qs == before + [q];
      ParsedSearchesSame(p, before);
      var parsed := ParsedSearches(p, qs);
      assert parsed[..|parsed| - 1] == ParsedSearches(p, before) && parsed[|parsed| - 1] == p.parsedSearch(q);
    }
  }

  /** The record of one endpoint after its entries are read back. */
  ghost function ReadBack(
    p: Platform, keys: seq<string>, requests: map<string, Captured>, now: nat): map<string, Captured>
    requires forall k <- keys :: k in requests
  {
    Parsed(p, Exported(p, keys, requests, now), now)
  }

  lemma FanOutStamped(p: Platform, r: Captured, url: Url, now: nat)
    ensures
      var es := FanOut(p, r, url, QueryList(r, url), BodyList(r), now);
      && es != [] && Readable(es)
      && Stamped(es, Stamp(r.statuses, r.count), ExportedResponse(r).status)
  {
    FanOutEntries(p, r, url, QueryList(r, url), BodyList(r), now);
    var qs, bs := QueryList(r, url), BodyList(r);
    assert |FanOut(p, r, url, qs, bs, now)| == |qs| * |bs|;
    AtLeastOne(|qs|, |bs|);
  }

  lemma AtLeastOne(a: nat, b: nat)
    requires a > 0 && b > 0
    ensures a * b > 0
  {
  }

  /** An endpoint's record, read back, is made from its own entries only. */
  lemma ReadBackRecord(p: Platform, keys: seq<string>, requests: map<string, Captured>, now: nat, k: string)
    requires AllCanonical(p, keys, requests) && Distinct(keys)
    ensures k in ReadBack(p, keys, requests, now) <==> k in keys && requests[k].exampleUrl.Some?
    ensures k in keys && requests[k].exampleUrl.Some? ==>
      var es := EntriesOf(p, requests[k], now);
      es != [] && Readable(es) && ReadBack(p, keys, requests, now)[k] == UpdatedAll(p, StartOf(p, es[0]), es, now)
  {
    ParsedByKey(p, Exported(p, keys, requests, now), k, now);
    ExportedByKey(p, keys, requests, now, k);
    if k in keys && requests[k].exampleUrl.Some? {
      FanOutStamped(p, requests[k], requests[k].exampleUrl.value, now);
    }
  }

  /** The traffic count comes back exactly when it was positive. */
  lemma CountRoundTrip(p: Platform, keys: seq<string>, requests: map<string, Captured>, now: nat, k: string)
    requires AllCanonical(p, keys, requests) && Distinct(keys)
    requires k in keys && requests[k].exampleUrl.Some?
    ensures k in ReadBack(p, keys, requests, now)
    ensures ReadBack(p, keys, requests, now)[k].count == requests[k].count <==> requests[k].count > 0
  {
    var r := requests[k];
    ReadBackRecord(p, keys, requests, now, k);
    FanOutStamped(p, r, r.exampleUrl.value, now);
    var es := EntriesOf(p, r, now);
    CountOf(p, StartOf(p, es[0]), es, Stamp(r.statuses, r.count), ExportedResponse(r).status, now);
  }

  /** The status counts come back exactly when there are some and the exported status is positive, or neither. */
  lemma StatusesRoundTrip(p: Platform, keys: seq<string>, requests: map<string, Captured>, now: nat, k: string)
    requires AllCanonical(p, keys, requests) && Distinct(keys)
    requires k in keys && requests[k].exampleUrl.Some?
    ensures k in ReadBack(p, keys, requests, now)
    ensures
      ReadBack(p, keys, requests, now)[k].statuses == requests[k].statuses <==>
      (requests[k].statuses != map[] <==> ExportedResponse(requests[k]).status > 0)
  {
    var r := requests[k];
    ReadBackRecord(p, keys, requests, now, k);
    FanOutStamped(p, r, r.exampleUrl.value, now);
    var es := EntriesOf(p, r, now);
    StatusesOf(p, StartOf(p, es[0]), es, Stamp(r.statuses, r.count), ExportedResponse(r).status, now);
  }

  /** What a caller can check of an endpoint's queries before exporting it. */
  ghost predicate QueriesKept(p: Platform, r: Captured)
    requires r.exampleUrl.Some?
  {
    if r.queryVariations == [] then p.parsedSearch(r.exampleUrl.value.search) == ""
    else Gatherable(r.queryVariations, MAX_QUERIES) && forall q <- r.queryVariations :: p.parsedSearch(q) == q
  }

  ghost predicate BodiesKept(r: Captured) {
    Gatherable(r.bodyVariations, MAX_BODIES) && forall b <- r.bodyVariations :: BodyKept(b)
  }

  lemma QueriesGathered(p: Platform, r: Captured)
    requires r.exampleUrl.Some?
    ensures
      Gather([], ParsedSearches(p, QueryList(r, r.exampleUrl.value)), MAX_QUERIES) == r.queryVariations <==>
      QueriesKept(p, r)
  {
    var url := r.exampleUrl.value;
    var parsed := ParsedSearches(p, QueryList(r, url));
    if r.queryVariations == [] {
      assert [url.search][..0] == [] && ParsedSearches(p, []) == [];
      assert parsed == [p.parsedSearch(url.search)];
      assert [p.parsedSearch(url.search)][..0] == [];
    } else {
      ParsedSearchesSame(p, r.queryVariations);
      GatherExactly(parsed, MAX_QUERIES);
    }
  }

  lemma BodiesGathered(r: Captured)
    ensures Gather([], KeptBodies(BodyList(r)), MAX_BODIES) == r.bodyVariations <==> BodiesKept(r)
  {
    var kept := KeptBodies(BodyList(r));
    if r.bodyVariations == [] {
      assert kept == [""] && kept[..0] == [];
    } else {
      KeptBodiesSame(r.bodyVariations);
      GatherExactly(kept, MAX_BODIES);
    }
  }

  lemma VariationsReadBack(p: Platform, keys: seq<string>, requests: map<string, Captured>, now: nat, k: string)
    requires AllCanonical(p, keys, requests) && Distinct(keys)
    requires k in keys && requests[k].exampleUrl.Some?
    ensures k in ReadBack(p, keys, requests, now)
    ensures
      var r, x := requests[k], ReadBack(p, keys, requests, now)[k];
      && x.queryVariations == Gather([], ParsedSearches(p, QueryList(r, r.exampleUrl.value)), MAX_QUERIES)
      && x.bodyVariations == Gather([], KeptBodies(BodyList(r)), MAX_BODIES)
  {
    var r := requests[k];
    ReadBackRecord(p, keys, requests, now, k);
    var es := EntriesOf(p, r, now);
    Variations(p, StartOf(p, es[0]), es, now);
    FanOutVariations(p, r, r.exampleUrl.value, QueryList(r, r.exampleUrl.value), BodyList(r), now);
  }

  /**
   The queries come back, in order, exactly when they are distinct, within the cap and as parsing leaves
   them; the bodies exactly when they are distinct, within the cap, trimmed and not long.
   */
  lemma VariationsRoundTrip(p: Platform, keys: seq<string>, requests: map<string, Captured>, now: nat, k: string)
    requires AllCanonical(p, keys, requests) && Distinct(keys)
    requires k in keys && requests[k].exampleUrl.Some?
    ensures k in ReadBack(p, keys, requests, now)
    ensures
      ReadBack(p, keys, requests, now)[k].queryVariations == requests[k].queryVariations <==>
      QueriesKept(p, requests[k])
    ensures
      ReadBack(p, keys, requests, now)[k].bodyVariations == requests[k].bodyVariations <==>
      BodiesKept(requests[k])
  {
    VariationsReadBack(p, keys, requests, now, k);
    QueriesGathered(p, requests[k]);
    BodiesGathered(requests[k]);
  }

  /** Entries of one time and one response. */
  ghost predicate Alike(es: seq<Entry>, time: nat, response: Response) {
    forall e <- es :: e.time == time && e.response == Some(response)
  }

  ghost function ExportedTime(r: Captured, now: nat): nat {
    if r.lastCaptured != 0 then r.lastCaptured else now
  }

  lemma EntriesAlike(p: Platform, r: Captured, now: nat)
    requires r.exampleUrl.Some?
    ensures Alike(EntriesOf(p, r, now), ExportedTime(r, now), ExportedResponse(r))
  {
    var url := r.exampleUrl.value;
    FanOutEntries(p, r, url, QueryList(r, url), BodyList(r), now);
  }

  /** A sample of the response: at most its first 10,000 characters. */
  ghost function Sampled(last: Response): (r: Response)
    ensures r == last <==> |last.body| <= 10000
  {
    last.(body := if |last.body| > 10000 then last.body[..10000] else last.body)
  }

  lemma SampleTaken(p: Platform, r: Captured, e: Entry, last: Response, now: nat)
    requires e.url.Some? && e.response == Some(last)
    ensures Updated(p, r, e, now).lastResponse == if last.status <= 0 then r.lastResponse else Some(Sampled(last))
  {
  }

  lemma LastOf<T>(s: seq<T>)
    requires s != []
    ensures s[|s| - 1] in s && forall x <- s[..|s| - 1] :: x in s
  {
  }

  lemma {:induction false} ResponseOf(p: Platform, r: Captured, es: seq<Entry>, time: nat, last: Response, now: nat)
    requires Readable(es) && es != [] && Alike(es, time, last)
    ensures
      UpdatedAll(p, r, es, now).lastResponse == if last.status <= 0 then r.lastResponse else Some(Sampled(last))
  {
    var before := es[..|es| - 1];
    LastOf(es);
    SampleTaken(p, UpdatedAll(p, r, before, now), es[|es| - 1], last, now);
    if before != [] {
      ResponseOf(p, r, before, time, last, now);
    }
  }

  lemma {:induction false} TimeOf(p: Platform, r: Captured, es: seq<Entry>, time: nat, last: Response, now: nat)
    requires Readable(es) && es != [] && Alike(es, time, last) && r.lastCaptured == 0
    ensures UpdatedAll(p, r, es, now).lastCaptured == if time > 0 then time else now
  {
    var before := es[..|es| - 1];
    LastOf(es);
    if before != [] {
      TimeOf(p, r, before, time, last, now);
    }
  }

  /** The last response comes back exactly when there is one, with a positive status, a body that is not long,
      and a status text that is not left out of a 200. */
  lemma ResponseRoundTrip(p: Platform, keys: seq<string>, requests: map<string, Captured>, now: nat, k: string)
    requires AllCanonical(p, keys, requests) && Distinct(keys)
    requires k in keys && requests[k].exampleUrl.Some?
    ensures k in ReadBack(p, keys, requests, now)
    ensures
      var last := requests[k].lastResponse;
      ReadBack(p, keys, requests, now)[k].lastResponse == last <==>
      last.Some? && last.value.status > 0 && |last.value.body| <= 10000 &&
      !(last.value.status == 200 && last.value.statusText == "")
  {
    var r := requests[k];
    ReadBackRecord(p, keys, requests, now, k);
    EntriesAlike(p, r, now);
    var es := EntriesOf(p, r, now);
    ResponseOf(p, StartOf(p, es[0]), es, ExportedTime(r, now), ExportedResponse(r), now);
  }

  /** The time of the last capture comes back exactly when there is one. */
  lemma TimeRoundTrip(p: Platform, keys: seq<string>, requests: map<string, Captured>, now: nat, k: string)
    requires AllCanonical(p, keys, requests) && Distinct(keys) && now > 0
    requires k in keys && requests[k].exampleUrl.Some?
    ensures k in ReadBack(p, keys, requests, now)
    ensures
      ReadBack(p, keys, requests, now)[k].lastCaptured == requests[k].lastCaptured <==> requests[k].lastCaptured > 0
  {
    var r := requests[k];
    ReadBackRecord(p, keys, requests, now, k);
    EntriesAlike(p, r, now);
    var es := EntriesOf(p, r, now);
    TimeOf(p, StartOf(p, es[0]), es, ExportedTime(r, now), ExportedResponse(r), now);
  }

  lemma {:induction false} AddNamesMembers(list: seq<string>, names: seq<string>)
    ensures forall x :: x in AddNames(list, names) <==> x in list || x in names
    ensures Distinct(list) ==> Distinct(AddNames(list, names))
  {
    if names != [] {
      AddNamesMembers(list, names[..|names| - 1]);
      assert names == names[..|names| - 1] + [names[|names| - 1]];
    }
  }

  lemma {:induction false} NamedMembers(names: seq<string>)
    ensures forall x :: x in Named(names) <==> x in names && x != ""
  {
    if names != [] {
      NamedMembers(names[..|names| - 1]);
      assert names == names[..|names| - 1] + [names[|names| - 1]];
    }
  }

  /** The entries name their own parameters. */
  ghost predicate OwnNames(p: Platform, es: seq<Entry>)
    requires Readable(es)
  {
    forall e <- es :: e.queryString == p.paramNames(e.url.value.search)
  }

  lemma {:induction false} NamesOf(p: Platform, r: Captured, es: seq<Entry>, now: nat)
    requires Readable(es) && OwnNames(p, es) && r.queryKeys == []
    ensures Distinct(UpdatedAll(p, r, es, now).queryKeys)
    ensures forall x :: x in UpdatedAll(p, r, es, now).queryKeys <==>
      exists e <- es :: x in p.paramNames(e.url.value.search)
  {
    if es != [] {
      var before, e := es[..|es| - 1], es[|es| - 1];
      assert es == before + [e];
      NamesOf(p, r, before, now);
      var keys, names := UpdatedAll(p, r, before, now).queryKeys, p.paramNames(e.url.value.search);
      AddNamesMembers(keys, names);
      AddNamesMembers(AddNames(keys, names), Named(e.queryString));
      NamedMembers(e.queryString);
    }
  }

  lemma {:induction false} FanOutQueries(
    p: Platform, r: Captured, url: Url, qs: seq<string>, bs: seq<string>, now: nat)
    requires bs != []
    ensures
      var es := FanOut(p, r, url, qs, bs, now);
      Readable(es) && OwnNames(p, es) && forall q <- qs :: exists e <- es :: e.url.value.search == p.parsedSearch(q)
  {
    FanOutEntries(p, r, url, qs, bs, now);
    if qs != [] {
      var before, q := qs[..|qs| - 1], qs[|qs| - 1];
      assert qs == before + [q];
      FanOutQueries(p, r, url, before, bs, now);
      var row := Row(p, r, url, q, bs, now);
      assert row[0] == EntryOf(p, r, url, q, bs[0], now) && row[0] in row;
    }
  }

  /** The parameter names read back are, each once, those of the exported queries. */
  lemma NamesReadBack(p: Platform, keys: seq<string>, requests: map<string, Captured>, now: nat, k: string)
    requires AllCanonical(p, keys, requests) && Distinct(keys)
    requires k in keys && requests[k].exampleUrl.Some?
    ensures k in ReadBack(p, keys, requests, now)
    ensures Distinct(ReadBack(p, keys, requests, now)[k].queryKeys)
    ensures forall x :: x in ReadBack(p, keys, requests, now)[k].queryKeys <==>
      exists q <- QueryList(requests[k], requests[k].exampleUrl.value) :: x in p.paramNames(p.parsedSearch(q))
  {
    var r := requests[k];
    var url, es := r.exampleUrl.value, EntriesOf(p, r, now);
    ReadBackRecord(p, keys, requests, now, k);
    FanOutQueries(p, r, url, QueryList(r, url), BodyList(r), now);
    FanOutEntries(p, r, url, QueryList(r, url), BodyList(r), now);
    NamesOf(p, StartOf(p, es[0]), es, now);
  }
}
