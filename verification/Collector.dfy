/**
 packages/container/internal/classifier: from request results to findings (classifier.go) and the
 collector that keeps a bounded number of them (collector.go). Taxonomy tables and the user's ignore
 rules are parameters; strings are byte strings.
 */
module Classifier {
  import opened Options

  type Severity = string

  const SEVERITY_ERROR: Severity := "error"
  const SEVERITY_IGNORE: Severity := "ignore"

  /** A response body is text or some decoded value. */
  datatype Body = BodyText(text: string) | BodyValue(value: nat)

  datatype Tags = Tags(owasp: seq<string>, owaspApi: seq<string>, cwe: seq<string>)

  datatype AnalysisFinding = AnalysisFinding(ruleId: string, level: Severity, evidence: string, tags: Tags)

  datatype FuzzResult = FuzzResult(
    id: string,
    endpoint: string,
    resolvedPath: string,
    method': string,
    profile: string,
    status: int,
    duration: int,
    payload: nat,
    responseBody: Body,
    error: string,
    timestamp: int,
    analyzerFindings: seq<AnalysisFinding>)

  datatype Finding = Finding(
    id: string,
    ruleId: string,
    level: Severity,
    endpoint: string,
    resolvedPath: string,
    method': string,
    profile: string,
    status: int,
    duration: int,
    payload: nat,
    responseBody: Body,
    error: string,
    timestamp: int,
    source: string,
    tags: Tags)

  const DEFAULT_IGNORE: set<int> := {401, 403, 404, 405, 422, 429}

  const DEFAULT_LEVELS: map<string, Severity> := map[
    "1xx" := "ignore", "2xx" := "ignore", "3xx" := "ignore",
    "4xx" := "error", "5xx" := "error", "timeout" := "error", "network_error" := "error"]

  datatype RulesConfig = RulesConfig(
    ignore: seq<int>,
    severity: Option<map<string, Severity>>,
    defaults: Option<map<string, Severity>>,
    ignores: Finding -> bool)

  /** A configured classifier; the two tag functions stand for the taxonomy tables. */
  datatype Classifier = Classifier(
    ignoreSet: set<int>,
    severity: map<string, Severity>,
    defaults: map<string, Severity>,
    ignores: Finding -> bool,
    statusTags: (string, FuzzResult) -> Tags,
    analyzerTags: (AnalysisFinding, FuzzResult) -> Tags)

  function OrElse<T>(o: Option<T>, default': T): T {
    if o.Some? then o.value else default'
  }

  /** User codes add to the built-in ignored ones; user defaults override the built-in ones key by key. */
  method New(rules: Option<RulesConfig>, statusTags: (string, FuzzResult) -> Tags,
             analyzerTags: (AnalysisFinding, FuzzResult) -> Tags)
      returns (c: Classifier)
    ensures rules.None? ==> c.ignoreSet == DEFAULT_IGNORE && c.severity == map[] && c.defaults == DEFAULT_LEVELS
    ensures rules.Some? ==>
      forall code :: code in c.ignoreSet <==> code in DEFAULT_IGNORE || code in rules.value.ignore
    ensures rules.Some? ==> c.severity == OrElse(rules.value.severity, map[])
    ensures rules.Some? ==> c.defaults == DEFAULT_LEVELS + OrElse(rules.value.defaults, map[])
    ensures rules.Some? ==> c.ignores == rules.value.ignores
  {
    if rules.None? {
      return Classifier(DEFAULT_IGNORE, map[], DEFAULT_LEVELS, (f: Finding) => false, statusTags, analyzerTags);
    }
    var config := rules.value;
    var ignoreSet := AddCodes(DEFAULT_IGNORE, config.ignore);
    var severity, defaults := map[], DEFAULT_LEVELS;
    if config.severity.Some? {
      severity := config.severity.value;
    }
    if config.defaults.Some? {
      defaults := Merge(DEFAULT_LEVELS, config.defaults.value);
    }
    return Classifier(ignoreSet, severity, defaults, config.ignores, statusTags, analyzerTags);
  }

  method AddCodes(codes: set<int>, more: seq<int>) returns (r: set<int>)
    ensures forall code :: code in r <==> code in codes || code in more
  {
    r := codes;
    for i := 0 to |more|
      invariant forall code :: code in r <==> code in codes || code in more[..i]
    {
      r := r + {more[i]};
    }
  }

  method Merge(levels: map<string, Severity>, over: map<string, Severity>) returns (r: map<string, Severity>)
    ensures r == levels + over
  {
    r := levels;
    var todo := over.Keys;
    while todo != {}
      invariant todo <= over.Keys
      invariant r == levels + (map k | k in over && k !in todo :: over[k])
      decreases |todo|
    {
      var k :| k in todo;
      r := r[k := over[k]];
      todo := todo - {k};
    }
  }

  // ---------------------------------------------------------------- strings

  function Digit(d: nat): char
    requires d < 10
  {
    "0123456789"[d]
  }

  function Digits(n: nat): (r: string)
    ensures r != [] && '-' !in r
  {
    if n < 10 then [Digit(n)] else Digits(n / 10) + [Digit(n % 10)]
  }

  /** strconv.Itoa */
  function Itoa(n: int): string {
    if n < 0 then "-" + Digits(-n) else Digits(n)
  }

  /** Go's division, which truncates towards zero. */
  function Quotient(n: int, d: nat): int
    requires d > 0
  {
    if n < 0 then -(-n / d) else n / d
  }

  predicate ContainsText(s: string, t: string) {
    exists i | 0 <= i <= |s| :: t <= s[i..]
  }

  predicate TimedOut(error: string) {
    ContainsText(error, "timed out")
  }

  lemma {:induction false} DigitsInjective(a: nat, b: nat)
    requires Digits(a) == Digits(b)
    ensures a == b
  {
    var s := Digits(a);
    assert (|s| == 1 <==> a < 10) && (|s| == 1 <==> b < 10);
    if a >= 10 && b >= 10 {
      assert s[..|s| - 1] == Digits(a / 10) == Digits(b / 10);
      assert s[|s| - 1] == Digit(a % 10) == Digit(b % 10);
      DigitsInjective(a / 10, b / 10);
      DigitInjective(a % 10, b % 10);
    } else {
      assert s[0] == Digit(a) == Digit(b);
      DigitInjective(a, b);
    }
  }

  lemma DigitInjective(a: nat, b: nat)
    requires a < 10 && b < 10 && Digit(a) == Digit(b)
    ensures a == b
  {
  }

  lemma ItoaInjective(a: int, b: int)
    requires Itoa(a) == Itoa(b)
    ensures a == b
  {
    assert Itoa(a)[0] in Itoa(a) && Itoa(b)[0] in Itoa(b);
    if a < 0 {
      assert Itoa(a)[1..] == Digits(-a) && Itoa(b)[1..] == Digits(-b);
      DigitsInjective(-a, -b);
    } else {
      DigitsInjective(a, b);
    }
  }

  // ---------------------------------------------------------------- one result

  function RuleIDForResult(r: FuzzResult): string {
    if r.status == 0 then
      if TimedOut(r.error) then "swazz/timeout" else "swazz/network-error"
    else "swazz/status-" + Itoa(r.status)
  }

  function ResolveLevel(c: Classifier, r: FuzzResult): Severity {
    if r.status in c.ignoreSet then SEVERITY_IGNORE
    else if Itoa(r.status) in c.severity then c.severity[Itoa(r.status)]
    else
      var range :=
        if r.status == 0 then if TimedOut(r.error) then "timeout" else "network_error"
        else Itoa(Quotient(r.status, 100)) + "xx";
      if range in c.defaults then c.defaults[range] else SEVERITY_ERROR
  }

  lemma ItoaDigit(n: int, d: nat)
    requires d < 10
    ensures Itoa(n) == [Digit(d)] <==> n == d
  {
    assert Itoa(d) == [Digit(d)];
    if Itoa(n) == [Digit(d)] {
      ItoaInjective(n, d);
    }
  }

  /** The name of a hundred of statuses, and which statuses it is the name of. */
  lemma HundredName(status: int, d: nat)
    requires 1 <= d < 10
    ensures Itoa(Quotient(status, 100)) + "xx" == [Digit(d)] + "xx" <==> 100 * d <= status < 100 * d + 100
  {
    var s, t := Itoa(Quotient(status, 100)) + "xx", [Digit(d)] + "xx";
    assert s[..|s| - 2] == Itoa(Quotient(status, 100)) && t[..|t| - 2] == [Digit(d)];
    ItoaDigit(Quotient(status, 100), d);
  }

  /** Without rules, informational, successful, redirected and the built-in ignored results are no findings;
      all others are errors. */
  lemma DefaultLevel(c: Classifier, r: FuzzResult)
    requires c.ignoreSet == DEFAULT_IGNORE && c.severity == map[] && c.defaults == DEFAULT_LEVELS
    ensures
      ResolveLevel(c, r) ==
      if r.status in {401, 403, 404, 405, 422, 429} || 100 <= r.status < 400 then SEVERITY_IGNORE else SEVERITY_ERROR
  {
    if r.status !in DEFAULT_IGNORE && r.status != 0 {
      var range := Itoa(Quotient(r.status, 100)) + "xx";
      HundredName(r.status, 1);
      HundredName(r.status, 2);
      HundredName(r.status, 3);
      HundredName(r.status, 4);
      HundredName(r.status, 5);
      assert Digit(1) == '1' && Digit(2) == '2' && Digit(3) == '3' && Digit(4) == '4' && Digit(5) == '5';
      assert "1xx" == ['1'] + "xx" && "2xx" == ['2'] + "xx" && "3xx" == ['3'] + "xx" && "4xx" == ['4'] + "xx" &&
             "5xx" == ['5'] + "xx";
      assert range in DEFAULT_LEVELS && DEFAULT_LEVELS[range] == SEVERITY_IGNORE <==> 100 <= r.status < 400 by {
        assert range[|range| - 1] == 'x' && "timeout"[6] == 't' && "network_error"[12] == 'r';
      }
    }
  }

  /** A rule for the very status decides unless the status is ignored; then one for its hundred, then error. */
  lemma RuleDecides(c: Classifier, r: FuzzResult, d: nat)
    requires 1 <= d < 10 && 100 * d <= r.status < 100 * d + 100
    ensures
      ResolveLevel(c, r) ==
      if r.status in c.ignoreSet then SEVERITY_IGNORE
      else if Itoa(r.status) in c.severity then c.severity[Itoa(r.status)]
      else if [Digit(d)] + "xx" in c.defaults then c.defaults[[Digit(d)] + "xx"]
      else SEVERITY_ERROR
  {
    HundredName(r.status, d);
  }

  function Classify(c: Classifier, r: FuzzResult): Option<Finding> {
    var level := ResolveLevel(c, r);
    if level == SEVERITY_IGNORE then None
    else
      var ruleId := RuleIDForResult(r);
      Some(Finding(r.id, ruleId, level, r.endpoint, r.resolvedPath, r.method', r.profile, r.status, r.duration,
                   r.payload, r.responseBody, r.error, r.timestamp, "status_code", c.statusTags(ruleId, r)))
  }

  /** Two results fall under the same status rule exactly when they ended alike. */
  lemma SameStatusRule(a: FuzzResult, b: FuzzResult)
    ensures
      RuleIDForResult(a) == RuleIDForResult(b) <==>
      a.status == b.status && (a.status == 0 ==> (TimedOut(a.error) <==> TimedOut(b.error)))
  {
    var prefix := "swazz/status-";
    if a.status != 0 && b.status != 0 {
      assert RuleIDForResult(a)[|prefix|..] == Itoa(a.status);
      assert RuleIDForResult(b)[|prefix|..] == Itoa(b.status);
      if RuleIDForResult(a) == RuleIDForResult(b) {
        ItoaInjective(a.status, b.status);
      }
    } else {
      forall r: FuzzResult | r.status != 0
        ensures RuleIDForResult(r)[6] == 's'
      {
        assert RuleIDForResult(r)[6] == prefix[6];
      }
      assert "swazz/timeout"[6] == 't' && "swazz/network-error"[6] == 'n';
    }
  }
}

module Collector {
  import opened Options
  import opened Classifier

  const MAX_FINDINGS_PER_DEFECT := 5
  const MAX_FINDING_BODY_BYTES := 50000
  const CUT_MARK := "\n... [TRUNCATED BY SWAZZ]"

  datatype DefectKey = DefectKey(rule: string, method': string, endpoint: string)

  function KeyOf(f: Finding): DefectKey {
    DefectKey(f.ruleId, f.method', f.endpoint)
  }

  predicate CutMarked(text: string) {
    |text| >= |CUT_MARK| && text[|text| - |CUT_MARK|..] == CUT_MARK
  }

  /** Only a long text body changes: its beginning stays, with a mark at the end. */
  function Cut(f: Finding): (r: Finding)
    ensures r.(responseBody := f.responseBody) == f
    ensures
      if f.responseBody.BodyText? && |f.responseBody.text| > MAX_FINDING_BODY_BYTES
      then
        r.responseBody.BodyText? && |r.responseBody.text| == MAX_FINDING_BODY_BYTES + |CUT_MARK| &&
        f.responseBody.text[..MAX_FINDING_BODY_BYTES] <= r.responseBody.text && CutMarked(r.responseBody.text)
      else r == f
  {
    if f.responseBody.BodyText? && |f.responseBody.text| > MAX_FINDING_BODY_BYTES then
      f.(responseBody := BodyText(f.responseBody.text[..MAX_FINDING_BODY_BYTES] + CUT_MARK))
    else f
  }

  function SourceOf(ruleId: string): string {
    if "swazz/crlf-" <= ruleId || "swazz/header-" <= ruleId || ruleId == "swazz/crlf-injection" then "response_headers"
    else if ruleId == "swazz/no-rate-limit" || ruleId == "swazz/rate-limit-active" then "rate_limiting"
    else if ruleId == "swazz/bola-idor" || ruleId == "swazz/unauthorized-access" then "access_control"
    else "response_body"
  }

  function AnalyzerFinding(c: Classifier, r: FuzzResult, af: AnalysisFinding): Finding {
    Finding(r.id, af.ruleId, af.level, r.endpoint, r.resolvedPath, r.method', r.profile, r.status, r.duration,
            r.payload, r.responseBody, af.evidence, r.timestamp, SourceOf(af.ruleId), c.analyzerTags(af, r))
  }

  // ---------------------------------------------------------------- the simple form

  ghost function Unless(c: Classifier, f: Finding): seq<Finding> {
    if c.ignores(f) then [] else [f]
  }

  ghost function StatusFindings(c: Classifier, r: FuzzResult): seq<Finding> {
    if Classify(c, r).None? then [] else Unless(c, Classify(c, r).value)
  }

  ghost function AnalyzerFindings(c: Classifier, r: FuzzResult, n: nat): seq<Finding>
    requires n <= |r.analyzerFindings|
  {
    if n == 0 then []
    else AnalyzerFindings(c, r, n - 1) + Unless(c, AnalyzerFinding(c, r, r.analyzerFindings[n - 1]))
  }

  /** Everything one result reports, in order, nothing left out for being repeated. */
  ghost function Reported(c: Classifier, r: FuzzResult): seq<Finding> {
    StatusFindings(c, r) + AnalyzerFindings(c, r, |r.analyzerFindings|)
  }

  ghost function ReportedAll(c: Classifier, results: seq<FuzzResult>): seq<Finding> {
    if results == [] then [] else ReportedAll(c, results[..|results| - 1]) + Reported(c, results[|results| - 1])
  }

  ghost function OfDefect(fs: seq<Finding>, k: DefectKey): seq<Finding> {
    if fs == [] then []
    else OfDefect(fs[..|fs| - 1], k) + (if SharesDefect(fs[|fs| - 1], k) then [fs[|fs| - 1]] else [])
  }

  /** The finding has the rule, the method and the endpoint of the defect. */
  ghost predicate SharesDefect(f: Finding, k: DefectKey) {
    f.ruleId == k.rule && f.method' == k.method' && f.endpoint == k.endpoint
  }

  /** Each finding that fewer than five earlier ones share its rule, method and endpoint with. */
  ghost function Limited(fs: seq<Finding>): seq<Finding> {
    if fs == [] then []
    else
      var before, f := fs[..|fs| - 1], fs[|fs| - 1];
      Limited(before) + (if |OfDefect(before, KeyOf(f))| < MAX_FINDINGS_PER_DEFECT then [Cut(f)] else [])
  }

  ghost function CutAll(fs: seq<Finding>): (r: seq<Finding>)
    ensures |r| == |fs|
  {
    seq(|fs|, i requires 0 <= i < |fs| => Cut(fs[i]))
  }

  ghost function FirstFew(fs: seq<Finding>): seq<Finding> {
    if |fs| > MAX_FINDINGS_PER_DEFECT then fs[..MAX_FINDINGS_PER_DEFECT] else fs
  }

  lemma AppendOne(fs: seq<Finding>, f: Finding, k: DefectKey)
    ensures OfDefect(fs + [f], k) == if KeyOf(f) == k then OfDefect(fs, k) + [f] else OfDefect(fs, k)
    ensures
      Limited(fs + [f]) ==
      if |OfDefect(fs, KeyOf(f))| < MAX_FINDINGS_PER_DEFECT then Limited(fs) + [Cut(f)] else Limited(fs)
  {
    assert (fs + [f])[..|fs + [f]| - 1] == fs;
    assert OfDefect(fs, k) + [] == OfDefect(fs, k) && Limited(fs) + [] == Limited(fs);
  }

  lemma CountsAfter(fs: seq<Finding>, f: Finding)
    ensures forall k ::
      |FirstFew(OfDefect(fs + [f], k))| ==
      if KeyOf(f) == k && |FirstFew(OfDefect(fs, k))| < MAX_FINDINGS_PER_DEFECT then |FirstFew(OfDefect(fs, k))| + 1
      else |FirstFew(OfDefect(fs, k))|
  {
    forall k
      ensures OfDefect(fs + [f], k) == if KeyOf(f) == k then OfDefect(fs, k) + [f] else OfDefect(fs, k)
    {
      AppendOne(fs, f, k);
    }
  }

  /** Of every defect exactly its first five findings are kept, in order. */
  lemma {:induction false} FirstFiveOfEach(fs: seq<Finding>, k: DefectKey)
    ensures OfDefect(Limited(fs), k) == CutAll(FirstFew(OfDefect(fs, k)))
  {
    if fs != [] {
      var before, f := fs[..|fs| - 1], fs[|fs| - 1];
      assert fs == before + [f];
      FirstFiveOfEach(before, k);
      AppendOne(before, f, k);
      AppendOne(Limited(before), Cut(f), k);
      if KeyOf(f) == k {
        OneMore(OfDefect(before, k), f);
      }
    }
  }

  lemma OneMore(fs: seq<Finding>, f: Finding)
    ensures
      CutAll(FirstFew(fs + [f])) ==
      if |fs| < MAX_FINDINGS_PER_DEFECT then CutAll(FirstFew(fs)) + [Cut(f)] else CutAll(FirstFew(fs))
  {
    if |fs| < MAX_FINDINGS_PER_DEFECT {
      assert CutAll(fs + [f]) == CutAll(fs) + [Cut(f)];
    } else {
      assert FirstFew(fs + [f]) == FirstFew(fs);
    }
  }

  /** What later results add never takes back or reorders a finding. */
  lemma {:induction false} NothingTakenBack(fs: seq<Finding>, more: seq<Finding>)
    ensures Limited(fs) <= Limited(fs + more)
  {
    if more == [] {
      assert fs + more == fs;
    } else {
      NothingTakenBack(fs, more[..|more| - 1]);
      assert (fs + more)[..|fs + more| - 1] == fs + more[..|more| - 1];
    }
  }

  lemma Together(a: seq<Finding>, b: seq<Finding>, c: seq<Finding>)
    ensures a + b + c == a + (b + c)
  {
  }

  // ---------------------------------------------------------------- the collector

  class Collector {
    const c: Classifier
    var defectCounts: map<DefectKey, nat>
    var findings: seq<Finding>
    /** Everything reported so far, whether it was looked at or skipped. */
    ghost var reported: seq<Finding>

    ghost predicate Valid()
      reads this
    {
      && findings == Limited(reported)
      && forall k :: CountOf(k) == |FirstFew(OfDefect(reported, k))|
    }

    function CountOf(k: DefectKey): nat
      reads this
    {
      if k in defectCounts then defectCounts[k] else 0
    }

    constructor (c: Classifier)
      ensures Valid() && this.c == c && reported == [] && findings == []
    {
      this.c := c;
      defectCounts, findings, reported := map[], [], [];
    }

    predicate Full(k: DefectKey)
      reads this
    {
      CountOf(k) >= MAX_FINDINGS_PER_DEFECT
    }

    /** A long text body is cut. */
    static method CutBody(f: Finding) returns (kept: Finding)
      ensures kept == Cut(f)
    {
      kept := f;
      if f.responseBody.BodyText? && |f.responseBody.text| > MAX_FINDING_BODY_BYTES {
        kept := f.(responseBody := BodyText(f.responseBody.text[..MAX_FINDING_BODY_BYTES] + CUT_MARK));
      }
    }

    method Keep(f: Finding)
      requires Valid() && !Full(KeyOf(f))
      modifies this
      ensures Valid() && reported == old(reported) + [f]
      ensures findings == old(findings) + [Cut(f)]
    {
      var kept := CutBody(f);
      CountsAfter(reported, f);
      AppendOne(reported, f, KeyOf(f));
      findings := findings + [kept];
      defectCounts := defectCounts[KeyOf(kept) := CountOf(KeyOf(kept)) + 1];
      reported := reported + [f];
    }

    /** A finding of a defect that is full changes nothing but what was reported. */
    ghost method Skip(f: Finding)
      requires Valid() && Full(KeyOf(f))
      modifies this`reported
      ensures Valid() && reported == old(reported) + [f]
    {
      forall k
        ensures FirstFew(OfDefect(reported + [f], k)) == FirstFew(OfDefect(reported, k))
      {
        AppendOne(reported, f, k);
      }
      AppendOne(reported, f, KeyOf(f));
      reported := reported + [f];
    }

    method AddStatus(r: FuzzResult)
      requires Valid()
      modifies this
      ensures Valid() && reported == old(reported) + StatusFindings(c, r)
    {
      if !Full(DefectKey(RuleIDForResult(r), r.method', r.endpoint)) {
        var finding := Classify(c, r);
        if finding.Some? && !c.ignores(finding.value) {
          Keep(finding.value);
        }
      } else if StatusFindings(c, r) != [] {
        Skip(Classify(c, r).value);
      }
    }

    method AddAnalyzer(r: FuzzResult, af: AnalysisFinding)
      requires Valid()
      modifies this
      ensures Valid() && reported == old(reported) + Unless(c, AnalyzerFinding(c, r, af))
    {
      if Full(DefectKey(af.ruleId, r.method', r.endpoint)) {
        if !c.ignores(AnalyzerFinding(c, r, af)) {
          Skip(AnalyzerFinding(c, r, af));
        }
        return;
      }
      var finding := AnalyzerFinding(c, r, af);
      if !c.ignores(finding) {
        Keep(finding);
      }
    }

    method AddAnalyzers(r: FuzzResult)
      requires Valid()
      modifies this
      ensures Valid() && reported == old(reported) + AnalyzerFindings(c, r, |r.analyzerFindings|)
    {
      ghost var was := reported;
      for i := 0 to |r.analyzerFindings|
        invariant Valid()
        invariant reported == was + AnalyzerFindings(c, r, i)
      {
        AddAnalyzer(r, r.analyzerFindings[i]);
        Together(was, AnalyzerFindings(c, r, i), Unless(c, AnalyzerFinding(c, r, r.analyzerFindings[i])));
      }
    }

    /** A defect that is full is skipped before any work, and the findings are those of the simple form. */
    method Add(r: FuzzResult)
      requires Valid()
      modifies this
      ensures Valid() && reported == old(reported) + Reported(c, r)
    {
      AddStatus(r);
      AddAnalyzers(r);
      Together(old(reported), StatusFindings(c, r), AnalyzerFindings(c, r, |r.analyzerFindings|));
    }
  }

  method ClassifyAll(c: Classifier, results: seq<FuzzResult>) returns (findings: seq<Finding>)
    ensures findings == Limited(ReportedAll(c, results))
  {
    var col := new Collector(c);
    for i := 0 to |results|
      invariant col.Valid() && col.c == c
      invariant col.reported == ReportedAll(c, results[..i])
    {
      assert results[..i + 1][..i] == results[..i];
      col.Add(results[i]);
    }
    assert results[..|results|] == results;
    return col.findings;
  }
}
