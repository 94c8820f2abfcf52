/**
 The delivery log of the runner agent as a value: what every operation of
 packages/container/internal/agent/agent_delivery.go does to the numbering and to the kept events.
 The class in DeliveryLog.dfy is proved against these functions, and the pipeline in Pipeline.dfy
 steps through them.

 Run ids and execution ids are numbers: only their equality and (for run ids) their order matter.
 */
module DeliverySpec {
  import opened Options

  type RunId = nat

  type ExecId = nat

  /** The empty execution id: the message names no execution. */
  const NO_EXEC: ExecId := 0

  const MAX_UNACKED: nat := 10000

  /** Fifteen minutes, in milliseconds. */
  const IDLE_TTL: int := 900000

  /** A run event; `num` is its sequence number (0 until it is stamped), `body` its payload. */
  datatype Event = Event(run: RunId, exec: ExecId, num: nat, body: nat)

  datatype RunState = RunState(
    exec: ExecId,
    nextSeq: nat,
    writtenSeq: nat,
    ackedSeq: nat,
    unacked: seq<Event>,
    touched: int,
    dropped: bool)

  datatype LogState = LogState(runs: map<RunId, RunState>, enabled: bool)

  // ---------------------------------------------------------------- sequences of events

  ghost predicate Ascending(s: seq<Event>) {
    forall i, j :: 0 <= i < j < |s| ==> s[i].num < s[j].num
  }

  ghost predicate HasNum(s: seq<Event>, n: nat) {
    exists e :: e in s && e.num == n
  }

  /** The events of `s` numbered above `n`. */
  ghost function Above(s: seq<Event>, n: nat): seq<Event> {
    if s == [] then [] else (if s[0].num > n then [s[0]] else []) + Above(s[1..], n)
  }

  /** The events of `s` numbered below `n`. */
  ghost function Below(s: seq<Event>, n: nat): seq<Event> {
    if s == [] then [] else (if s[0].num < n then [s[0]] else []) + Below(s[1..], n)
  }

  /** `s` with `e` at its place; unchanged when an event with that number is there already. */
  ghost function Inserted(s: seq<Event>, e: Event): seq<Event> {
    if HasNum(s, e.num) then s else Below(s, e.num) + [e] + Above(s, e.num)
  }

  /** Beyond the bound only the newest half of it stays. */
  ghost function Trimmed(s: seq<Event>): seq<Event> {
    if |s| > MAX_UNACKED then s[|s| - MAX_UNACKED / 2..] else s
  }

  lemma {:induction false} AboveSlice(s: seq<Event>, n: nat, i: nat)
    requires Ascending(s) && i <= |s|
    requires forall k :: 0 <= k < i ==> s[k].num <= n
    requires forall k :: i <= k < |s| ==> s[k].num > n
    ensures Above(s, n) == s[i..]
  {
    if s != [] {
      if i == 0 {
        AboveSlice(s[1..], n, 0);
        assert s[0..] == [s[0]] + s[1..][0..];
      } else {
        AboveSlice(s[1..], n, i - 1);
        assert s[i..] == s[1..][i - 1..];
      }
    }
  }

  lemma {:induction false} BelowSlice(s: seq<Event>, n: nat, i: nat)
    requires Ascending(s) && i <= |s|
    requires forall k :: 0 <= k < i ==> s[k].num < n
    requires forall k :: i <= k < |s| ==> s[k].num >= n
    ensures Below(s, n) == s[..i]
  {
    if s != [] {
      if i == 0 {
        BelowSlice(s[1..], n, 0);
      } else {
        BelowSlice(s[1..], n, i - 1);
        assert s[..i] == [s[0]] + s[1..][..i - 1];
      }
    }
  }

  /** Where a number splits an ascending sequence. */
  lemma {:induction false} SplitPoint(s: seq<Event>, n: nat) returns (i: nat)
    requires Ascending(s)
    ensures i <= |s|
    ensures forall k :: 0 <= k < i ==> s[k].num < n
    ensures forall k :: i <= k < |s| ==> s[k].num >= n
  {
    i := 0;
    while i < |s| && s[i].num < n
      invariant i <= |s|
      invariant forall k :: 0 <= k < i ==> s[k].num < n
    {
      i := i + 1;
    }
  }

  /** Keeping the events above a number keeps their order and exactly those events. */
  lemma {:induction false} AboveFacts(s: seq<Event>, n: nat)
    requires Ascending(s)
    ensures Ascending(Above(s, n))
    ensures |Above(s, n)| <= |s|
    ensures forall e :: e in Above(s, n) <==> e in s && e.num > n
  {
    var i := SplitPoint(s, n + 1);
    AboveSlice(s, n, i);
    forall e | e in s && e.num > n
      ensures e in s[i..]
    {
      var k :| 0 <= k < |s| && s[k] == e;
      assert s[i..][k - i] == e;
    }
  }

  /** An insertion puts the event between the smaller and the larger ones. */
  lemma InsertedAt(s: seq<Event>, e: Event) returns (i: nat)
    requires Ascending(s) && !HasNum(s, e.num)
    ensures i <= |s| && Inserted(s, e) == s[..i] + [e] + s[i..]
    ensures forall k :: 0 <= k < i ==> s[k].num < e.num
    ensures forall k :: i <= k < |s| ==> s[k].num > e.num
    ensures Above(s, e.num) == s[i..]
  {
    i := SplitPoint(s, e.num);
    forall k | i <= k < |s|
      ensures s[k].num > e.num
    {
      assert s[k] in s;
    }
    BelowSlice(s, e.num, i);
    AboveSlice(s, e.num, i);
  }

  lemma AscendingJoin(a: seq<Event>, e: Event, b: seq<Event>)
    requires Ascending(a) && Ascending(b)
    requires forall k :: 0 <= k < |a| ==> a[k].num < e.num
    requires forall k :: 0 <= k < |b| ==> b[k].num > e.num
    ensures Ascending(a + [e] + b)
  {
  }

  /** An insertion into an ascending log is one more event at the one place that keeps it ascending. */
  lemma InsertedFacts(s: seq<Event>, e: Event)
    requires Ascending(s)
    ensures Ascending(Inserted(s, e))
    ensures !HasNum(s, e.num) ==> |Inserted(s, e)| == |s| + 1
    ensures forall x :: x in Inserted(s, e) <==> x in s || (x == e && !HasNum(s, e.num))
  {
    if !HasNum(s, e.num) {
      var i := InsertedAt(s, e);
      AscendingJoin(s[..i], e, s[i..]);
      JoinMembers(s, i, e);
    }
  }

  lemma JoinMembers(s: seq<Event>, i: nat, e: Event)
    requires i <= |s|
    ensures forall x :: x in s[..i] + [e] + s[i..] <==> x in s || x == e
  {
    assert s == s[..i] + s[i..];
  }

  // ---------------------------------------------------------------- operations

  ghost function Max(a: nat, b: nat): nat {
    if a < b then b else a
  }

  ghost function NewRun(exec: ExecId, now: int): RunState {
    RunState(exec, 0, 0, 0, [], now, false)
  }

  /** Whether the coordinator acknowledges; without it nothing is kept. */
  ghost function SetEnabled(l: LogState, on: bool): LogState {
    LogState(if on then l.runs else map r | r in l.runs :: l.runs[r].(unacked := []), on)
  }

  ghost function Reset(l: LogState, r: RunId, newId: ExecId, now: int): LogState {
    l.(runs := l.runs[r := NewRun(newId, now)])
  }

  ghost predicate Refused(l: LogState, msg: Event) {
    msg.run in l.runs && msg.exec != NO_EXEC && msg.exec != l.runs[msg.run].exec
  }

  /** The run an event is stamped in; a run without a log gets one, of the execution the event names. */
  ghost function RunFor(l: LogState, msg: Event, newId: ExecId, now: int): RunState {
    if msg.run in l.runs then l.runs[msg.run]
    else NewRun(if msg.exec == NO_EXEC then newId else msg.exec, now)
  }

  ghost function NumberedRun(rs: RunState, now: int): RunState {
    rs.(nextSeq := rs.nextSeq + 1, touched := now)
  }

  ghost function StampedRun(l: LogState, msg: Event, newId: ExecId, now: int): RunState {
    NumberedRun(RunFor(l, msg, newId, now), now)
  }

  ghost function Stamp(l: LogState, msg: Event, newId: ExecId, now: int): LogState {
    if Refused(l, msg) then l else l.(runs := l.runs[msg.run := StampedRun(l, msg, newId, now)])
  }

  ghost function StampedEvent(l: LogState, msg: Event, newId: ExecId, now: int): Event {
    var rs := StampedRun(l, msg, newId, now);
    msg.(exec := rs.exec, num := rs.nextSeq)
  }

  ghost predicate Names(l: LogState, r: RunId, x: ExecId) {
    r in l.runs && l.runs[r].exec == x
  }

  ghost function WrittenRun(rs: RunState, e: Event, enabled: bool, sent: bool, now: int): RunState {
    var s := Inserted(rs.unacked, e);
    var keeps := enabled && sent && e.num > rs.ackedSeq;
    rs.(writtenSeq := Max(rs.writtenSeq, e.num),
        touched := now,
        unacked := if keeps then Trimmed(s) else rs.unacked,
        dropped := rs.dropped || (keeps && |s| > MAX_UNACKED))
  }

  ghost function Written(l: LogState, e: Event, sent: bool, now: int): LogState {
    if !Names(l, e.run, e.exec) then l
    else l.(runs := l.runs[e.run := WrittenRun(l.runs[e.run], e, l.enabled, sent, now)])
  }

  ghost predicate Kept(l: LogState, e: Event) {
    Names(l, e.run, e.exec) &&
    (e.num <= l.runs[e.run].ackedSeq || HasNum(l.runs[e.run].unacked, e.num))
  }

  ghost function AckedRun(rs: RunState, n: nat, now: int): RunState {
    rs.(ackedSeq := Max(rs.ackedSeq, n), unacked := Above(rs.unacked, n), touched := now)
  }

  ghost function Ack(l: LogState, r: RunId, x: ExecId, n: nat, now: int): LogState {
    if !Names(l, r, x) then l else l.(runs := l.runs[r := AckedRun(l.runs[r], n, now)])
  }

  /** Something of execution `x`, up to `n`, is still unacknowledged. */
  ghost predicate AckWanted(l: LogState, r: RunId, x: ExecId, n: nat) {
    Names(l, r, x) && exists e :: e in l.runs[r].unacked && e.num <= n
  }

  ghost predicate Idle(rs: RunState, r: RunId, active: set<RunId>, now: int) {
    rs.touched < now - IDLE_TTL && r !in active && rs.writtenSeq >= rs.nextSeq
  }

  ghost function Gc(l: LogState, active: set<RunId>, now: int): LogState {
    l.(runs := map r | r in l.runs && !Idle(l.runs[r], r, active, now) :: l.runs[r])
  }

  ghost predicate Undelivered(rs: RunState) {
    rs.unacked != [] || rs.writtenSeq < rs.nextSeq
  }

  ghost predicate AnyQueued(l: LogState) {
    exists r :: r in l.runs && l.runs[r].writtenSeq < l.runs[r].nextSeq
  }

  /** The kept events of the runs in `order`, each run's in sequence order. */
  ghost function Replay(l: LogState, order: seq<RunId>): seq<Event>
    requires forall r :: r in order ==> r in l.runs
  {
    if order == [] then [] else l.runs[order[0]].unacked + Replay(l, order[1..])
  }

  lemma {:induction false} ReplayAppend(l: LogState, order: seq<RunId>, r: RunId)
    requires forall q :: q in order ==> q in l.runs
    requires r in l.runs
    ensures Replay(l, order + [r]) == Replay(l, order) + l.runs[r].unacked
  {
    if order == [] {
      assert Replay(l, [r]) == l.runs[r].unacked + Replay(l, []);
    } else {
      ReplayAppend(l, order[1..], r);
      assert (order + [r])[1..] == order[1..] + [r];
    }
  }

  ghost predicate Distinct<T>(s: seq<T>) {
    forall i, j :: 0 <= i < j < |s| ==> s[i] != s[j]
  }

  /** `order` lists every run that keeps something, once. */
  ghost predicate ReplayOrder(l: LogState, order: seq<RunId>) {
    Distinct(order) && forall r :: r in order <==> r in l.runs && l.runs[r].unacked != []
  }

  // ---------------------------------------------------------------- the log's invariant

  ghost predicate RunValid(r: RunId, rs: RunState, enabled: bool) {
    && Ascending(rs.unacked)
    && |rs.unacked| <= MAX_UNACKED
    && (!enabled ==> rs.unacked == [])
    && (forall e :: e in rs.unacked ==>
          e.run == r && e.exec == rs.exec && rs.ackedSeq < e.num <= rs.writtenSeq)
  }

  ghost predicate Valid(l: LogState) {
    forall r :: r in l.runs ==> RunValid(r, l.runs[r], l.enabled)
  }

  datatype Op =
    | OpSetEnabled(on: bool)
    | OpReset(r: RunId, newId: ExecId)
    | OpStamp(msg: Event, newId: ExecId)
    | OpWritten(e: Event, sent: bool)
    | OpAck(r: RunId, x: ExecId, n: nat)
    | OpGc(active: set<RunId>)

  ghost function Apply(l: LogState, op: Op, now: int): LogState {
    match op
    case OpSetEnabled(on) => SetEnabled(l, on)
    case OpReset(r, newId) => Reset(l, r, newId, now)
    case OpStamp(msg, newId) => Stamp(l, msg, newId, now)
    case OpWritten(e, sent) => Written(l, e, sent, now)
    case OpAck(r, x, n) => Ack(l, r, x, n, now)
    case OpGc(active) => Gc(l, active, now)
  }

  lemma WrittenRunValid(r: RunId, rs: RunState, e: Event, enabled: bool, sent: bool, now: int)
    requires RunValid(r, rs, enabled) && e.run == r && e.exec == rs.exec
    ensures RunValid(r, WrittenRun(rs, e, enabled, sent, now), enabled)
  {
    InsertedFacts(rs.unacked, e);
  }

  lemma StampValid(l: LogState, msg: Event, newId: ExecId, now: int)
    requires Valid(l)
    ensures Valid(Stamp(l, msg, newId, now))
  {
  }

  /** Every operation, with any arguments, keeps the log's invariant. */
  lemma ApplyKeepsValid(l: LogState, op: Op, now: int)
    requires Valid(l)
    ensures Valid(Apply(l, op, now))
  {
    match op
    case OpWritten(e, sent) =>
      if Names(l, e.run, e.exec) {
        WrittenRunValid(e.run, l.runs[e.run], e, l.enabled, sent, now);
      }
    case OpAck(r, x, n) =>
      if Names(l, r, x) {
        AboveFacts(l.runs[r].unacked, n);
      }
    case _ =>
  }

  /** An operation at a time. */
  datatype Call = Call(op: Op, now: int)

  /** The log after a history of operations, the last one last in `calls`. */
  ghost function LogAfter(l: LogState, calls: seq<Call>): LogState {
    if calls == [] then l
    else Apply(LogAfter(l, calls[..|calls| - 1]), calls[|calls| - 1].op, calls[|calls| - 1].now)
  }

  /** In every history of a new log, each run keeps an ascending, bounded list of events of its
      current execution, all written and none acknowledged, and nothing while acks are off. */
  lemma {:induction false} LogInvariant(calls: seq<Call>)
    ensures Valid(LogAfter(LogState(map[], false), calls))
  {
    if calls != [] {
      LogInvariant(calls[..|calls| - 1]);
      ApplyKeepsValid(LogAfter(LogState(map[], false), calls[..|calls| - 1]),
                      calls[|calls| - 1].op, calls[|calls| - 1].now);
    }
  }

  // ---------------------------------------------------------------- repeated and late writes

  /** How many kept events come after number `n`. */
  ghost function NewerCount(rs: RunState, n: nat): nat {
    |Above(rs.unacked, n)|
  }

  /** Recording a written event twice is recording it once, but for the one case where the bound
      drops the very event just inserted: the log is full, the event is not in it, and half the
      bound or more of kept events are newer. */
  lemma WrittenTwice(r: RunId, rs: RunState, e: Event, enabled: bool, sent: bool, now: int)
    requires RunValid(r, rs, enabled) && e.run == r && e.exec == rs.exec
    ensures
      var once := WrittenRun(rs, e, enabled, sent, now);
      WrittenRun(once, e, enabled, sent, now) == once <==>
      !(enabled && sent && e.num > rs.ackedSeq && |rs.unacked| == MAX_UNACKED &&
        !HasNum(rs.unacked, e.num) && NewerCount(rs, e.num) >= MAX_UNACKED / 2)
  {
    var s := rs.unacked;
    if enabled && sent && e.num > rs.ackedSeq && !HasNum(s, e.num) {
      InsertedFacts(s, e);
      if |s| == MAX_UNACKED {
        TrimmedInsertion(s, e);
        InsertedFacts(Trimmed(Inserted(s, e)), e);
      } else {
        assert e in Inserted(s, e);
      }
    }
  }

  /** A full log keeps the event just inserted exactly when less than half the bound is newer. */
  lemma TrimmedInsertion(s: seq<Event>, e: Event)
    requires Ascending(s) && !HasNum(s, e.num) && |s| == MAX_UNACKED
    ensures |Trimmed(Inserted(s, e))| == MAX_UNACKED / 2
    ensures Ascending(Trimmed(Inserted(s, e)))
    ensures HasNum(Trimmed(Inserted(s, e)), e.num) <==> |Above(s, e.num)| < MAX_UNACKED / 2
  {
    var i := InsertedAt(s, e);
    InsertedFacts(s, e);
    var t := Inserted(s, e);
    var cut := |t| - MAX_UNACKED / 2;
    var u := Trimmed(t);
    assert u == t[cut..];
    assert t[i] == e;
    if cut <= i {
      assert u[i - cut] == e;
      assert e in u;
    } else {
      forall x | x in u
        ensures x.num > e.num
      {
        var k :| 0 <= k < |u| && u[k] == x;
        assert x == t[k + cut];
      }
    }
  }

  // ---------------------------------------------------------------- executions are isolated

  /** The operation names an execution of run `r` other than `x`. */
  ghost predicate Foreign(op: Op, r: RunId, x: ExecId) {
    match op
    case OpStamp(msg, _) => msg.run == r && msg.exec != NO_EXEC && msg.exec != x
    case OpWritten(e, _) => e.run == r && e.exec != x
    case OpAck(r', x', _) => r' == r && x' != x
    case _ => false
  }

  /** The operation ends the current execution of run `r`. */
  ghost predicate Ends(l: LogState, op: Op, r: RunId, now: int) {
    (op.OpReset? && op.r == r) ||
    (op.OpGc? && r in l.runs && Idle(l.runs[r], r, op.active, now))
  }

  ghost function WithoutForeign(calls: seq<Call>, r: RunId, x: ExecId): seq<Call> {
    if calls == [] then []
    else
      var last := calls[|calls| - 1];
      WithoutForeign(calls[..|calls| - 1], r, x) + (if Foreign(last.op, r, x) then [] else [last])
  }

  /** No call of the history ends the execution of `r`. */
  ghost predicate Continues(l: LogState, calls: seq<Call>, r: RunId) {
    calls == [] ||
    (Continues(l, calls[..|calls| - 1], r) &&
     !Ends(LogAfter(l, calls[..|calls| - 1]), calls[|calls| - 1].op, r, calls[|calls| - 1].now))
  }

  /** What one call makes of run `r` depends on that run's own entry and on `enabled` only. */
  lemma SameEntry(l: LogState, m: LogState, op: Op, now: int, r: RunId, x: ExecId)
    requires Names(l, r, x) && Names(m, r, x) && l.runs[r] == m.runs[r] && l.enabled == m.enabled
    requires !Ends(l, op, r, now)
    ensures Names(Apply(l, op, now), r, x)
    ensures Apply(l, op, now).enabled == Apply(m, op, now).enabled
    ensures Names(Apply(m, op, now), r, x) && Apply(l, op, now).runs[r] == Apply(m, op, now).runs[r]
  {
  }

  /** A call that names another execution of the run changes nothing of the current one. */
  lemma ForeignChangesNothing(l: LogState, op: Op, now: int, r: RunId, x: ExecId)
    requires Names(l, r, x) && Foreign(op, r, x)
    ensures Apply(l, op, now) == l
    ensures op.OpStamp? ==> Refused(l, op.msg)
    ensures op.OpWritten? ==> !Kept(l, op.e)
    ensures op.OpAck? ==> !AckWanted(l, r, op.x, op.n)
  {
  }

  /** Events and acks of other executions leave no trace: as long as an execution lasts, the run's
      log is the one that the history without them produces. */
  lemma {:induction false} ExecutionIsolation(l: LogState, calls: seq<Call>, r: RunId, x: ExecId)
    requires Names(l, r, x) && Continues(l, calls, r)
    ensures Names(LogAfter(l, calls), r, x)
    ensures
      var clean := LogAfter(l, WithoutForeign(calls, r, x));
      Names(clean, r, x) && clean.enabled == LogAfter(l, calls).enabled &&
      clean.runs[r] == LogAfter(l, calls).runs[r]
  {
    if calls != [] {
      var init, last := calls[..|calls| - 1], calls[|calls| - 1];
      ExecutionIsolation(l, init, r, x);
      var rest := WithoutForeign(init, r, x);
      if Foreign(last.op, r, x) {
        ForeignChangesNothing(LogAfter(l, init), last.op, last.now, r, x);
        assert WithoutForeign(calls, r, x) == rest;
      } else {
        SameEntry(LogAfter(l, init), LogAfter(l, rest), last.op, last.now, r, x);
        assert WithoutForeign(calls, r, x)[..|rest|] == rest;
      }
    }
  }
}
