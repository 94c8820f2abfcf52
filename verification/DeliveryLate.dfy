/**
 A history of the delivery log in which recording a written event twice is not recording it once: its
 first event is written last, after the log has filled up with later ones. One write loop never does
 that (PipelineTheorems.OneLoopRecordsOnce); a loop that is dying while the next one runs can.
 */
module DeliveryLate {
  import opened DeliverySpec

  const RUN: RunId := 1
  const EXEC: ExecId := 7

  function Numbered(n: nat): Event {
    Event(RUN, EXEC, n, 0)
  }

  /** The events numbered 2 to `n + 1`. */
  ghost function Later(n: nat): seq<Event> {
    if n == 0 then [] else Later(n - 1) + [Numbered(n + 1)]
  }

  /** Acks are on and the first event is numbered; then `n` more are numbered and written. */
  ghost function Filling(n: nat): seq<Call> {
    if n == 0 then [Call(OpSetEnabled(true), 0), Call(OpStamp(Event(RUN, 0, 0, 0), EXEC), 0)]
    else Filling(n - 1) + [Call(OpStamp(Event(RUN, EXEC, 0, 0), 0), 0), Call(OpWritten(Numbered(n + 1), true), 0)]
  }

  ghost function Filled(n: nat): LogState {
    LogState(map[RUN := RunState(EXEC, n + 1, if n == 0 then 0 else n + 1, 0, Later(n), 0, false)], true)
  }

  lemma {:induction false} LaterFacts(n: nat)
    ensures |Later(n)| == n && forall i :: 0 <= i < n ==> Later(n)[i] == Numbered(i + 2)
  {
    if n > 0 {
      LaterFacts(n - 1);
    }
  }

  lemma AppendLast(n: nat)
    requires n > 0
    ensures Inserted(Later(n - 1), Numbered(n + 1)) == Later(n)
  {
    LaterFacts(n - 1);
    var s, e := Later(n - 1), Numbered(n + 1);
    assert !HasNum(s, e.num);
    BelowSlice(s, e.num, |s|);
    AboveSlice(s, e.num, |s|);
  }

  lemma TwoCalls(l: LogState, calls: seq<Call>, a: Call, b: Call)
    ensures
      LogAfter(l, calls + [a, b]) == Apply(Apply(LogAfter(l, calls), a.op, a.now), b.op, b.now)
  {
    var all := calls + [a, b];
    assert all[..|all| - 1] == calls + [a];
    assert (calls + [a])[..|calls|] == calls;
  }

  lemma FillStart()
    ensures LogAfter(LogState(map[], false), Filling(0)) == Filled(0)
  {
    var a, b := Call(OpSetEnabled(true), 0), Call(OpStamp(Event(RUN, 0, 0, 0), EXEC), 0);
    assert [] + [a, b] == [a, b];
    TwoCalls(LogState(map[], false), [], a, b);
    assert Stamp(LogState(map[], true), b.op.msg, EXEC, 0).runs == Filled(0).runs;
  }

  lemma MoreCalls(l: LogState, n: nat)
    requires n > 0
    ensures
      LogAfter(l, Filling(n)) ==
      Apply(Apply(LogAfter(l, Filling(n - 1)), OpStamp(Event(RUN, EXEC, 0, 0), 0), 0),
            OpWritten(Numbered(n + 1), true), 0)
  {
    TwoCalls(l, Filling(n - 1), Call(OpStamp(Event(RUN, EXEC, 0, 0), 0), 0), Call(OpWritten(Numbered(n + 1), true), 0));
  }

  lemma {:induction false} FillingFills(n: nat)
    requires n <= MAX_UNACKED
    ensures LogAfter(LogState(map[], false), Filling(n)) == Filled(n)
  {
    if n == 0 {
      FillStart();
    } else {
      FillingFills(n - 1);
      MoreCalls(LogState(map[], false), n);
      FillStep(n, LogAfter(LogState(map[], false), Filling(n - 1)));
    }
  }

  lemma FillStep(n: nat, l: LogState)
    requires 0 < n <= MAX_UNACKED && l == Filled(n - 1)
    ensures
      Apply(Apply(l, OpStamp(Event(RUN, EXEC, 0, 0), 0), 0), OpWritten(Numbered(n + 1), true), 0) ==
      Filled(n)
  {
    AppendLast(n);
    LaterFacts(n);
  }

  lemma FilledIsFull(n: nat)
    requires n == MAX_UNACKED
    ensures
      var rs := Filled(n).runs[RUN];
      && Ascending(rs.unacked) && |rs.unacked| == MAX_UNACKED && !HasNum(rs.unacked, 1)
      && NewerCount(rs, 1) == MAX_UNACKED
  {
    LaterFacts(n);
    AboveSlice(Later(n), 1, 0);
  }

  /** The first event arrives late at a full log: one record of it does not stay in the log, a second one does. */
  lemma LateWriteForgotten(n: nat) returns (calls: seq<Call>, e: Event, rs: RunState)
    requires n == MAX_UNACKED
    ensures
      var l := LogAfter(LogState(map[], false), calls);
      && e.run in l.runs && l.runs[e.run] == rs && e.exec == rs.exec && l.enabled && RunValid(e.run, rs, true)
      && 0 < e.num <= rs.nextSeq && e.num > rs.ackedSeq && |rs.unacked| == MAX_UNACKED
      && !HasNum(rs.unacked, e.num) && NewerCount(rs, e.num) >= MAX_UNACKED / 2
    ensures
      var once := WrittenRun(rs, e, true, true, 0);
      !HasNum(once.unacked, e.num) && WrittenRun(once, e, true, true, 0) != once
  {
    calls, e, rs := Filling(n), Numbered(1), Filled(n).runs[RUN];
    FillingFills(n);
    LogInvariant(calls);
    FilledIsFull(n);
    LateTwice(rs, e);
  }

  lemma LateTwice(rs: RunState, e: Event)
    requires RunValid(e.run, rs, true) && e.exec == rs.exec && e.num > rs.ackedSeq && |rs.unacked| == MAX_UNACKED
    requires !HasNum(rs.unacked, e.num) && NewerCount(rs, e.num) >= MAX_UNACKED / 2
    ensures
      var once := WrittenRun(rs, e, true, true, 0);
      !HasNum(once.unacked, e.num) && WrittenRun(once, e, true, true, 0) != once
  {
    WrittenTwice(e.run, rs, e, true, true, 0);
    InsertedFacts(rs.unacked, e);
    TrimmedInsertion(rs.unacked, e);
  }
}
