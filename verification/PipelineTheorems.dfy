/**
 What the delivery protocol promises, for every run of the agent: nothing is lost, each execution's
 events go out in order and once, the tail is asked about, and an idle agent has delivered everything.
 Each claim about a run is about its current execution, as long as the run's log has not been
 discarded meanwhile; the examples at the end show what happens otherwise.
 */
module PipelineTheorems {
  import opened DeliverySpec
  import opened Options
  import opened Pipeline
  import opened PipelineView
  import opened PipelineInvariant

  ghost function Exec(s: State, r: RunId): ExecId
    requires r in s.log.runs
  {
    s.log.runs[r].exec
  }

  /** The events of the run's current execution on their way to a first successful write. */
  ghost function Unwritten(s: State, r: RunId): seq<Event>
    requires r in s.log.runs
  {
    Pick(Line(s), r, Exec(s, r))
  }

  lemma UnwrittenIsLine(s: State, r: RunId)
    requires r in s.log.runs
    ensures Unwritten(s, r) == LineOf(ViewOf(s, r))
  {
    PickAppend(HandOf(s, FromQueue) + Evs(s.carry), Back(s), r, Exec(s, r));
    assert Line(s) == HandOf(s, FromQueue) + Evs(s.carry) + Back(s);
  }

  lemma LineFacts(v: View)
    requires Numbered(v) && LineOk(v) && SkippedOk(v)
    ensures Gone(v) == v.rs.nextSeq - |LineOf(v)| && v.rs.writtenSeq <= Gone(v)
    ensures forall i :: 0 <= i < |LineOf(v)| ==> LineOf(v)[i].num == Gone(v) + i + 1
    ensures Gone(v) == v.rs.writtenSeq || Gone(v) <= v.rs.ackedSeq
  {
    assert forall i :: 0 <= i < |LineOf(v)| ==> LineOf(v)[i] == v.iss[Gone(v) + i];
  }

  /** The unwritten events, front to back, are the last ones numbered, without a gap. They start right
      after the last one recorded as written, or after events that were all acknowledged. */
  lemma UnwrittenInOrder(acts: seq<Action>, r: RunId)
    requires StateAfter(acts).Some? && Live(StateAfter(acts).value, r)
    ensures
      var s := StateAfter(acts).value;
      var rs, line := s.log.runs[r], Unwritten(s, r);
      var gone := rs.nextSeq - |line|;
      && rs.writtenSeq <= gone
      && (forall i :: 0 <= i < |line| ==> line[i].num == gone + i + 1)
      && (gone == rs.writtenSeq || gone <= rs.ackedSeq)
  {
    Reachable(acts);
    UnwrittenIsLine(StateAfter(acts).value, r);
    LineFacts(ViewOf(StateAfter(acts).value, r));
  }

  lemma SkippedIsGone(s: State, r: RunId, e: Event)
    requires r in s.log.runs && ViewInv(ViewOf(s, r)) && e in s.skipped && e in s.issued
    requires Of(e, r, s.log.runs[r].exec) && e.num > s.log.runs[r].writtenSeq
    ensures s.log.runs[r].writtenSeq < Gone(ViewOf(s, r))
  {
    var v := ViewOf(s, r);
    PickMember(s.issued, r, v.rs.exec);
    assert e in v.iss;
    var k :| 0 <= k < |v.iss| && v.iss[k] == e;
  }

  /** They are exactly the events after the last one written, but for a queued event whose ack came
      before its write failed: the write loop lets that one go without recording it. */
  lemma UnwrittenExactly(acts: seq<Action>, r: RunId)
    requires StateAfter(acts).Some? && Live(StateAfter(acts).value, r)
    ensures
      var s := StateAfter(acts).value;
      var rs := s.log.runs[r];
      |Unwritten(s, r)| == rs.nextSeq - rs.writtenSeq <==>
      !exists e :: e in s.skipped && Of(e, r, rs.exec) && e.num > rs.writtenSeq
  {
    var s := StateAfter(acts).value;
    Reachable(acts);
    UnwrittenIsLine(s, r);
    var v := ViewOf(s, r);
    if v.rs.writtenSeq < Gone(v) {
      PickMember(s.issued, r, v.rs.exec);
      var e := v.iss[v.rs.writtenSeq];
      assert e in v.iss && e in s.skipped;
    }
    forall e | e in s.skipped && Of(e, r, v.rs.exec) && e.num > v.rs.writtenSeq
      ensures v.rs.writtenSeq < Gone(v)
    {
      SkippedIsGone(s, r, e);
    }
  }

  /** No event of a live execution was given up on because the resend buffer was full. */
  ghost predicate NoLiveOverflow(s: State) {
    forall r, e :: Live(s, r) && e in s.overflowed ==> !Of(e, r, Exec(s, r))
  }

  lemma {:induction false} NothingLiveOverflows(acts: seq<Action>)
    requires StateAfter(acts).Some?
    ensures NoLiveOverflow(StateAfter(acts).value)
  {
    if acts != [] {
      var before, a := acts[..|acts| - 1], acts[|acts| - 1];
      NothingLiveOverflows(before);
      Reachable(before);
      NoLiveOverflowKept(StateAfter(before).value, a);
    }
  }

  lemma NoLiveOverflowKept(s: State, a: Action)
    requires Inv(s) && Can(s, a) && NoLiveOverflow(s)
    ensures NoLiveOverflow(Do(s, a))
  {
    var t := Do(s, a);
    forall r, e | Live(t, r) && e in t.overflowed
      ensures !Of(e, r, Exec(t, r))
    {
      if Of(e, r, Exec(t, r)) {
        OverflowStep(s, a, r, e);
      }
    }
  }

  lemma OverflowStep(s: State, a: Action, r: RunId, e: Event)
    requires Inv(s) && Can(s, a) && Live(Do(s, a), r) && Of(e, r, Exec(Do(s, a), r))
    requires e in Do(s, a).overflowed
    ensures e in s.overflowed && Live(s, r) && Exec(s, r) == e.exec
  {
    if Restarts(s, a, r) {
      OverflowedBefore(s, a);
      NoneOfNewRun(s, a, r, e);
    } else {
      StillLive(s, a, r);
      OverflowedFrom(s, a, r, e);
    }
  }

  lemma OverflowedFrom(s: State, a: Action, r: RunId, e: Event)
    requires Inv(s) && Can(s, a) && Live(s, r) && Of(e, r, Exec(s, r)) && e in Do(s, a).overflowed
    ensures e in s.overflowed
  {
    if !a.WriteFail? {
      OverflowedBefore(s, a);
    } else if e !in s.overflowed {
      FailCases(s);
      FullCarryIsForeign(s, r, e);
    }
  }

  /** The run gets a new log. */
  ghost predicate Restarts(s: State, a: Action, r: RunId) {
    (a.Dispatch? && a.r == r) || (a.Number? && a.msg.run == r && r !in s.log.runs)
  }

  lemma OverflowedBefore(s: State, a: Action)
    requires Can(s, a) && !a.WriteFail?
    ensures Do(s, a).overflowed == s.overflowed
  {
  }

  /** No event of a run's new execution was numbered before. */
  lemma NoneOfNewRun(s: State, a: Action, r: RunId, e: Event)
    requires Executions(s) && Can(s, a) && Restarts(s, a, r) && Live(Do(s, a), r) && e in s.issued
    ensures !Of(e, r, Exec(Do(s, a), r))
  {
    assert (e.run, e.exec) in s.used;
  }

  /** With coordinators that acknowledge, an event numbered and not acknowledged is unwritten or kept,
      unless it was given up on as unsendable or dropped by the per-run bound. */
  lemma NoLoss(acts: seq<Action>, r: RunId, e: Event)
    requires StateAfter(acts).Some? && Live(StateAfter(acts).value, r) && StateAfter(acts).value.alwaysAck
    requires
      var s := StateAfter(acts).value;
      e in s.issued && Of(e, r, Exec(s, r)) && e.num > s.log.runs[r].ackedSeq
    ensures
      var s := StateAfter(acts).value;
      e in Unwritten(s, r) || e in s.log.runs[r].unacked || e in s.unsendable || e in s.trimmed
  {
    var s := StateAfter(acts).value;
    Reachable(acts);
    UnwrittenIsLine(s, r);
    PickMember(s.issued, r, Exec(s, r));
    NoneLost(ViewOf(s, r), e);
  }

  lemma NoneLost(v: View, e: Event)
    requires Numbered(v) && LineOk(v) && LossOk(v) && v.alwaysAck && e in v.iss && e.num > v.rs.ackedSeq
    ensures e in LineOf(v) || e in v.rs.unacked || e in v.unsendable || e in v.trimmed
  {
    var k :| 0 <= k < |v.iss| && v.iss[k] == e;
    if k >= Gone(v) {
      assert LineOf(v)[k - Gone(v)] == e;
    } else {
      assert k < v.rs.writtenSeq;
    }
  }

  /** On one connection the numbers written of an execution (its replay, then what an earlier
      connection left, then the queue) strictly increase. */
  lemma WireIncreases(acts: seq<Action>, r: RunId)
    requires StateAfter(acts).Some? && Live(StateAfter(acts).value, r)
    ensures Ascending(Pick(StateAfter(acts).value.wire, r, Exec(StateAfter(acts).value, r)))
  {
    Reachable(acts);
    var v := ViewOf(StateAfter(acts).value, r);
    AscendingStart(v.wire, v.replay);
  }

  lemma AscendingStart(a: seq<Event>, b: seq<Event>)
    requires Ascending(a + b)
    ensures Ascending(a)
  {
    assert forall i :: 0 <= i < |a| ==> (a + b)[i] == a[i];
  }

  lemma {:induction false} PickKeepsOrder(s: seq<Event>, r: RunId, x: ExecId, i: nat, j: nat)
    requires i < j < |s| && Of(s[i], r, x) && Of(s[j], r, x) && Ascending(Pick(s, r, x))
    ensures s[i].num < s[j].num
  {
    var rest := s[1..];
    if i == 0 {
      assert s[j] == rest[j - 1];
      PickMember(rest, r, x);
      assert s[j] in Pick(rest, r, x);
      var k :| 0 <= k < |Pick(rest, r, x)| && Pick(rest, r, x)[k] == s[j];
      assert Pick(s, r, x) == [s[0]] + Pick(rest, r, x);
      assert Pick(s, r, x)[0] == s[0] && Pick(s, r, x)[k + 1] == s[j];
    } else {
      var skip := if Of(s[0], r, x) then 1 else 0;
      assert Pick(rest, r, x) == Pick(s, r, x)[skip..];
      PickKeepsOrder(rest, r, x, i - 1, j - 1);
    }
  }

  /** The numbers given in an execution increase with time, so no two of its events share one. */
  lemma NumbersAreUnique(acts: seq<Action>, r: RunId, i: nat, j: nat)
    requires StateAfter(acts).Some? && Live(StateAfter(acts).value, r)
    requires
      var s := StateAfter(acts).value;
      i < j < |s.issued| && Of(s.issued[i], r, Exec(s, r)) && Of(s.issued[j], r, Exec(s, r))
    ensures StateAfter(acts).value.issued[i].num < StateAfter(acts).value.issued[j].num
  {
    var s := StateAfter(acts).value;
    Reachable(acts);
    assert Numbered(ViewOf(s, r));
    PickKeepsOrder(s.issued, r, Exec(s, r), i, j);
  }

  /** The log and the queue never hold the same event. */
  lemma LogAndQueueApart(acts: seq<Action>, r: RunId, e: Event)
    requires StateAfter(acts).Some? && Live(StateAfter(acts).value, r)
    requires e in Unwritten(StateAfter(acts).value, r)
    ensures e !in StateAfter(acts).value.log.runs[r].unacked
  {
    Reachable(acts);
    UnwrittenIsLine(StateAfter(acts).value, r);
    LineNotKept(ViewOf(StateAfter(acts).value, r), e);
  }

  lemma LineNotKept(v: View, e: Event)
    requires Numbered(v) && LineOk(v) && LogOk(v) && e in LineOf(v)
    ensures e !in v.rs.unacked
  {
    var k :| 0 <= k < |LineOf(v)| && LineOf(v)[k] == e;
    assert e == v.iss[Gone(v) + k];
  }

  /** What a write loop records it records for good: with one loop at a time, no written event is dropped
      by the bound as it is inserted, so recording it again would change nothing. */
  lemma OneLoopRecordsOnce(acts: seq<Action>, r: RunId, e: Event)
    requires StateAfter(acts).Some? && Live(StateAfter(acts).value, r) && Can(StateAfter(acts).value, Record)
    requires
      var s := StateAfter(acts).value;
      s.loop.hand.msg == Ev(e) && Of(e, r, Exec(s, r))
    ensures
      var s := StateAfter(acts).value;
      var once := WrittenRun(s.log.runs[r], e, s.log.enabled, true, s.clock);
      WrittenRun(once, e, s.log.enabled, true, s.clock) == once
  {
    Reachable(acts);
    RecordedIsNewest(StateAfter(acts).value, r, e);
    var s := StateAfter(acts).value;
    assert RunValid(r, s.log.runs[r], s.log.enabled);
    WrittenTwice(r, s.log.runs[r], e, s.log.enabled, true, s.clock);
  }

  /** The event being recorded is kept, or acknowledged, or newer than everything kept. */
  lemma RecordedIsNewest(s: State, r: RunId, e: Event)
    requires Inv(s) && Live(s, r) && Can(s, Record) && s.loop.hand.msg == Ev(e) && Of(e, r, Exec(s, r))
    ensures
      var rs := s.log.runs[r];
      e.num <= rs.ackedSeq || HasNum(rs.unacked, e.num) || NewerCount(rs, e.num) == 0
  {
    if s.loop.hand.src.FromQueue? {
      HandIsFront(s, r, e);
      FrontIsNewest(ViewOf(s, r), e);
    } else {
      ReplayedIsKept(s, r, e);
    }
  }

  lemma FrontIsNewest(v: View, e: Event)
    requires ViewInv(v) && v.front == [e]
    ensures NewerCount(v.rs, e.num) == 0
  {
    HeadOfLine(v, e);
    NoneAbove(v.rs.unacked, e.num);
  }

  lemma ReplayedIsKept(s: State, r: RunId, e: Event)
    requires r in s.log.runs && ViewInv(ViewOf(s, r)) && HandOf(s, FromReplay) == [e] && Of(e, r, Exec(s, r))
    ensures e.num <= s.log.runs[r].ackedSeq || HasNum(s.log.runs[r].unacked, e.num)
  {
    var v := ViewOf(s, r);
    assert Pick([e], r, Exec(s, r)) == [e];
    PickAppend([e], Todo(s), r, Exec(s, r));
    assert e in v.replayAll;
    assert KeptOrAcked(v, e);
  }

  lemma NoneAbove(s: seq<Event>, n: nat)
    requires Ascending(s) && forall e :: e in s ==> e.num <= n
    ensures Above(s, n) == []
  {
    AboveFacts(s, n);
    HasMember(Above(s, n));
  }

  // ---------------------------------------------------------------- asking for acks

  /** An event written on the connection and still kept has its run waiting to be asked about, or an
      ack request that covers it was written, or is being written. */
  lemma TailIsAskedFor(acts: seq<Action>, r: RunId, e: Event)
    requires StateAfter(acts).Some? && Live(StateAfter(acts).value, r) && StateAfter(acts).value.loop.Up?
    requires
      var s := StateAfter(acts).value;
      e in Recorded(s) && Of(e, r, Exec(s, r)) && e in s.log.runs[r].unacked
    ensures
      var s := StateAfter(acts).value;
      r in s.loop.lastWrite ||
      exists m :: m in Asks(s) && m.AskAck? && m.run == r && m.exec == e.exec && m.num >= e.num
  {
    var s := StateAfter(acts).value;
    Reachable(acts);
    var v := ViewOf(s, r);
    PickMember(Recorded(s), r, Exec(s, r));
    assert e in v.recorded;
    assert v.waiting || Covered(v, e);
  }

  ghost function Due(loop: Loop, r: RunId): int
    requires loop.Up? && r in loop.lastWrite
  {
    loop.lastWrite[r] + ACK_DELAY
  }

  /** No mark of a waiting run lies in the future. */
  ghost predicate MarksPast(s: State) {
    s.loop.Up? ==> forall r :: r in s.loop.lastWrite ==> s.loop.lastWrite[r] <= s.clock
  }

  /** The ack timer runs whenever a run waits, and ends no later than any waiting run is due. */
  ghost predicate TimerOk(s: State) {
    MarksPast(s) && (s.loop.Up? ==>
      match s.loop.ask
      case NotAsking =>
        && (s.loop.timer.Some? ==> s.loop.timer.value <= s.clock + ACK_DELAY)
        && forall r :: r in s.loop.lastWrite ==>
             s.loop.timer.Some? && s.loop.timer.value <= Due(s.loop, r)
      case Asking(now, rest, nextDue) =>
        && now == s.clock && s.loop.timer.None? && nextDue <= ACK_DELAY
        && forall r :: r in s.loop.lastWrite && r !in rest ==>
             nextDue > 0 && now + nextDue <= Due(s.loop, r))
  }

  lemma MarksStayPast(s: State, a: Action)
    requires TimerOk(s) && LoopOk(s) && Can(s, a)
    ensures MarksPast(Do(s, a))
  {
  }

  lemma RecordKeepsTimer(s: State)
    requires TimerOk(s) && LoopOk(s) && Can(s, Record)
    ensures TimerOk(Do(s, Record))
  {
  }

  lemma AskKeepsTimer(s: State, r: RunId)
    requires TimerOk(s) && LoopOk(s) && Can(s, AskRun(r))
    ensures TimerOk(Do(s, AskRun(r)))
  {
  }

  lemma OtherKeepsTimer(s: State, a: Action)
    requires TimerOk(s) && LoopOk(s) && Can(s, a) && !a.Record? && !a.AskRun?
    ensures TimerOk(Do(s, a))
  {
    MarksStayPast(s, a);
    if !a.FireTimer? && !a.AskDone? && !a.Tick? {
      TimerAlone(s, a);
    }
  }

  lemma TimerAlone(s: State, a: Action)
    requires LoopOk(s) && Can(s, a) && !a.Record? && !a.AskRun? && !a.FireTimer? && !a.AskDone? && !a.Tick?
    ensures
      var t := Do(s, a);
      t.clock == s.clock &&
      (t.loop.Up? ==>
         if s.loop.Up? then
           t.loop.ask == s.loop.ask && t.loop.timer == s.loop.timer && t.loop.lastWrite == s.loop.lastWrite
         else t.loop.ask.NotAsking? && t.loop.timer.None? && t.loop.lastWrite == map[])
  {
  }

  lemma StepKeepsTimer(s: State, a: Action)
    requires TimerOk(s) && LoopOk(s) && Can(s, a)
    ensures TimerOk(Do(s, a))
  {
    MarksStayPast(s, a);
    if a.Record? {
      RecordKeepsTimer(s);
    } else if a.AskRun? {
      AskKeepsTimer(s, a.r);
    } else {
      OtherKeepsTimer(s, a);
    }
  }

  /** A run that keeps streaming does not hold back the tail of another one. */
  lemma {:induction false} TimerCoversWaiting(acts: seq<Action>)
    requires StateAfter(acts).Some?
    ensures TimerOk(StateAfter(acts).value)
  {
    if acts != [] {
      var before := acts[..|acts| - 1];
      TimerCoversWaiting(before);
      Reachable(before);
      StepKeepsTimer(StateAfter(before).value, acts[|acts| - 1]);
    }
  }

  // ---------------------------------------------------------------- an idle agent

  /** unwrittenOutput of the session: something is queued, being sent or carried over, or numbered
      and not recorded as written. */
  ghost predicate UnwrittenOutput(s: State) {
    || s.items != [] || s.replies != [] || s.pump.Some? || s.outChan != []
    || (s.loop.Up? && s.loop.hand.Holding? && !s.loop.hand.stage.Taken?)
    || s.carry != [] || AnyQueued(s.log)
  }

  ghost predicate PendingOutput(s: State) {
    UnwrittenOutput(s) || exists r :: r in s.log.runs && Undelivered(s.log.runs[r])
  }

  /** Every event still on its way makes its run undelivered: the run is claimed on a reconnect. */
  lemma OnTheirWayAreClaimed(acts: seq<Action>, r: RunId)
    requires StateAfter(acts).Some? && Live(StateAfter(acts).value, r)
    requires
      var s := StateAfter(acts).value;
      Unwritten(s, r) != [] || s.log.runs[r].unacked != []
    ensures Undelivered(StateAfter(acts).value.log.runs[r])
    ensures PendingOutput(StateAfter(acts).value)
    ensures Unwritten(StateAfter(acts).value, r) != [] ==> UnwrittenOutput(StateAfter(acts).value)
  {
    UnwrittenInOrder(acts, r);
  }

  /** And a run is undelivered only then, or when a queued event was let go because its ack came first. */
  lemma UndeliveredExactly(acts: seq<Action>, r: RunId)
    requires StateAfter(acts).Some? && Live(StateAfter(acts).value, r)
    ensures
      var s := StateAfter(acts).value;
      var rs := s.log.runs[r];
      Undelivered(rs) <==>
      Unwritten(s, r) != [] || rs.unacked != [] ||
      exists e :: e in s.skipped && Of(e, r, rs.exec) && e.num > rs.writtenSeq
  {
    UnwrittenInOrder(acts, r);
    UnwrittenExactly(acts, r);
  }

  /** When nothing is pending, every event numbered was acknowledged, given up on or dropped by the
      per-run bound. */
  lemma NothingPendingNothingLost(acts: seq<Action>, r: RunId, e: Event)
    requires StateAfter(acts).Some? && Live(StateAfter(acts).value, r) && StateAfter(acts).value.alwaysAck
    requires !PendingOutput(StateAfter(acts).value)
    requires e in StateAfter(acts).value.issued && Of(e, r, Exec(StateAfter(acts).value, r))
    ensures
      var s := StateAfter(acts).value;
      e.num <= s.log.runs[r].ackedSeq || e in s.unsendable || e in s.trimmed
  {
    var s := StateAfter(acts).value;
    if e.num > s.log.runs[r].ackedSeq {
      NoLoss(acts, r, e);
      if Unwritten(s, r) != [] {
        OnTheirWayAreClaimed(acts, r);
      }
    }
  }

  // ---------------------------------------------------------------- where the promises end

  lemma Then(acts: seq<Action>, s: State, a: Action)
    requires StateAfter(acts) == Some(s) && Can(s, a)
    ensures StateAfter(acts + [a]) == Some(Do(s, a))
  {
    assert (acts + [a])[..|acts|] == acts;
  }

  /** A first connection is up, and run 1 has its first event, in execution 7. */
  lemma FirstEventNumbered() returns (acts: seq<Action>, s: State)
    ensures StateAfter(acts) == Some(s)
    ensures
      var e := Event(1, 7, 1, 0);
      s == Init().(
        log := LogState(map[1 := RunState(7, 1, 0, 0, [], 0, false)], true),
        used := {(1, 7)}, issued := [e], sender := Some(e), loop := Up([], Empty, map[], map[], None, NotAsking))
  {
    acts, s := [], Init();
    Then(acts, s, Connect(true));
    acts, s := acts + [Connect(true)], Do(s, Connect(true));
    assert Replay(s.log, []) == [];
    Then(acts, s, StartLoop([]));
    acts, s := acts + [StartLoop([])], Do(s, StartLoop([]));
    var number := Number(Event(1, NO_EXEC, 0, 0), 7);
    Then(acts, s, number);
    acts, s := acts + [number], Do(s, number);
    assert s.log.runs == map[1 := RunState(7, 1, 0, 0, [], 0, false)];
  }

  /** The event is in the write loop's hand. */
  lemma FirstEventSent() returns (acts: seq<Action>, s: State)
    ensures StateAfter(acts) == Some(s)
    ensures
      var e := Event(1, 7, 1, 0);
      s == Init().(
        log := LogState(map[1 := RunState(7, 1, 0, 0, [], 0, false)], true),
        used := {(1, 7)}, issued := [e],
        loop := Up([], Holding(Ev(e), FromQueue, Sending), map[], map[], None, NotAsking))
  {
    acts, s := FirstEventNumbered();
    Then(acts, s, Push);
    acts, s := acts + [Push], Do(s, Push);
    Then(acts, s, PumpTake);
    acts, s := acts + [PumpTake], Do(s, PumpTake);
    Then(acts, s, PumpSend);
    acts, s := acts + [PumpSend], Do(s, PumpSend);
    Then(acts, s, TakeNext);
    acts, s := acts + [TakeNext], Do(s, TakeNext);
    Then(acts, s, BeginSend);
    acts, s := acts + [BeginSend], Do(s, BeginSend);
  }

  /** An event whose ack arrives before its write is reported to have failed is let go unrecorded:
      everything is acknowledged and nothing is on its way, yet the run counts as having output queued,
      and an idle agent waits for it. */
  lemma AckedFailureStaysQueued() returns (acts: seq<Action>, s: State)
    ensures StateAfter(acts) == Some(s) && Live(s, 1)
    ensures Unwritten(s, 1) == [] && s.log.runs[1].unacked == [] && !s.loop.Up?
    ensures s.items == [] && s.outChan == [] && s.carry == [] && s.pump.None? && s.sender.None?
    ensures forall e :: e in s.issued ==> e.num <= s.log.runs[1].ackedSeq
    ensures UnwrittenOutput(s) && Stuck(s, 1)
  {
    acts, s := FirstEventSent();
    var ack := AckArrives(1, 7, 1);
    Then(acts, s, ack);
    acts, s := acts + [ack], Do(s, ack);
    assert s.log.runs[1].ackedSeq == 1;
    Then(acts, s, WriteFail);
    acts, s := acts + [WriteFail], Do(s, WriteFail);
    assert s.log.runs[1].writtenSeq < s.log.runs[1].nextSeq;
    assert Line(s) == [];
  }

  /** The last event numbered of the run was let go without being recorded as written. */
  ghost predicate Stuck(s: State, r: RunId) {
    && Live(s, r) && s.log.runs[r].writtenSeq < s.log.runs[r].nextSeq
    && exists e :: e in s.skipped && Of(e, r, Exec(s, r)) && e.num == s.log.runs[r].nextSeq
  }

  /** No new event and no new dispatch of the run. */
  ghost predicate LeavesAlone(a: Action, r: RunId) {
    !(a.Dispatch? && a.r == r) && !(a.Number? && a.msg.run == r)
  }

  /** Then nothing of it is on its way. */
  lemma StuckLine(s: State, r: RunId)
    requires Inv(s) && Stuck(s, r)
    ensures Gone(ViewOf(s, r)) == s.log.runs[r].nextSeq && LineOf(ViewOf(s, r)) == []
  {
    var v := ViewOf(s, r);
    var e :| e in s.skipped && Of(e, r, Exec(s, r)) && e.num == v.rs.nextSeq;
    PickMember(s.issued, r, v.rs.exec);
    var k :| 0 <= k < |v.iss| && v.iss[k] == e;
  }

  /** Nothing the write loop can have in its hand advances the run. */
  lemma StuckHand(s: State, r: RunId, e: Event)
    requires Inv(s) && Stuck(s, r) && s.loop.Up? && s.loop.hand.Holding? && s.loop.hand.msg == Ev(e)
    requires Of(e, r, Exec(s, r))
    ensures e.num <= s.log.runs[r].writtenSeq
  {
    StuckLine(s, r);
    var x := Exec(s, r);
    assert Pick([e], r, x) == [e];
    PickAppend([e], Evs(s.carry), r, x);
    PickAppend([e], Todo(s), r, x);
    assert s.loop.hand.src.FromReplay? ==> e in ViewOf(s, r).replayAll;
  }

  /** An operation that neither restarts the run nor numbers or records anything new of it. */
  lemma OpLeavesRun(l: LogState, op: Op, now: int, r: RunId)
    requires r in l.runs && l.runs[r].writtenSeq < l.runs[r].nextSeq
    requires !(op.OpReset? && op.r == r) && !(op.OpStamp? && op.msg.run == r)
    requires op.OpWritten? && Of(op.e, r, l.runs[r].exec) ==> op.e.num <= l.runs[r].writtenSeq
    ensures
      var m := Apply(l, op, now);
      && r in m.runs && m.runs[r].exec == l.runs[r].exec
      && m.runs[r].writtenSeq == l.runs[r].writtenSeq && m.runs[r].nextSeq == l.runs[r].nextSeq
  {
  }

  lemma StuckOp(s: State, a: Action, r: RunId, e: Event, sent: bool)
    requires Inv(s) && Stuck(s, r) && Can(s, a) && LogOp(s, a) == Some(OpWritten(e, sent)) && Of(e, r, Exec(s, r))
    ensures e.num <= s.log.runs[r].writtenSeq
  {
    StuckHand(s, r, e);
  }

  lemma StuckRun(s: State, a: Action, r: RunId)
    requires Inv(s) && Stuck(s, r) && Can(s, a) && LeavesAlone(a, r)
    ensures
      var t := Do(s, a);
      && r in t.log.runs && t.log.runs[r].exec == s.log.runs[r].exec
      && t.log.runs[r].writtenSeq == s.log.runs[r].writtenSeq && t.log.runs[r].nextSeq == s.log.runs[r].nextSeq
  {
    LogStep(s, a);
    if LogOp(s, a).Some? {
      var op := LogOp(s, a).value;
      if op.OpWritten? && Of(op.e, r, Exec(s, r)) {
        StuckOp(s, a, r, op.e, op.sent);
      }
      OpLeavesRun(s.log, op, s.clock, r);
    }
  }

  lemma SkippedGrows(s: State, a: Action)
    requires Can(s, a)
    ensures s.skipped <= Do(s, a).skipped
  {
  }

  lemma StuckNotPast(s: State, a: Action, r: RunId)
    requires Live(s, r) && s.log.runs[r].writtenSeq < s.log.runs[r].nextSeq && Can(s, a) && LeavesAlone(a, r)
    ensures (r, Exec(s, r)) !in Do(s, a).past
  {
    if !a.Dispatch? && !a.Number? && !a.Collect? {
      ExecsOf(s, a);
    }
  }

  lemma StuckKept(s: State, a: Action, r: RunId)
    requires Inv(s) && Stuck(s, r) && Can(s, a) && LeavesAlone(a, r)
    ensures Stuck(Do(s, a), r)
  {
    StuckRun(s, a, r);
    StuckNotPast(s, a, r);
    SkippedGrows(s, a);
  }

  /** The state after more actions. */
  ghost function StateFrom(s: State, more: seq<Action>): Option<State>
    decreases more
  {
    if more == [] then Some(s)
    else if !Can(s, more[0]) then None
    else StateFrom(Do(s, more[0]), more[1..])
  }

  /** It stays that way for as long as the run has no new event and no new dispatch: the run counts as
      having output queued, though nothing of it is on its way, whatever else happens. */
  lemma {:induction false} QueuedForGood(s: State, more: seq<Action>, r: RunId)
    requires Inv(s) && Stuck(s, r)
    requires StateFrom(s, more).Some? && forall a :: a in more ==> LeavesAlone(a, r)
    ensures
      var t := StateFrom(s, more).value;
      Stuck(t, r) && Unwritten(t, r) == [] && UnwrittenOutput(t)
    decreases more
  {
    if more == [] {
      StuckNow(s, r);
    } else {
      var a := more[0];
      assert a in more && forall b :: b in more[1..] ==> b in more;
      var t := StuckStep(s, a, r);
      QueuedForGood(t, more[1..], r);
    }
  }

  lemma StuckNow(s: State, r: RunId)
    requires Inv(s) && Stuck(s, r)
    ensures Unwritten(s, r) == [] && UnwrittenOutput(s)
  {
    StuckLine(s, r);
    UnwrittenIsLine(s, r);
  }

  lemma StuckStep(s: State, a: Action, r: RunId) returns (t: State)
    requires Inv(s) && Stuck(s, r) && Can(s, a) && LeavesAlone(a, r)
    ensures t == Do(s, a) && Inv(t) && Stuck(t, r)
  {
    t := Do(s, a);
    StuckKept(s, a, r);
    StepKeepsInv(s, a);
  }

  lemma FirstEventWritten() returns (acts: seq<Action>, s: State)
    ensures StateAfter(acts) == Some(s) && s.sender.None? && s.clock == 0
    ensures s.issued == [Event(1, 7, 1, 0)] && s.past == {} && s.loop.Up? && s.loop.ask.NotAsking?
    ensures s.log.runs.Keys == {1} && s.log.runs[1].exec == 7
    ensures s.log.runs[1].touched == 0 && s.log.runs[1].writtenSeq == s.log.runs[1].nextSeq == 1
  {
    acts, s := FirstEventSent();
    Then(acts, s, WriteOk);
    acts, s := acts + [WriteOk], Do(s, WriteOk);
    Then(acts, s, Record);
    acts, s := acts + [Record], Do(s, Record);
  }

  /** The event was written and recorded, and then nothing happened for a long time. */
  lemma FirstEventOld() returns (acts: seq<Action>, s: State)
    ensures StateAfter(acts) == Some(s) && s.sender.None? && s.clock == IDLE_TTL + 1
    ensures s.issued == [Event(1, 7, 1, 0)] && s.past == {}
    ensures s.log.runs.Keys == {1} && s.log.runs[1].exec == 7
    ensures s.log.runs[1].touched == 0 && s.log.runs[1].writtenSeq == s.log.runs[1].nextSeq == 1
  {
    acts, s := FirstEventWritten();
    var later := Tick(900001);
    Then(acts, s, later);
    acts, s := acts + [later], Do(s, later);
  }

  /** Once the log of an idle run is discarded, a late event of its execution is numbered from 1 again:
      two events of one execution share a number. */
  lemma DiscardedLogRenumbers() returns (acts: seq<Action>, s: State)
    ensures StateAfter(acts) == Some(s) && 1 in s.log.runs && !Live(s, 1)
    ensures s.issued == [Event(1, 7, 1, 0), Event(1, 7, 1, 5)]
  {
    acts, s := FirstEventOld();
    var collect := Collect({});
    Then(acts, s, collect);
    assert Idle(s.log.runs[1], 1, {}, s.clock);
    assert (1, 7) in Ended(s.log, {}, s.clock);
    acts, s := acts + [collect], Do(s, collect);
    assert 1 !in s.log.runs;
    var late := Number(Event(1, 7, 0, 5), 0);
    Then(acts, s, late);
    acts, s := acts + [late], Do(s, late);
  }
}
