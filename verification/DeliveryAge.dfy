/**
 When a run's log is discarded, told from the history of the log alone: how long ago the run was last
 numbered, recorded, acknowledged or started, and whether anything of it is queued.
 */
module DeliveryAge {
  import opened DeliverySpec
  import opened Options
  import opened Pipeline
  import opened PipelineInvariant
  import opened PipelineTheorems

  /** Fifteen minutes, in milliseconds. */
  const FIFTEEN_MINUTES: int := 15 * 60 * 1000

  ghost function NewLog(): LogState {
    LogState(map[], false)
  }

  /** The call starts an execution of run `r`, or numbers, records or acknowledges something of its current one. */
  ghost predicate Touches(l: LogState, op: Op, r: RunId) {
    match op
    case OpReset(q, _) => q == r
    case OpStamp(msg, _) => msg.run == r && (r in l.runs ==> msg.exec == NO_EXEC || Names(l, r, msg.exec))
    case OpWritten(e, _) => e.run == r && Names(l, r, e.exec)
    case OpAck(q, x, _) => q == r && Names(l, r, x)
    case _ => false
  }

  /** When the run was last touched. */
  ghost function LastTouch(calls: seq<Call>, r: RunId): int {
    if calls == [] then 0
    else
      var before, last := calls[..|calls| - 1], calls[|calls| - 1];
      if Touches(LogAfter(NewLog(), before), last.op, r) then last.now else LastTouch(before, r)
  }

  /** How many numbers the run's log has given. */
  ghost function Given(calls: seq<Call>, r: RunId): nat {
    if calls == [] then 0
    else
      var before, last := calls[..|calls| - 1], calls[|calls| - 1];
      var l := LogAfter(NewLog(), before);
      if !Touches(l, last.op, r) then Given(before, r)
      else if last.op.OpReset? then 0
      else if last.op.OpStamp? then if r in l.runs then Given(before, r) + 1 else 1
      else Given(before, r)
  }

  /** The highest number recorded of those. */
  ghost function RecordedUpTo(calls: seq<Call>, r: RunId): nat {
    if calls == [] then 0
    else
      var before, last := calls[..|calls| - 1], calls[|calls| - 1];
      var l := LogAfter(NewLog(), before);
      if !Touches(l, last.op, r) then RecordedUpTo(before, r)
      else if last.op.OpReset? || (last.op.OpStamp? && r !in l.runs) then 0
      else if last.op.OpWritten? && last.op.e.num > RecordedUpTo(before, r) then last.op.e.num
      else RecordedUpTo(before, r)
  }

  /** What a call that does not touch the run leaves of it. */
  lemma UntouchedRun(l: LogState, op: Op, now: int, r: RunId)
    requires !Touches(l, op, r) && r in Apply(l, op, now).runs
    ensures r in l.runs
    ensures
      var rs, rs' := l.runs[r], Apply(l, op, now).runs[r];
      rs'.touched == rs.touched && rs'.nextSeq == rs.nextSeq && rs'.writtenSeq == rs.writtenSeq
  {
  }

  lemma TouchedRun(l: LogState, op: Op, now: int, r: RunId)
    requires Touches(l, op, r)
    ensures r in Apply(l, op, now).runs && Apply(l, op, now).runs[r].touched == now
    ensures
      var rs' := Apply(l, op, now).runs[r];
      match op
      case OpReset(_, _) => rs'.nextSeq == rs'.writtenSeq == 0
      case OpStamp(_, _) =>
        if r in l.runs then rs'.nextSeq == l.runs[r].nextSeq + 1 && rs'.writtenSeq == l.runs[r].writtenSeq
        else rs'.nextSeq == 1 && rs'.writtenSeq == 0
      case OpWritten(e, _) =>
        r in l.runs && rs'.nextSeq == l.runs[r].nextSeq && rs'.writtenSeq == Max(l.runs[r].writtenSeq, e.num)
      case OpAck(_, _, _) =>
        r in l.runs && rs'.nextSeq == l.runs[r].nextSeq && rs'.writtenSeq == l.runs[r].writtenSeq
      case _ => false
  {
  }

  /** A log's entry says what the history says. */
  lemma {:induction false} EntryTellsHistory(calls: seq<Call>, r: RunId)
    requires r in LogAfter(NewLog(), calls).runs
    ensures
      var rs := LogAfter(NewLog(), calls).runs[r];
      rs.touched == LastTouch(calls, r) && rs.nextSeq == Given(calls, r) && rs.writtenSeq == RecordedUpTo(calls, r)
  {
    if calls != [] {
      var before, last := calls[..|calls| - 1], calls[|calls| - 1];
      var l := LogAfter(NewLog(), before);
      if r in l.runs {
        EntryTellsHistory(before, r);
      }
      if Touches(l, last.op, r) {
        TouchedRun(l, last.op, last.now, r);
      } else {
        UntouchedRun(l, last.op, last.now, r);
      }
    }
  }

  /** In every history, a collection discards a run's log exactly when the run is not active, nothing of it
      is queued, and it was last touched more than fifteen minutes ago; the others it leaves as they are. */
  lemma CollectedExactly(calls: seq<Call>, active: set<RunId>, now: int, r: RunId)
    ensures
      var l, m := LogAfter(NewLog(), calls), LogAfter(NewLog(), calls + [Call(OpGc(active), now)]);
      && (r in m.runs <==>
            r in l.runs &&
            (r in active || RecordedUpTo(calls, r) < Given(calls, r) || now - LastTouch(calls, r) <= FIFTEEN_MINUTES))
      && (r in m.runs ==> m.runs[r] == l.runs[r])
  {
    assert (calls + [Call(OpGc(active), now)])[..|calls|] == calls;
    if r in LogAfter(NewLog(), calls).runs {
      EntryTellsHistory(calls, r);
    }
  }

  // ---------------------------------------------------------------- in the pipeline

  /** The calls that the actions make to the log. */
  ghost function LogCalls(acts: seq<Action>): seq<Call>
    requires StateAfter(acts).Some?
  {
    if acts == [] then []
    else
      var before, a := acts[..|acts| - 1], acts[|acts| - 1];
      var s := StateAfter(before).value;
      LogCalls(before) + (if LogOp(s, a).Some? then [Call(LogOp(s, a).value, s.clock)] else [])
  }

  lemma {:induction false} LogIsHistory(acts: seq<Action>)
    requires StateAfter(acts).Some?
    ensures StateAfter(acts).value.log == LogAfter(NewLog(), LogCalls(acts))
  {
    if acts != [] {
      var before, a := acts[..|acts| - 1], acts[|acts| - 1];
      var s := StateAfter(before).value;
      LogIsHistory(before);
      LogStep(s, a);
      var calls := LogCalls(before);
      if LogOp(s, a).Some? {
        assert (calls + [Call(LogOp(s, a).value, s.clock)])[..|calls|] == calls;
      } else {
        assert calls + [] == calls;
      }
    }
  }

  /** Nothing that would end the run's execution: no new dispatch, and when logs are collected it is
      executing, has something queued or was touched in the last fifteen minutes. */
  ghost predicate Spares(acts: seq<Action>, a: Action, r: RunId) {
    && StateAfter(acts).Some?
    && !(a.Dispatch? && a.r == r)
    && (a.Collect? ==>
          || r in a.active || RecordedUpTo(LogCalls(acts), r) < Given(LogCalls(acts), r)
          || StateAfter(acts).value.clock - LastTouch(LogCalls(acts), r) <= FIFTEEN_MINUTES)
  }

  lemma SparedStaysLive(acts: seq<Action>, a: Action, r: RunId)
    requires Spares(acts, a, r) && Can(StateAfter(acts).value, a) && Live(StateAfter(acts).value, r)
    ensures
      var s, t := StateAfter(acts).value, Do(StateAfter(acts).value, a);
      Live(t, r) && Exec(t, r) == Exec(s, r)
  {
    var s := StateAfter(acts).value;
    LogIsHistory(acts);
    if a.Collect? {
      EntryTellsHistory(LogCalls(acts), r);
    } else if !a.Dispatch? && !a.Number? {
      ExecsOf(s, a);
    }
  }

  ghost predicate SparedSince(acts: seq<Action>, k: nat, r: RunId) {
    forall i :: k <= i < |acts| ==> Spares(acts[..i], acts[i], r)
  }

  lemma SparedBefore(acts: seq<Action>, k: nat, r: RunId)
    requires SparedSince(acts, k, r) && k < |acts|
    ensures SparedSince(acts[..|acts| - 1], k, r) && Spares(acts[..|acts| - 1], acts[|acts| - 1], r)
  {
    var before := acts[..|acts| - 1];
    assert forall i :: 0 <= i < |before| ==> before[..i] == acts[..i] && before[i] == acts[i];
  }

  /** A run that is executing, queued or touched within fifteen minutes at every collection, and not
      dispatched again, keeps its log and its execution: what is proved of live executions holds of it. */
  lemma {:induction false} RecentStaysLive(acts: seq<Action>, k: nat, r: RunId)
    requires StateAfter(acts).Some? && k <= |acts| && SparedSince(acts, k, r)
    requires StateAfter(acts[..k]).Some? && Live(StateAfter(acts[..k]).value, r)
    ensures Live(StateAfter(acts).value, r)
    ensures Exec(StateAfter(acts).value, r) == Exec(StateAfter(acts[..k]).value, r)
    decreases |acts|
  {
    if k == |acts| {
      assert acts[..k] == acts;
    } else {
      var before, last := acts[..|acts| - 1], acts[|acts| - 1];
      assert before[..k] == acts[..k];
      SparedBefore(acts, k, r);
      RecentStaysLive(before, k, r);
      SparedStaysLive(before, last, r);
    }
  }
}
