/**
 What the log and the ack requests say of the wire: only what was written is kept, and only what was
 written, is kept and has been quiet is asked about.
 */
module PipelineSent {
  import opened DeliverySpec
  import opened Options
  import opened Pipeline
  import opened PipelineInvariant
  import opened PipelineTheorems

  /** A message is numbered as it is, for the execution it names or the run's current one, or refused without
      a trace: then it names another execution than the current one. */
  lemma NumberedAsGiven(s: State, msg: Event, newId: ExecId)
    requires Can(s, Number(msg, newId))
    ensures
      var t := Do(s, Number(msg, newId));
      if t == s then msg.run in s.log.runs && msg.exec != NO_EXEC && msg.exec != Exec(s, msg.run)
      else
        && t.sender.Some? && t.issued == s.issued + [t.sender.value]
        && t.sender.value == msg.(exec := t.sender.value.exec, num := t.sender.value.num)
        && (msg.exec != NO_EXEC ==> t.sender.value.exec == msg.exec)
        && (msg.run in s.log.runs ==> t.sender.value.exec == Exec(s, msg.run))
  {
  }

  /** The event was written, on this connection or on an earlier one. */
  ghost predicate WasWritten(acts: seq<Action>, e: Event)
    requires StateAfter(acts).Some?
  {
    e in StateAfter(acts).value.wire || (acts != [] && WasWritten(acts[..|acts| - 1], e))
  }

  /** An event is kept only if it was written. */
  lemma {:induction false} KeptWasWritten(acts: seq<Action>, r: RunId, e: Event)
    requires StateAfter(acts).Some?
    requires r in StateAfter(acts).value.log.runs && e in StateAfter(acts).value.log.runs[r].unacked
    ensures WasWritten(acts, e)
  {
    if acts != [] {
      var before, a := acts[..|acts| - 1], acts[|acts| - 1];
      var s := StateAfter(before).value;
      Reachable(before);
      UnackedFrom(s, a, r, e);
      if r in s.log.runs && e in s.log.runs[r].unacked {
        KeptWasWritten(before, r, e);
      } else {
        assert s.wire[|s.wire| - 1] == e;
      }
    }
  }

  /** When an event of run `r` was last recorded as written. */
  ghost function LastRecord(acts: seq<Action>, r: RunId): int
    requires StateAfter(acts).Some?
  {
    if acts == [] then 0
    else
      var before, a := acts[..|acts| - 1], acts[|acts| - 1];
      var s := StateAfter(before).value;
      if a.Record? && s.loop.hand.msg.ev.run == r then s.clock else LastRecord(before, r)
  }

  lemma LastWriteFrom(s: State, a: Action, r: RunId)
    requires Can(s, a) && Do(s, a).loop.Up? && r in Do(s, a).loop.lastWrite
    requires !(a.Record? && s.loop.hand.msg.ev.run == r)
    ensures s.loop.Up? && r in s.loop.lastWrite && Do(s, a).loop.lastWrite[r] == s.loop.lastWrite[r]
  {
  }

  lemma {:induction false} LastWriteIsRecord(acts: seq<Action>, r: RunId)
    requires StateAfter(acts).Some? && StateAfter(acts).value.loop.Up? && r in StateAfter(acts).value.loop.lastWrite
    ensures StateAfter(acts).value.loop.lastWrite[r] == LastRecord(acts, r)
  {
    var before, a := acts[..|acts| - 1], acts[|acts| - 1];
    var s := StateAfter(before).value;
    if !(a.Record? && s.loop.hand.msg.ev.run == r) {
      LastWriteFrom(s, a, r);
      LastWriteIsRecord(before, r);
    }
  }

  /** A run's mark is an event written on this connection. */
  ghost predicate MarksWritten(s: State) {
    s.loop.Up? ==> forall r :: r in s.loop.sentUpTo ==> MarkWritten(s, r, s.loop.sentUpTo[r])
  }

  ghost predicate MarkWritten(s: State, r: RunId, m: Mark) {
    exists e :: e in s.wire && Of(e, r, m.exec) && e.num == m.num
  }

  lemma MarksFrom(s: State, a: Action, r: RunId)
    requires Can(s, a) && LoopOk(s) && Do(s, a).loop.Up? && r in Do(s, a).loop.sentUpTo
    ensures
      var m := Do(s, a).loop.sentUpTo[r];
      || (s.loop.Up? && r in s.loop.sentUpTo && m == s.loop.sentUpTo[r])
      || (a.Record? && s.loop.hand.msg.ev in s.wire && Of(s.loop.hand.msg.ev, r, m.exec) &&
          s.loop.hand.msg.ev.num == m.num)
  {
  }

  lemma WireStays(s: State, a: Action)
    requires Can(s, a) && !a.Connect?
    ensures s.wire <= Do(s, a).wire
  {
  }

  lemma {:induction false} MarksAreWritten(acts: seq<Action>)
    requires StateAfter(acts).Some?
    ensures MarksWritten(StateAfter(acts).value)
  {
    if acts != [] {
      var before, a := acts[..|acts| - 1], acts[|acts| - 1];
      var s, t := StateAfter(before).value, StateAfter(acts).value;
      Reachable(before);
      MarksAreWritten(before);
      if t.loop.Up? {
        WireStays(s, a);
        forall r | r in t.loop.sentUpTo
          ensures MarkWritten(t, r, t.loop.sentUpTo[r])
        {
          MarkStaysWritten(s, a, r);
        }
      }
    }
  }

  lemma MarkStaysWritten(s: State, a: Action, r: RunId)
    requires Can(s, a) && LoopOk(s) && MarksWritten(s) && s.wire <= Do(s, a).wire
    requires Do(s, a).loop.Up? && r in Do(s, a).loop.sentUpTo
    ensures MarkWritten(Do(s, a), r, Do(s, a).loop.sentUpTo[r])
  {
    var t := Do(s, a);
    MarksFrom(s, a, r);
    if s.loop.Up? && r in s.loop.sentUpTo && t.loop.sentUpTo[r] == s.loop.sentUpTo[r] {
      assert MarkWritten(s, r, s.loop.sentUpTo[r]);
      var e :| e in s.wire && Of(e, r, s.loop.sentUpTo[r].exec) && e.num == s.loop.sentUpTo[r].num;
      assert e in t.wire;
    } else {
      assert s.loop.hand.msg.ev in t.wire;
    }
  }

  /** An ack request is made only a second after the last write to its run, names an event written on this
      connection, and is made only when something up to that event is kept. */
  lemma AskedRightly(acts: seq<Action>, r: RunId)
    requires StateAfter(acts).Some? && Can(StateAfter(acts).value, AskRun(r))
    requires Do(StateAfter(acts).value, AskRun(r)).loop.hand.Holding?
    ensures
      var s := StateAfter(acts).value;
      var m := Do(s, AskRun(r)).loop.hand.msg;
      && m.AskAck? && m.run == r
      && (exists e :: e in s.wire && Of(e, r, m.exec) && e.num == m.num)
      && r in s.log.runs && s.log.runs[r].exec == m.exec
      && (exists e :: e in s.log.runs[r].unacked && e.num <= m.num)
      && s.clock - LastRecord(acts, r) >= 1000
  {
    var s := StateAfter(acts).value;
    Reachable(acts);
    LastWriteIsRecord(acts, r);
    TimerCoversWaiting(acts);
    MarksAreWritten(acts);
    assert MarkWritten(s, r, s.loop.sentUpTo[r]);
  }
}
