/**
 When the events of an execution share a number. Numbers come from the run's log; a log that was
 discarded starts again at 1.
 */
module PipelineNumbers {
  import opened DeliverySpec
  import opened Options
  import opened Pipeline
  import opened PipelineInvariant

  /** No two events share run, execution and number. */
  ghost predicate AllDistinct(issued: seq<Event>) {
    forall i, j :: 0 <= i < j < |issued| && Of(issued[j], issued[i].run, issued[i].exec) ==>
      issued[i].num != issued[j].num
  }

  ghost predicate Occurs(issued: seq<Event>, r: RunId, x: ExecId) {
    exists e :: e in issued && Of(e, r, x)
  }

  /** A late event: its run has no log, it names an execution, and that one has events already. */
  ghost predicate Renumbers(s: State, a: Action) {
    a.Number? && a.msg.run !in s.log.runs && a.msg.exec != NO_EXEC && Occurs(s.issued, a.msg.run, a.msg.exec)
  }

  ghost predicate EverRenumbers(acts: seq<Action>)
    requires StateAfter(acts).Some?
  {
    if acts == [] then false
    else
      var before := acts[..|acts| - 1];
      EverRenumbers(before) || Renumbers(StateAfter(before).value, acts[|acts| - 1])
  }

  /** Every execution starts at 1, and a log that has numbered nothing of its execution stands at 0. */
  ghost predicate StartsAtOne(s: State) {
    && (forall e :: e in s.issued ==> HasFirst(s.issued, e.run, e.exec))
    && (forall r :: r in s.log.runs && !Occurs(s.issued, r, s.log.runs[r].exec) ==> s.log.runs[r].nextSeq == 0)
  }

  ghost predicate HasFirst(issued: seq<Event>, r: RunId, x: ExecId) {
    exists e :: e in issued && Of(e, r, x) && e.num == 1
  }

  /** A log stands at the highest number of its execution or above. */
  ghost predicate LogAbove(s: State) {
    forall r, e :: r in s.log.runs && e in s.issued && Of(e, r, s.log.runs[r].exec) ==> e.num <= s.log.runs[r].nextSeq
  }

  /** The steps that neither number an event nor start an execution. */
  ghost predicate Numberless(s: State, a: Action) {
    !a.Dispatch? && (a.Number? ==> Refused(s.log, a.msg))
  }

  lemma LogsStay(s: State, a: Action)
    requires Can(s, a) && Numberless(s, a)
    ensures Do(s, a).issued == s.issued
    ensures forall r :: r in Do(s, a).log.runs ==>
      r in s.log.runs && Do(s, a).log.runs[r].exec == s.log.runs[r].exec &&
      Do(s, a).log.runs[r].nextSeq == s.log.runs[r].nextSeq
  {
    LogStep(s, a);
  }

  lemma NumberlessKeeps(s: State, a: Action)
    requires Can(s, a) && Numberless(s, a)
    ensures StartsAtOne(s) ==> StartsAtOne(Do(s, a))
    ensures LogAbove(s) ==> LogAbove(Do(s, a))
  {
    LogsStay(s, a);
  }

  lemma FreshIsNew(s: State, r: RunId, x: ExecId)
    requires Executions(s) && (r, x) !in s.used
    ensures !Occurs(s.issued, r, x)
  {
  }

  lemma DispatchNumbers(s: State, a: Action)
    requires Executions(s) && Can(s, a) && a.Dispatch?
    ensures StartsAtOne(s) ==> StartsAtOne(Do(s, a))
    ensures LogAbove(s) ==> LogAbove(Do(s, a))
  {
    FreshIsNew(s, a.r, a.newId);
  }

  /** What a step that numbers an event does. */
  ghost predicate Numbered(s: State, t: State, e: Event) {
    && t.issued == s.issued + [e]
    && e.run in t.log.runs && t.log.runs == s.log.runs[e.run := t.log.runs[e.run]]
    && t.log.runs[e.run].exec == e.exec && t.log.runs[e.run].nextSeq == e.num
    && if e.run in s.log.runs then s.log.runs[e.run].exec == e.exec && e.num == s.log.runs[e.run].nextSeq + 1
       else e.num == 1
  }

  lemma NumberStamps(s: State, a: Action)
    requires Executions(s) && Can(s, a) && a.Number? && !Refused(s.log, a.msg)
    ensures
      var t := Do(s, a);
      && t.issued != [] && Numbered(s, t, t.issued[|t.issued| - 1])
      && var e := t.issued[|t.issued| - 1];
         && e.run == a.msg.run
         && (e.run !in s.log.runs ==> (Occurs(s.issued, e.run, e.exec) <==> Renumbers(s, a)))
  {
    var e := StampedEvent(s.log, a.msg, a.newId, s.clock);
    if a.msg.run !in s.log.runs && a.msg.exec == NO_EXEC {
      FreshIsNew(s, a.msg.run, a.newId);
    }
  }

  lemma OccursAppend(issued: seq<Event>, e: Event, r: RunId, x: ExecId)
    ensures Occurs(issued + [e], r, x) <==> Occurs(issued, r, x) || Of(e, r, x)
    ensures HasFirst(issued + [e], r, x) <==> HasFirst(issued, r, x) || (Of(e, r, x) && e.num == 1)
  {
    assert forall f :: f in issued + [e] <==> f in issued || f == e;
  }

  lemma NumberedStartsAtOne(s: State, t: State, e: Event)
    requires Numbered(s, t, e) && StartsAtOne(s)
    ensures StartsAtOne(t)
  {
    forall f | f in t.issued
      ensures HasFirst(t.issued, f.run, f.exec)
    {
      OccursAppend(s.issued, e, f.run, f.exec);
    }
    forall r | r in t.log.runs
      ensures !Occurs(t.issued, r, t.log.runs[r].exec) ==> t.log.runs[r].nextSeq == 0
    {
      OccursAppend(s.issued, e, r, t.log.runs[r].exec);
    }
  }

  lemma NumberedAbove(s: State, t: State, e: Event)
    requires Numbered(s, t, e) && LogAbove(s)
    requires e.run !in s.log.runs ==> !Occurs(s.issued, e.run, e.exec)
    ensures LogAbove(t)
    ensures forall f :: f in s.issued && Of(f, e.run, e.exec) ==> f.num < e.num
  {
  }

  lemma {:induction false} StartsAtOneAlways(acts: seq<Action>)
    requires StateAfter(acts).Some?
    ensures StartsAtOne(StateAfter(acts).value)
  {
    if acts != [] {
      var s, a := StateAfter(acts[..|acts| - 1]).value, acts[|acts| - 1];
      StartsAtOneAlways(acts[..|acts| - 1]);
      Reachable(acts[..|acts| - 1]);
      StartsAtOneKept(s, a);
    }
  }

  lemma StartsAtOneKept(s: State, a: Action)
    requires Executions(s) && Can(s, a) && StartsAtOne(s)
    ensures StartsAtOne(Do(s, a))
  {
    if Numberless(s, a) {
      NumberlessKeeps(s, a);
    } else if a.Dispatch? {
      DispatchNumbers(s, a);
    } else {
      NumberStamps(s, a);
      NumberedStartsAtOne(s, Do(s, a), Do(s, a).issued[|Do(s, a).issued| - 1]);
    }
  }

  lemma DistinctAppend(issued: seq<Event>, e: Event)
    ensures
      AllDistinct(issued + [e]) <==>
      AllDistinct(issued) && forall f :: f in issued && Of(f, e.run, e.exec) ==> f.num != e.num
  {
    var all := issued + [e];
    if AllDistinct(all) {
      forall i, j | 0 <= i < j < |issued| && Of(issued[j], issued[i].run, issued[i].exec)
        ensures issued[i].num != issued[j].num
      {
        assert all[i] == issued[i] && all[j] == issued[j];
      }
      forall f | f in issued && Of(f, e.run, e.exec)
        ensures f.num != e.num
      {
        var i :| 0 <= i < |issued| && issued[i] == f;
        assert all[i] == f && all[|issued|] == e;
      }
    }
  }

  /** One step keeps numbers apart exactly when it does not number a late event afresh. */
  lemma DistinctStep(s: State, a: Action)
    requires Executions(s) && Can(s, a) && StartsAtOne(s)
    ensures AllDistinct(Do(s, a).issued) ==> AllDistinct(s.issued) && !Renumbers(s, a)
    ensures LogAbove(s) && AllDistinct(s.issued) && !Renumbers(s, a) ==>
      LogAbove(Do(s, a)) && AllDistinct(Do(s, a).issued)
  {
    if Numberless(s, a) {
      NumberlessKeeps(s, a);
      LogsStay(s, a);
      assert !Renumbers(s, a);
    } else if a.Dispatch? {
      DispatchNumbers(s, a);
    } else {
      NumberStamps(s, a);
      var e := Do(s, a).issued[|Do(s, a).issued| - 1];
      DistinctAppend(s.issued, e);
      if Renumbers(s, a) {
        var f :| f in s.issued && Of(f, e.run, e.exec);
        assert HasFirst(s.issued, f.run, f.exec);
      } else if LogAbove(s) {
        NumberedAbove(s, Do(s, a), e);
      }
    }
  }

  /**
   In every history, no two events share run, execution and number if and only if no late event was
   numbered whose run had lost its log and whose execution had events before.
   */
  lemma {:induction false} NumbersDistinctExactly(acts: seq<Action>)
    requires StateAfter(acts).Some?
    ensures AllDistinct(StateAfter(acts).value.issued) <==> !EverRenumbers(acts)
    ensures !EverRenumbers(acts) ==> LogAbove(StateAfter(acts).value)
  {
    if acts != [] {
      var before := acts[..|acts| - 1];
      NumbersDistinctExactly(before);
      StartsAtOneAlways(before);
      Reachable(before);
      DistinctStep(StateAfter(before).value, acts[|acts| - 1]);
    }
  }
}
