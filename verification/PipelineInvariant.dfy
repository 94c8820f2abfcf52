/**
 The invariant of the pipeline: every step of every goroutine keeps it, so it holds after every run
 of actions.
 */
module PipelineInvariant {
  import opened DeliverySpec
  import opened Options
  import opened Pipeline
  import opened PipelineView

  /** The event is on its way, to its first write or to another one. */
  ghost predicate OnWay(s: State, e: Event) {
    || (s.loop.Up? && (e in s.loop.todo || (s.loop.hand.Holding? && s.loop.hand.msg == Ev(e))))
    || Ev(e) in s.carry
    || Ev(e) in s.outChan
    || s.pump == Some(Ev(e))
    || e in s.items
    || s.sender == Some(e)
  }

  ghost function Unsent(s: State): seq<Event> {
    (if HandAt(s, OnWire) then [] else HandOf(s, FromReplay)) + Todo(s)
  }

  ghost function Recorded(s: State): seq<Event> {
    if HandAt(s, OnWire) && s.wire != [] then s.wire[..|s.wire| - 1] else s.wire
  }

  ghost predicate StaleOnWay(s: State, r: RunId, x: ExecId) {
    exists e :: OnWay(s, e) && e.run == r && e.exec != x
  }

  /** No event of another execution of `r` stands behind one of `x`. */
  ghost predicate StaleFirst(evs: seq<Event>, r: RunId, x: ExecId) {
    forall i, j :: 0 <= i < j < |evs| && Of(evs[i], r, x) && evs[j].run == r ==> evs[j].exec == x
  }

  ghost function Asks(s: State): set<Msg> {
    s.asked + (if s.loop.Up? && s.loop.hand.Holding? && s.loop.hand.msg.AskAck? then {s.loop.hand.msg} else {})
  }

  ghost function MarkOf(loop: Loop, r: RunId): Option<Mark> {
    if loop.Up? && r in loop.sentUpTo then Some(loop.sentUpTo[r]) else None
  }

  ghost function ViewOf(s: State, r: RunId): View
    requires r in s.log.runs
  {
    var x := s.log.runs[r].exec;
    View(
      s.log.runs[r],
      Pick(s.issued, r, x),
      Pick(HandOf(s, FromQueue) + Evs(s.carry), r, x),
      Pick(Back(s), r, x),
      Pick(Unsent(s), r, x),
      Pick(HandOf(s, FromReplay) + Todo(s), r, x),
      Pick(s.wire, r, x),
      Pick(Recorded(s), r, x),
      StaleOnWay(s, r, x),
      StaleFirst(Back(s), r, x),
      s.loop.Up?,
      MarkOf(s.loop, r),
      s.loop.Up? && r in s.loop.lastWrite,
      Asks(s),
      s.alwaysAck, s.unsendable, s.trimmed, s.skipped)
  }

  /** Nothing is on its way, kept or written that was not numbered. */
  ghost predicate NothingInvented(s: State) {
    && (forall e :: OnWay(s, e) ==> e in s.issued)
    && (forall e :: e in s.wire ==> e in s.issued)
    && (forall r, e :: r in s.log.runs && e in s.log.runs[r].unacked ==> e in s.issued)
    && (forall e :: e in s.skipped ==> e in s.issued)
    && (forall e :: e in s.overflowed ==> e in s.issued)
  }

  ghost predicate Executions(s: State) {
    && (forall e :: e in s.issued ==> (e.run, e.exec) in s.used)
    && (forall r :: r in s.log.runs ==> (r, s.log.runs[r].exec) in s.used)
    && s.past <= s.used
    && (forall p :: p in s.used ==> p in s.past || (p.0 in s.log.runs && s.log.runs[p.0].exec == p.1))
  }

  /** What the write loop can be doing. */
  ghost predicate LoopOk(s: State) {
    && (s.alwaysAck && !s.loop.Down? ==> s.log.enabled)
    && (s.loop.Starting? ==> s.wire == [])
    && (s.loop.Up? ==>
          && s.loop.lastWrite.Keys <= s.loop.sentUpTo.Keys
          && (s.loop.ask.Asking? ==> s.loop.todo == [])
          && (s.loop.hand.Holding? ==>
                && (s.loop.hand.src.FromTimer? <==> s.loop.ask.Asking?)
                && (s.loop.hand.src.FromTimer? <==> s.loop.hand.msg.AskAck?)
                && (s.loop.hand.src.FromReplay? ==> s.loop.hand.msg.Ev?)
                && (s.loop.hand.src.FromQueue? ==> s.loop.todo == [])
                && (s.loop.hand.stage.OnWire? ==>
                      s.loop.hand.msg.Ev? && s.wire != [] && s.wire[|s.wire| - 1] == s.loop.hand.msg.ev)))
  }

  /** The queue carries events and replies only: ack requests never leave the write loop. */
  ghost predicate NoAsks(msgs: seq<Msg>) {
    forall m :: m in msgs ==> !m.AskAck?
  }

  ghost predicate QueuesOk(s: State) {
    NoAsks(s.outChan) && NoAsks(s.carry) && (s.pump.Some? ==> !s.pump.value.AskAck?)
  }

  /** A message from the queue leaves room in carry to go back to. */
  ghost predicate CarryOk(s: State) {
    && |s.carry| <= CARRY_CAPACITY
    && (s.loop.Up? && s.loop.hand.Holding? && s.loop.hand.src.FromQueue? ==> |s.carry| < CARRY_CAPACITY)
  }

  ghost predicate Struct(s: State) {
    DeliverySpec.Valid(s.log) && NothingInvented(s) && Executions(s) && LoopOk(s) && QueuesOk(s) && CarryOk(s)
  }

  ghost predicate Inv(s: State) {
    Struct(s) && forall r :: Live(s, r) ==> ViewInv(ViewOf(s, r))
  }

  // ---------------------------------------------------------------- the structure of the state

  lemma {:induction false} EvsMember(msgs: seq<Msg>)
    ensures forall e :: e in Evs(msgs) <==> Ev(e) in msgs
  {
    if msgs != [] {
      EvsMember(msgs[1..]);
      assert msgs == [msgs[0]] + msgs[1..];
    }
  }

  /** What a step does to the delivery log, if anything. */
  ghost function LogOp(s: State, a: Action): Option<Op>
    requires Can(s, a)
  {
    match a
    case Dispatch(r, newId) => Some(OpReset(r, newId))
    case Number(msg, newId) => Some(OpStamp(msg, newId))
    case AckArrives(r, x, n) => Some(OpAck(r, x, n))
    case Collect(active) => Some(OpGc(active))
    case Connect(acks) => Some(OpSetEnabled(acks))
    case GiveUp => if s.loop.hand.msg.Ev? then Some(OpWritten(s.loop.hand.msg.ev, false)) else None
    case WriteFail =>
      if s.loop.hand.msg.Ev? && !Kept(s.log, s.loop.hand.msg.ev) && |s.carry| >= CARRY_CAPACITY
      then Some(OpWritten(s.loop.hand.msg.ev, false)) else None
    case Record => Some(OpWritten(s.loop.hand.msg.ev, true))
    case _ => None
  }

  lemma LogStep(s: State, a: Action)
    requires Can(s, a)
    ensures Do(s, a).log == (if LogOp(s, a).None? then s.log else Apply(s.log, LogOp(s, a).value, s.clock))
  {
  }

  lemma LogValidKept(s: State, a: Action)
    requires Struct(s) && Can(s, a)
    ensures DeliverySpec.Valid(Do(s, a).log)
  {
    LogStep(s, a);
    if LogOp(s, a).Some? {
      ApplyKeepsValid(s.log, LogOp(s, a).value, s.clock);
    }
  }

  /** Where an event on its way after a step came from. */
  lemma OnWayFrom(s: State, a: Action, e: Event)
    requires Can(s, a) && OnWay(Do(s, a), e)
    ensures OnWay(s, e) ||
            (a.Number? && !Refused(s.log, a.msg) && e == StampedEvent(s.log, a.msg, a.newId, s.clock)) ||
            (a.StartLoop? && e in Replay(s.log, a.order))
  {
    if a.TakeNext? {
      TakeOnWay(s, e);
    } else if a.WriteFail? {
      FailOnWay(s, e);
    } else if QueueAction(a) {
      QueueOnWay(s, a, e);
    } else {
      OtherOnWay(s, a, e);
    }
  }

  predicate QueueAction(a: Action) {
    a.Number? || a.Push? || a.PushReply? || a.PumpTake? || a.PumpSend?
  }

  lemma TakeOnWay(s: State, e: Event)
    requires Can(s, TakeNext) && OnWay(Do(s, TakeNext), e)
    ensures OnWay(s, e)
  {
  }

  lemma FailOnWay(s: State, e: Event)
    requires Can(s, WriteFail) && OnWay(Do(s, WriteFail), e)
    ensures OnWay(s, e)
  {
  }

  lemma QueueOnWay(s: State, a: Action, e: Event)
    requires Can(s, a) && QueueAction(a) && OnWay(Do(s, a), e)
    ensures OnWay(s, e) ||
            (a.Number? && !Refused(s.log, a.msg) && e == StampedEvent(s.log, a.msg, a.newId, s.clock))
  {
  }

  lemma OtherOnWay(s: State, a: Action, e: Event)
    requires Can(s, a) && !QueueAction(a) && !a.TakeNext? && !a.WriteFail? && OnWay(Do(s, a), e)
    ensures OnWay(s, e) || (a.StartLoop? && e in Replay(s.log, a.order))
  {
  }

  /** What a step adds to a run's kept events. */
  lemma UnackedFrom(s: State, a: Action, r: RunId, e: Event)
    requires Struct(s) && Can(s, a) && r in Do(s, a).log.runs && e in Do(s, a).log.runs[r].unacked
    ensures (r in s.log.runs && e in s.log.runs[r].unacked) ||
            (a.Record? && e == s.loop.hand.msg.ev)
  {
    if a.AckArrives? {
      AckedUnacked(s, a, r, e);
    } else if a.Record? {
      RecordedUnacked(s, r, e);
    } else if LogAction(a) {
      LogUnacked(s, a, r, e);
    } else {
      OtherUnacked(s, a, r, e);
    }
  }

  predicate LogAction(a: Action) {
    a.Dispatch? || a.Number? || a.Collect? || a.Connect?
  }

  lemma LogUnacked(s: State, a: Action, r: RunId, e: Event)
    requires Struct(s) && Can(s, a) && LogAction(a)
    requires r in Do(s, a).log.runs && e in Do(s, a).log.runs[r].unacked
    ensures r in s.log.runs && e in s.log.runs[r].unacked
  {
  }

  lemma AckedUnacked(s: State, a: Action, r: RunId, e: Event)
    requires Struct(s) && Can(s, a) && a.AckArrives?
    requires r in Do(s, a).log.runs && e in Do(s, a).log.runs[r].unacked
    ensures r in s.log.runs && e in s.log.runs[r].unacked
  {
    if Names(s.log, a.r, a.x) {
      assert RunValid(a.r, s.log.runs[a.r], s.log.enabled);
      AboveFacts(s.log.runs[a.r].unacked, a.n);
    }
  }

  lemma RecordedUnacked(s: State, r: RunId, e: Event)
    requires Struct(s) && Can(s, Record) && r in Do(s, Record).log.runs && e in Do(s, Record).log.runs[r].unacked
    ensures r in s.log.runs && (e in s.log.runs[r].unacked || e == s.loop.hand.msg.ev)
  {
    assert RunValid(r, s.log.runs[r], s.log.enabled);
    if Names(s.log, s.loop.hand.msg.ev.run, s.loop.hand.msg.ev.exec) && r == s.loop.hand.msg.ev.run {
      InsertedFacts(s.log.runs[r].unacked, s.loop.hand.msg.ev);
    }
  }

  lemma OtherUnacked(s: State, a: Action, r: RunId, e: Event)
    requires Struct(s) && Can(s, a) && !a.AckArrives? && !a.Record? && !LogAction(a)
    requires r in Do(s, a).log.runs && e in Do(s, a).log.runs[r].unacked
    ensures r in s.log.runs && e in s.log.runs[r].unacked
  {
    LogStep(s, a);
    if LogOp(s, a).Some? {
      UnsentUnacked(s.log, LogOp(s, a).value.e, s.clock, r, e);
    }
  }

  lemma UnsentUnacked(l: LogState, written: Event, now: int, r: RunId, e: Event)
    requires r in Written(l, written, false, now).runs && e in Written(l, written, false, now).runs[r].unacked
    ensures r in l.runs && e in l.runs[r].unacked
  {
  }

  lemma NothingInventedKept(s: State, a: Action)
    requires Struct(s) && Can(s, a)
    ensures NothingInvented(Do(s, a))
  {
    var t := Do(s, a);
    forall e | OnWay(t, e)
      ensures e in t.issued
    {
      OnWayFrom(s, a, e);
      if a.StartLoop? {
        ReplayMembers(s.log, a.order);
      }
    }
    forall r, e | r in t.log.runs && e in t.log.runs[r].unacked
      ensures e in t.issued
    {
      UnackedFrom(s, a, r, e);
      assert a.Record? ==> OnWay(s, s.loop.hand.msg.ev);
    }
    forall e | e in t.wire || e in t.skipped || e in t.overflowed
      ensures e in t.issued
    {
      SeenFrom(s, a, e);
    }
  }

  lemma WireFrom(s: State, a: Action, e: Event)
    requires Can(s, a) && e in Do(s, a).wire
    ensures e in s.wire || OnWay(s, e)
  {
  }

  lemma LetGoFrom(s: State, a: Action, e: Event)
    requires Can(s, a) && (e in Do(s, a).skipped || e in Do(s, a).overflowed)
    ensures e in s.skipped || e in s.overflowed || OnWay(s, e)
  {
  }

  lemma IssuedGrows(s: State, a: Action)
    requires Can(s, a)
    ensures s.issued <= Do(s, a).issued
  {
  }

  lemma SeenFrom(s: State, a: Action, e: Event)
    requires NothingInvented(s) && Can(s, a)
    requires e in Do(s, a).wire || e in Do(s, a).skipped || e in Do(s, a).overflowed
    ensures e in Do(s, a).issued
  {
    if e in Do(s, a).wire {
      WireFrom(s, a, e);
    } else {
      LetGoFrom(s, a, e);
    }
    IssuedGrows(s, a);
  }

  /** Which execution is each run's current one changes with a dispatch, a collection and a run's first event. */
  lemma ExecsOf(s: State, a: Action)
    requires Can(s, a) && !a.Dispatch? && !a.Number? && !a.Collect?
    ensures Do(s, a).used == s.used && Do(s, a).past == s.past && Do(s, a).issued == s.issued
    ensures Do(s, a).log.runs.Keys == s.log.runs.Keys
    ensures forall r :: r in s.log.runs ==> Do(s, a).log.runs[r].exec == s.log.runs[r].exec
  {
    LogStep(s, a);
  }

  lemma ExecutionsKept(s: State, a: Action)
    requires Struct(s) && Can(s, a)
    ensures Executions(Do(s, a))
  {
    if a.Dispatch? || a.Number? {
      StartExecutions(s, a);
    } else if a.Collect? {
      CollectExecutions(s, a.active);
    } else {
      ExecsOf(s, a);
      SameExecutions(s, Do(s, a));
    }
  }

  lemma SameExecutions(s: State, t: State)
    requires Executions(s) && t.used == s.used && t.past == s.past && t.issued == s.issued
    requires t.log.runs.Keys == s.log.runs.Keys
    requires forall r :: r in s.log.runs ==> t.log.runs[r].exec == s.log.runs[r].exec
    ensures Executions(t)
  {
  }

  lemma StartExecutions(s: State, a: Action)
    requires Struct(s) && Can(s, a) && (a.Dispatch? || a.Number?)
    ensures Executions(Do(s, a))
  {
  }

  lemma CollectExecutions(s: State, active: set<RunId>)
    requires Struct(s) && Can(s, Collect(active))
    ensures Executions(Do(s, Collect(active)))
  {
    var t := Do(s, Collect(active));
    forall p | p in t.used
      ensures p in t.past || (p.0 in t.log.runs && t.log.runs[p.0].exec == p.1)
    {
      if p !in s.past && Idle(s.log.runs[p.0], p.0, active, s.clock) {
        assert p == (p.0, s.log.runs[p.0].exec);
      }
    }
  }

  predicate LoopAction(a: Action) {
    a.StartLoop? || a.TakeNext? || a.BeginSend? || a.WriteOk? || a.Record? || a.FireTimer? || a.AskRun? || a.AskDone?
  }

  lemma LoopActionOk(s: State, a: Action)
    requires LoopOk(s) && QueuesOk(s) && Can(s, a) && LoopAction(a)
    ensures LoopOk(Do(s, a))
  {
  }

  lemma OtherActionOk(s: State, a: Action)
    requires LoopOk(s) && Can(s, a) && !LoopAction(a)
    ensures LoopOk(Do(s, a))
  {
  }

  lemma LoopOkKept(s: State, a: Action)
    requires Struct(s) && Can(s, a)
    ensures LoopOk(Do(s, a))
  {
    if LoopAction(a) {
      LoopActionOk(s, a);
    } else {
      OtherActionOk(s, a);
    }
  }

  lemma QueuesOkKept(s: State, a: Action)
    requires Struct(s) && Can(s, a)
    ensures QueuesOk(Do(s, a))
  {
    if a.TakeNext? {
      TakeQueuesOk(s);
    } else if a.WriteFail? {
      FailQueuesOk(s);
    } else if QueueAction(a) {
      QueueQueuesOk(s, a);
    } else {
      OtherQueues(s, a);
    }
  }

  lemma TakeQueuesOk(s: State)
    requires QueuesOk(s) && Can(s, TakeNext)
    ensures QueuesOk(Do(s, TakeNext))
  {
  }

  lemma FailQueuesOk(s: State)
    requires QueuesOk(s) && Can(s, WriteFail)
    ensures QueuesOk(Do(s, WriteFail))
  {
  }

  lemma QueueQueuesOk(s: State, a: Action)
    requires QueuesOk(s) && Can(s, a) && QueueAction(a)
    ensures QueuesOk(Do(s, a))
  {
  }

  lemma OtherQueues(s: State, a: Action)
    requires Can(s, a) && !QueueAction(a) && !a.TakeNext? && !a.WriteFail?
    ensures Do(s, a).outChan == s.outChan && Do(s, a).carry == s.carry && Do(s, a).pump == s.pump
  {
  }

  lemma CarryOkKept(s: State, a: Action)
    requires CarryOk(s) && Can(s, a)
    ensures CarryOk(Do(s, a))
  {
  }

  lemma StructKept(s: State, a: Action)
    requires Struct(s) && Can(s, a)
    ensures Struct(Do(s, a))
  {
    LogValidKept(s, a);
    NothingInventedKept(s, a);
    ExecutionsKept(s, a);
    LoopOkKept(s, a);
    QueuesOkKept(s, a);
    CarryOkKept(s, a);
  }

  // ---------------------------------------------------------------- what a step does to a run

  lemma StillLive(s: State, a: Action, r: RunId)
    requires Struct(s) && Can(s, a) && Live(Do(s, a), r)
    requires !(a.Dispatch? && a.r == r) && !(a.Number? && a.msg.run == r && r !in s.log.runs)
    ensures Live(s, r) && Do(s, a).log.runs[r].exec == s.log.runs[r].exec
  {
    if !a.Dispatch? && !a.Number? && !a.Collect? {
      ExecsOf(s, a);
    }
  }

  /** Steps that pass an event on within the queue, or into the write loop's hand from its replay or
      from carry, or that only concern replies and timers. */
  ghost predicate Passes(s: State, a: Action)
    requires Can(s, a)
  {
    || a.Push? || a.PushReply? || a.PumpTake? || a.PumpSend? || a.BeginSend? || a.Tick? || a.FireTimer? || a.AskDone?
    || (a.TakeNext? && (s.loop.todo != [] || s.carry != [] || !s.outChan[0].Ev?))
    || (a.AskRun? && s.loop.ask.now - s.loop.lastWrite[a.r] < ACK_DELAY)
    || (a.WriteOk? && !s.loop.hand.msg.Ev?)
    || (a.GiveUp? && !s.loop.hand.msg.Ev?)
  }

  /** The same events at the same places, for every execution. */
  ghost predicate SamePlaces(s: State, t: State) {
    && t.issued == s.issued && t.wire == s.wire
    && t.alwaysAck == s.alwaysAck && t.unsendable == s.unsendable && t.trimmed == s.trimmed && t.skipped == s.skipped
    && Back(t) == Back(s)
    && HandOf(t, FromQueue) + Evs(t.carry) == HandOf(s, FromQueue) + Evs(s.carry)
    && HandOf(t, FromReplay) + Todo(t) == HandOf(s, FromReplay) + Todo(s)
    && Unsent(t) == Unsent(s) && Recorded(t) == Recorded(s)
    && t.loop.Up? == s.loop.Up?
    && (s.loop.Up? ==> t.loop.sentUpTo == s.loop.sentUpTo && t.loop.lastWrite == s.loop.lastWrite)
    && Asks(s) <= Asks(t)
  }

  lemma PumpSendPasses(s: State)
    requires Can(s, PumpSend)
    ensures SamePlaces(s, Do(s, PumpSend))
  {
    EvsAppend(s.outChan, [s.pump.value]);
    assert Evs([s.pump.value]) == MsgEv(s.pump.value);
  }

  lemma PumpTakePasses(s: State)
    requires Can(s, PumpTake)
    ensures SamePlaces(s, Do(s, PumpTake))
  {
    if s.replies == [] {
      assert s.items == [s.items[0]] + s.items[1..];
    }
  }

  lemma QueuePasses(s: State, a: Action)
    requires Can(s, a) && (a.Push? || a.PushReply? || a.Tick?)
    ensures SamePlaces(s, Do(s, a))
  {
  }

  lemma TakeReplayPasses(s: State)
    requires Can(s, TakeNext) && LoopOk(s) && s.loop.todo != []
    ensures SamePlaces(s, Do(s, TakeNext))
  {
    assert s.loop.todo == [s.loop.todo[0]] + s.loop.todo[1..];
  }

  lemma TakeCarryPasses(s: State)
    requires Can(s, TakeNext) && LoopOk(s) && s.loop.todo == [] && s.carry != []
    ensures SamePlaces(s, Do(s, TakeNext))
  {
  }

  lemma TakeReplyPasses(s: State)
    requires Can(s, TakeNext) && LoopOk(s) && s.loop.todo == [] && s.carry == [] && !s.outChan[0].Ev?
    ensures SamePlaces(s, Do(s, TakeNext))
  {
  }

  lemma TakePasses(s: State)
    requires Can(s, TakeNext) && LoopOk(s) && Passes(s, TakeNext)
    ensures SamePlaces(s, Do(s, TakeNext))
  {
    if s.loop.todo != [] {
      TakeReplayPasses(s);
    } else if s.carry != [] {
      TakeCarryPasses(s);
    } else {
      TakeReplyPasses(s);
    }
  }

  lemma LoopPasses(s: State, a: Action)
    requires Can(s, a) && Passes(s, a) && LoopOk(s)
    requires a.BeginSend? || a.FireTimer? || a.AskDone? || a.AskRun? || a.WriteOk? || a.GiveUp?
    ensures SamePlaces(s, Do(s, a))
  {
    if a.BeginSend? {
      SendPasses(s);
    } else if a.WriteOk? || a.GiveUp? {
      NoEventPasses(s, a);
    } else {
      TimerPasses(s, a);
    }
  }

  lemma SendPasses(s: State)
    requires Can(s, BeginSend) && LoopOk(s)
    ensures SamePlaces(s, Do(s, BeginSend))
  {
  }

  lemma NoEventPasses(s: State, a: Action)
    requires Can(s, a) && Passes(s, a) && LoopOk(s) && (a.WriteOk? || a.GiveUp?)
    ensures SamePlaces(s, Do(s, a))
  {
  }

  lemma TimerPasses(s: State, a: Action)
    requires Can(s, a) && Passes(s, a) && LoopOk(s) && (a.FireTimer? || a.AskDone? || a.AskRun?)
    ensures SamePlaces(s, Do(s, a))
  {
  }

  lemma SamePlacesKeepRun(s: State, t: State, r: RunId)
    requires r in s.log.runs && ViewInv(ViewOf(s, r)) && SamePlaces(s, t)
    requires r in t.log.runs && t.log.runs[r] == s.log.runs[r]
    requires StaleOnWay(t, r, s.log.runs[r].exec) ==> StaleOnWay(s, r, s.log.runs[r].exec)
    ensures ViewInv(ViewOf(t, r))
  {
    ElsewhereInv(ViewOf(s, r), ViewOf(t, r));
  }

  lemma PassesStay(s: State, a: Action)
    requires Can(s, a) && Passes(s, a) && LoopOk(s)
    ensures SamePlaces(s, Do(s, a))
  {
    if a.TakeNext? {
      TakePasses(s);
    } else if a.BeginSend? || a.FireTimer? || a.AskDone? || a.AskRun? || a.WriteOk? || a.GiveUp? {
      LoopPasses(s, a);
    } else if a.PumpSend? {
      PumpSendPasses(s);
    } else if a.PumpTake? {
      PumpTakePasses(s);
    } else {
      QueuePasses(s, a);
    }
  }

  lemma PassesKeepsRun(s: State, a: Action, r: RunId)
    requires Inv(s) && Can(s, a) && Passes(s, a) && Live(Do(s, a), r)
    ensures ViewInv(ViewOf(Do(s, a), r))
  {
    StillLive(s, a, r);
    StaleFrom(s, a, r, s.log.runs[r].exec);
    PassesStay(s, a);
    LogStep(s, a);
    SamePlacesKeepRun(s, Do(s, a), r);
  }

  /** No step but a dispatch makes an event stale. */
  lemma StaleFrom(s: State, a: Action, r: RunId, x: ExecId)
    requires Struct(s) && Can(s, a) && Names(s.log, r, x)
    ensures StaleOnWay(Do(s, a), r, x) ==> StaleOnWay(s, r, x)
  {
    if StaleOnWay(Do(s, a), r, x) {
      var e :| OnWay(Do(s, a), e) && e.run == r && e.exec != x;
      OnWayFrom(s, a, e);
      if a.StartLoop? {
        ReplayMembers(s.log, a.order);
      }
    }
  }

  // ---------------------------------------------------------------- numbering and dispatching

  /** The state in which run `r` has just got a new log. */
  ghost function WithRun(s: State, r: RunId, x: ExecId, now: int): State {
    s.(log := s.log.(runs := s.log.runs[r := NewRun(x, now)]))
  }

  /** Of an execution there never was, there is nothing anywhere. */
  lemma NewRunInv(s: State, r: RunId, x: ExecId, now: int)
    requires Struct(s) && (r, x) !in s.used
    ensures ViewInv(ViewOf(WithRun(s, r, x, now), r))
  {
    var t := WithRun(s, r, x, now);
    EvsMember(s.carry);
    EvsMember(s.outChan);
    PickNone(s.issued, r, x);
    PickNone(HandOf(s, FromQueue) + Evs(s.carry), r, x);
    PickNone(Back(s), r, x);
    PickNone(HandOf(s, FromReplay) + Todo(s), r, x);
    PickNone(Unsent(s), r, x);
    PickNone(s.wire, r, x);
    PickNone(Recorded(s), r, x);
    assert forall e :: e in Back(s) ==> OnWay(s, e);
    UntouchedInv(ViewOf(t, r));
  }

  lemma StaleFirstAppend(evs: seq<Event>, e: Event, r: RunId, x: ExecId)
    requires StaleFirst(evs, r, x) && (e.run == r ==> e.exec == x)
    ensures StaleFirst(evs + [e], r, x)
  {
  }

  /** Event `e` is numbered and goes to the end of the line. */
  ghost predicate NumberStep(s: State, t: State, e: Event) {
    && s.sender.None? && e.run in t.log.runs
    && t == s.(log := s.log.(runs := s.log.runs[e.run := t.log.runs[e.run]]), sender := Some(e),
               issued := s.issued + [e], used := t.used)
  }

  lemma NumberQueues(s: State, t: State, e: Event)
    requires NumberStep(s, t, e)
    ensures Back(t) == Back(s) + [e]
    ensures Unsent(t) == Unsent(s) && Recorded(t) == Recorded(s) && Asks(t) == Asks(s)
    ensures HandOf(t, FromQueue) == HandOf(s, FromQueue)
    ensures HandOf(t, FromReplay) + Todo(t) == HandOf(s, FromReplay) + Todo(s)
  {
  }

  lemma NumberView(s: State, t: State, r: RunId, e: Event)
    requires r in s.log.runs && NumberStep(s, t, e) && t.log.runs[r].exec == s.log.runs[r].exec
    ensures
      var x := s.log.runs[r].exec;
      ViewOf(t, r) == ViewOf(s, r).(
        rs := t.log.runs[r],
        iss := Pick(s.issued, r, x) + Pick([e], r, x),
        back := Pick(Back(s), r, x) + Pick([e], r, x),
        stale := StaleOnWay(t, r, x),
        staleFirst := StaleFirst(Back(s) + [e], r, x))
  {
    var x := s.log.runs[r].exec;
    NumberQueues(s, t, e);
    PickAppend(s.issued, [e], r, x);
    PickAppend(Back(s), [e], r, x);
  }

  lemma NumberKeepsOwn(s: State, t: State, r: RunId, e: Event)
    requires r in s.log.runs && ViewInv(ViewOf(s, r)) && NumberStep(s, t, e) && Of(e, r, s.log.runs[r].exec)
    requires forall e :: e in s.skipped ==> e in s.issued
    requires StaleOnWay(t, r, s.log.runs[r].exec) ==> StaleOnWay(s, r, s.log.runs[r].exec)
    requires e.num == s.log.runs[r].nextSeq + 1
    requires t.log.runs[r] == s.log.runs[r].(nextSeq := e.num, touched := t.log.runs[r].touched)
    ensures ViewInv(ViewOf(t, r))
  {
    var x := s.log.runs[r].exec;
    NumberView(s, t, r, e);
    StaleFirstAppend(Back(s), e, r, x);
    assert Pick([e], r, x) == [e];
    PickMember(s.issued, r, x);
    NumberIsNew(ViewOf(s, r), e);
    NumberedInv(ViewOf(s, r), ViewOf(t, r), e);
  }

  lemma NumberIsNew(v: View, e: Event)
    requires Numbered(v) && e.num == v.rs.nextSeq + 1
    ensures e !in v.iss
  {
  }

  lemma NumberKeepsOther(s: State, t: State, r: RunId, e: Event)
    requires r in s.log.runs && ViewInv(ViewOf(s, r)) && NumberStep(s, t, e) && e.run != r
    requires StaleOnWay(t, r, s.log.runs[r].exec) ==> StaleOnWay(s, r, s.log.runs[r].exec)
    ensures ViewInv(ViewOf(t, r))
  {
    var x := s.log.runs[r].exec;
    NumberView(s, t, r, e);
    StaleFirstAppend(Back(s), e, r, x);
    assert Pick([e], r, x) == [];
    ElsewhereInv(ViewOf(s, r), ViewOf(t, r));
  }

  /** Numbering the first event of a run makes the run first. */
  lemma NumberAfterNew(s: State, a: Action)
    requires Can(s, a) && a.Number? && a.msg.run !in s.log.runs
    ensures
      var t, r := Do(s, a), a.msg.run;
      && r in t.log.runs && t.sender.Some? && t.sender.value.run == r
      && var u, e := WithRun(s, r, t.log.runs[r].exec, s.clock), t.sender.value;
         && NumberStep(u, t, e) && e.exec == u.log.runs[r].exec && e.num == u.log.runs[r].nextSeq + 1
         && t.log.runs[r] == u.log.runs[r].(nextSeq := e.num, touched := t.log.runs[r].touched)
  {
    var t, r := Do(s, a), a.msg.run;
    var u, e := WithRun(s, r, t.log.runs[r].exec, s.clock), t.sender.value;
    assert t.log.runs == u.log.runs[r := t.log.runs[r]];
  }

  /** The event numbered is of the run's current execution, so it makes nothing stale. */
  lemma NumberStale(s: State, t: State, r: RunId, e: Event)
    requires NumberStep(s, t, e) && r in s.log.runs && Of(e, r, s.log.runs[r].exec)
    ensures StaleOnWay(t, r, e.exec) ==> StaleOnWay(s, r, e.exec)
  {
    assert forall y :: OnWay(t, y) ==> y == e || OnWay(s, y);
  }

  lemma NumberNewRun(s: State, a: Action, r: RunId)
    requires Struct(s) && Can(s, a) && a.Number? && a.msg.run == r && r !in s.log.runs && Live(Do(s, a), r)
    ensures ViewInv(ViewOf(Do(s, a), r))
  {
    var t := Do(s, a);
    var x := t.log.runs[r].exec;
    NewRunInv(s, r, x, s.clock);
    NumberAfterNew(s, a);
    NumberStale(WithRun(s, r, x, s.clock), t, r, t.sender.value);
    NumberKeepsOwn(WithRun(s, r, x, s.clock), t, r, t.sender.value);
  }

  lemma NumberKeeps(s: State, a: Action, r: RunId)
    requires Inv(s) && Can(s, a) && a.Number? && !Refused(s.log, a.msg) && Live(Do(s, a), r)
    ensures ViewInv(ViewOf(Do(s, a), r))
  {
    if a.msg.run == r && r !in s.log.runs {
      NumberNewRun(s, a, r);
    } else {
      StillLive(s, a, r);
      StaleFrom(s, a, r, s.log.runs[r].exec);
      if a.msg.run == r {
        NumberKeepsOwn(s, Do(s, a), r, Do(s, a).sender.value);
      } else {
        NumberKeepsOther(s, Do(s, a), r, Do(s, a).sender.value);
      }
    }
  }

  /** The step only changes the log, and not what it says of run `r`. */
  lemma LogOnly(s: State, t: State, r: RunId)
    requires r in s.log.runs && ViewInv(ViewOf(s, r))
    requires t == s.(log := t.log, used := t.used, past := t.past)
    requires r in t.log.runs && t.log.runs[r] == s.log.runs[r]
    ensures ViewInv(ViewOf(t, r))
  {
    assert ViewOf(t, r) == ViewOf(s, r);
  }

  lemma DispatchKeeps(s: State, a: Action, r: RunId)
    requires Inv(s) && Can(s, a) && a.Dispatch? && Live(Do(s, a), r)
    ensures ViewInv(ViewOf(Do(s, a), r))
  {
    if a.r == r {
      NewRunInv(s, r, a.newId, s.clock);
      LogOnly(WithRun(s, r, a.newId, s.clock), Do(s, a), r);
    } else {
      StillLive(s, a, r);
      LogOnly(s, Do(s, a), r);
    }
  }

  // ---------------------------------------------------------------- acks, collections, connections

  lemma AckedView(s: State, t: State, r: RunId, n: nat)
    requires r in s.log.runs
    requires t == s.(log := s.log.(runs := s.log.runs[r := AckedRun(s.log.runs[r], n, s.clock)]))
    ensures ViewOf(t, r) == ViewOf(s, r).(rs := t.log.runs[r])
  {
    LogPlaces(s, t);
  }

  /** A change of the log moves nothing. */
  lemma LogPlaces(s: State, t: State)
    requires t == s.(log := t.log)
    ensures Back(t) == Back(s) && Unsent(t) == Unsent(s) && Recorded(t) == Recorded(s) && Asks(t) == Asks(s)
    ensures HandOf(t, FromQueue) == HandOf(s, FromQueue)
    ensures HandOf(t, FromReplay) + Todo(t) == HandOf(s, FromReplay) + Todo(s)
    ensures forall r, x :: StaleOnWay(t, r, x) == StaleOnWay(s, r, x)
  {
    forall e
      ensures OnWay(t, e) <==> OnWay(s, e)
    {
    }
  }

  lemma AckedRunKeeps(s: State, t: State, r: RunId, n: nat)
    requires r in s.log.runs && ViewInv(ViewOf(s, r))
    requires t == s.(log := s.log.(runs := s.log.runs[r := AckedRun(s.log.runs[r], n, s.clock)]))
    ensures ViewInv(ViewOf(t, r))
  {
    AckedView(s, t, r, n);
    AckedInv(ViewOf(s, r), ViewOf(t, r), n);
  }

  lemma AckKeeps(s: State, a: Action, r: RunId)
    requires Inv(s) && Can(s, a) && a.AckArrives? && Live(Do(s, a), r)
    ensures ViewInv(ViewOf(Do(s, a), r))
  {
    StillLive(s, a, r);
    AckStepKeeps(s, Do(s, a), r, a.r, a.x, a.n);
  }

  lemma AckStepKeeps(s: State, t: State, r: RunId, q: RunId, x: ExecId, n: nat)
    requires r in s.log.runs && ViewInv(ViewOf(s, r)) && t == s.(log := Ack(s.log, q, x, n, s.clock))
    ensures r in t.log.runs && ViewInv(ViewOf(t, r))
  {
    if q == r && Names(s.log, r, x) {
      AckedRunKeeps(s, t, r, n);
    } else {
      LogOnly(s, t, r);
    }
  }

  lemma CollectKeeps(s: State, a: Action, r: RunId)
    requires Inv(s) && Can(s, a) && a.Collect? && Live(Do(s, a), r)
    ensures ViewInv(ViewOf(Do(s, a), r))
  {
    StillLive(s, a, r);
    LogOnly(s, Do(s, a), r);
  }

  /** A new connection only ends what there was of the old one. */
  lemma ConnectPlaces(s: State, t: State)
    requires s.loop.Down? && t == s.(log := t.log, loop := Starting, wire := [], asked := {}, alwaysAck := t.alwaysAck)
    ensures Back(t) == Back(s)
    ensures HandOf(t, FromQueue) + Evs(t.carry) == HandOf(s, FromQueue) + Evs(s.carry)
    ensures HandOf(t, FromReplay) + Todo(t) == Unsent(t) == Recorded(t) == []
  {
  }

  lemma ConnectView(s: State, acks: bool, r: RunId)
    requires Can(s, Connect(acks)) && r in s.log.runs
    ensures
      var v, t := ViewOf(s, r), Do(s, Connect(acks));
      && r in t.log.runs && t.log.runs[r] == (if acks then s.log.runs[r] else s.log.runs[r].(unacked := []))
      && var w := ViewOf(t, r);
         w == v.(rs := w.rs, replay := [], replayAll := [], wire := [], recorded := [], up := false,
                 stale := w.stale, mark := w.mark, waiting := w.waiting, asks := w.asks,
                 alwaysAck := v.alwaysAck && acks)
  {
    ConnectPlaces(s, Do(s, Connect(acks)));
  }

  lemma ConnectKeeps(s: State, a: Action, r: RunId)
    requires Inv(s) && Can(s, a) && a.Connect? && Live(Do(s, a), r)
    ensures ViewInv(ViewOf(Do(s, a), r))
  {
    StillLive(s, a, r);
    StaleFrom(s, a, r, s.log.runs[r].exec);
    ConnectView(s, a.acks, r);
    ConnectedInv(ViewOf(s, r), ViewOf(Do(s, a), r), a.acks);
  }

  lemma StartLoopView(s: State, t: State, r: RunId, todo: seq<Event>)
    requires r in s.log.runs && s.loop.Starting? && s.wire == []
    requires t == s.(loop := Up(todo, Empty, map[], map[], None, NotAsking))
    ensures
      var x := s.log.runs[r].exec;
      ViewOf(t, r) == ViewOf(s, r).(
        replay := Pick(todo, r, x), replayAll := Pick(todo, r, x), up := true, stale := StaleOnWay(t, r, x))
  {
    StartLoopPlaces(s, t, todo);
  }

  lemma StartLoopPlaces(s: State, t: State, todo: seq<Event>)
    requires s.loop.Starting? && s.wire == [] && t == s.(loop := Up(todo, Empty, map[], map[], None, NotAsking))
    ensures HandOf(t, FromReplay) + Todo(t) == todo == Unsent(t)
    ensures Back(t) == Back(s) && Recorded(t) == Recorded(s) == [] && Asks(t) == Asks(s)
    ensures HandOf(t, FromQueue) + Evs(t.carry) == HandOf(s, FromQueue) + Evs(s.carry)
  {
  }

  lemma StartLoopKeepsRun(s: State, t: State, r: RunId, order: seq<RunId>)
    requires r in s.log.runs && ViewInv(ViewOf(s, r)) && DeliverySpec.Valid(s.log)
    requires s.loop.Starting? && s.wire == [] && ReplayOrder(s.log, order)
    requires t == s.(loop := Up(Replay(s.log, order), Empty, map[], map[], None, NotAsking))
    requires StaleOnWay(t, r, s.log.runs[r].exec) ==> StaleOnWay(s, r, s.log.runs[r].exec)
    ensures ViewInv(ViewOf(t, r))
  {
    PickReplay(s.log, order, r, s.log.runs[r].exec);
    StartLoopView(s, t, r, Replay(s.log, order));
    StartedInv(ViewOf(s, r), ViewOf(t, r));
  }

  lemma StartLoopKeeps(s: State, a: Action, r: RunId)
    requires Inv(s) && Can(s, a) && a.StartLoop? && Live(Do(s, a), r)
    ensures ViewInv(ViewOf(Do(s, a), r))
  {
    StillLive(s, a, r);
    StaleFrom(s, a, r, s.log.runs[r].exec);
    StartLoopKeepsRun(s, Do(s, a), r, a.order);
  }

  /** The write loop ends with nothing from the queue in its hand. */
  lemma LoopEnds(s: State, t: State, r: RunId)
    requires r in s.log.runs && ViewInv(ViewOf(s, r))
    requires s.loop.Up? && !HandAt(s, OnWire) && HandOf(s, FromQueue) == []
    requires t == s.(loop := Down)
    ensures ViewInv(ViewOf(t, r))
  {
    EndedInv(ViewOf(s, r), ViewOf(t, r));
  }

  lemma DoneKeeps(s: State, a: Action, r: RunId)
    requires Inv(s) && Can(s, a) && a.ConnectionDone? && Live(Do(s, a), r)
    ensures ViewInv(ViewOf(Do(s, a), r))
  {
    StillLive(s, a, r);
    StaleFrom(s, a, r, s.log.runs[r].exec);
    if s.loop.Up? {
      LoopEnds(s, Do(s, a), r);
    } else {
      StartingEnds(s, Do(s, a), r);
    }
  }

  lemma StartingEnds(s: State, t: State, r: RunId)
    requires r in s.log.runs && ViewInv(ViewOf(s, r)) && s.loop.Starting? && t == s.(loop := Down)
    ensures ViewInv(ViewOf(t, r))
  {
    StaleSub(s, t, r, s.log.runs[r].exec);
    StaleSub(t, s, r, s.log.runs[r].exec);
    StartingPlaces(s, t);
    assert ViewOf(t, r) == ViewOf(s, r);
  }

  lemma StartingPlaces(s: State, t: State)
    requires s.loop.Starting? && t == s.(loop := Down)
    ensures HandOf(t, FromReplay) + Todo(t) == [] == HandOf(s, FromReplay) + Todo(s)
    ensures HandOf(t, FromQueue) + Evs(t.carry) == HandOf(s, FromQueue) + Evs(s.carry)
    ensures Back(t) == Back(s) && Recorded(t) == Recorded(s) && Asks(t) == Asks(s) && Unsent(t) == Unsent(s)
  {
  }

  // ---------------------------------------------------------------- asking for acks

  lemma AskView(s: State, t: State, r: RunId, q: RunId)
    requires r in s.log.runs && LoopOk(s) && Can(s, AskRun(q))
    requires s.loop.ask.now - s.loop.lastWrite[q] >= ACK_DELAY && t == DoAskRun(s, q)
    ensures
      var v, w := ViewOf(s, r), ViewOf(t, r);
      w == v.(waiting := w.waiting, asks := w.asks, stale := w.stale) && (w.stale ==> v.stale)
  {
    var x := s.log.runs[r].exec;
    if StaleOnWay(t, r, x) {
      var e :| OnWay(t, e) && e.run == r && e.exec != x;
      assert OnWay(s, e);
    }
  }

  /** The run looked at no longer waits, and its request is being written if there is one. */
  lemma AskOwn(s: State, t: State, r: RunId)
    requires r in s.log.runs && LoopOk(s) && Can(s, AskRun(r))
    requires s.loop.ask.now - s.loop.lastWrite[r] >= ACK_DELAY && t == DoAskRun(s, r)
    ensures
      var v, w := ViewOf(s, r), ViewOf(t, r);
      && !w.waiting && v.asks <= w.asks && v.mark.Some?
      && (AckWanted(s.log, r, v.mark.value.exec, v.mark.value.num) ==>
            AskAck(r, v.mark.value.exec, v.mark.value.num) in w.asks)
  {
  }

  lemma AskOther(s: State, t: State, r: RunId, q: RunId)
    requires r in s.log.runs && LoopOk(s) && Can(s, AskRun(q)) && q != r
    requires s.loop.ask.now - s.loop.lastWrite[q] >= ACK_DELAY && t == DoAskRun(s, q)
    ensures ViewOf(t, r).waiting == ViewOf(s, r).waiting && ViewOf(s, r).asks <= ViewOf(t, r).asks
  {
  }

  lemma AskKeepsRun(s: State, t: State, r: RunId, q: RunId)
    requires r in s.log.runs && ViewInv(ViewOf(s, r)) && LoopOk(s) && Can(s, AskRun(q))
    requires s.loop.ask.now - s.loop.lastWrite[q] >= ACK_DELAY && t == DoAskRun(s, q)
    ensures ViewInv(ViewOf(t, r))
  {
    AskView(s, t, r, q);
    if q == r {
      PickMember(s.issued, r, s.log.runs[r].exec);
      AskOwn(s, t, r);
      AskedInv(ViewOf(s, r), ViewOf(t, r), r);
    } else {
      AskOther(s, t, r, q);
      ElsewhereInv(ViewOf(s, r), ViewOf(t, r));
    }
  }

  lemma AskKeeps(s: State, a: Action, r: RunId)
    requires Inv(s) && Can(s, a) && a.AskRun? && !Passes(s, a) && Live(Do(s, a), r)
    ensures ViewInv(ViewOf(Do(s, a), r))
  {
    StillLive(s, a, r);
    AskKeepsRun(s, Do(s, a), r, a.r);
  }

  // ---------------------------------------------------------------- the write loop

  /** The write loop takes the front of the queue, with nothing in carry. */
  lemma QueueTakenPlaces(s: State, t: State, e: Event)
    requires AtSelect(s) && s.carry == [] && s.outChan != [] && s.outChan[0] == Ev(e)
    requires t == s.(outChan := s.outChan[1..], loop := s.loop.(hand := Holding(Ev(e), FromQueue, Taken)))
    ensures Back(s) == [e] + Back(t)
    ensures HandOf(t, FromQueue) + Evs(t.carry) == [e] && HandOf(s, FromQueue) + Evs(s.carry) == []
    ensures HandOf(t, FromReplay) + Todo(t) == HandOf(s, FromReplay) + Todo(s)
    ensures Unsent(t) == Unsent(s)
  {
  }

  lemma QueueTaken(s: State, t: State, r: RunId, e: Event)
    requires r in s.log.runs && ViewInv(ViewOf(s, r))
    requires AtSelect(s) && s.carry == [] && s.outChan != [] && s.outChan[0] == Ev(e)
    requires t == s.(outChan := s.outChan[1..], loop := s.loop.(hand := Holding(Ev(e), FromQueue, Taken)))
    requires StaleOnWay(t, r, s.log.runs[r].exec) ==> StaleOnWay(s, r, s.log.runs[r].exec)
    ensures ViewInv(ViewOf(t, r))
  {
    QueueTakenPlaces(s, t, e);
    StaleFirstRest(e, Back(t), r, s.log.runs[r].exec);
    if Of(e, r, s.log.runs[r].exec) {
      NothingStaleBehind(s, t, r, e);
      TakenInv(ViewOf(s, r), ViewOf(t, r), e);
    } else {
      ElsewhereInv(ViewOf(s, r), ViewOf(t, r));
    }
  }

  lemma StaleFirstRest(e: Event, rest: seq<Event>, r: RunId, x: ExecId)
    requires StaleFirst([e] + rest, r, x)
    ensures StaleFirst(rest, r, x)
  {
    assert forall i :: 0 <= i < |rest| ==> rest[i] == ([e] + rest)[i + 1];
  }

  /** Behind an event of the current execution nothing is stale. */
  lemma NothingStaleBehind(s: State, t: State, r: RunId, e: Event)
    requires r in s.log.runs && Of(e, r, s.log.runs[r].exec)
    requires Back(s) == [e] + Back(t) && StaleFirst(Back(s), r, s.log.runs[r].exec)
    requires t.loop.Up? && t.loop.todo == [] && t.loop.hand.Holding? && t.loop.hand.msg == Ev(e) && t.carry == []
    ensures !StaleOnWay(t, r, s.log.runs[r].exec)
  {
    EvsMember(t.outChan);
    forall y | OnWay(t, y) && y.run == r
      ensures y.exec == s.log.runs[r].exec
    {
      if y != e {
        assert y in Back(t);
        var k :| 0 <= k < |Back(t)| && Back(t)[k] == y;
        assert Back(s)[0] == e && Back(s)[k + 1] == y;
      }
    }
  }

  lemma TakeKeeps(s: State, a: Action, r: RunId)
    requires Inv(s) && Can(s, a) && a.TakeNext? && !Passes(s, a) && Live(Do(s, a), r)
    ensures ViewInv(ViewOf(Do(s, a), r))
  {
    StillLive(s, a, r);
    StaleFrom(s, a, r, s.log.runs[r].exec);
    QueueTaken(s, Do(s, a), r, s.outChan[0].ev);
  }

  /** An event in the loop's hand is the only one of its execution in front of the queue. */
  lemma HandIsFront(s: State, r: RunId, e: Event)
    requires r in s.log.runs && ViewInv(ViewOf(s, r))
    requires HandOf(s, FromQueue) == [e] && Of(e, r, s.log.runs[r].exec)
    ensures ViewOf(s, r).front == [e] && Pick(Evs(s.carry), r, s.log.runs[r].exec) == []
  {
    var x := s.log.runs[r].exec;
    PickAppend([e], Evs(s.carry), r, x);
    assert Pick([e], r, x) == [e];
  }

  ghost predicate WriteStep(s: State, t: State, e: Event) {
    && HandAt(s, Sending) && s.loop.hand.msg == Ev(e) && LoopOk(s)
    && t == s.(wire := s.wire + [e], loop := s.loop.(hand := s.loop.hand.(stage := OnWire)))
  }

  lemma WriteRecorded(s: State, t: State, r: RunId, e: Event)
    requires r in s.log.runs && WriteStep(s, t, e)
    ensures Recorded(t) == Recorded(s) == s.wire
    ensures
      if s.loop.hand.src.FromReplay? then Unsent(s) == [e] + Unsent(t) else Unsent(s) == Unsent(t) == []
  {
  }

  lemma WriteView(s: State, t: State, r: RunId, e: Event)
    requires r in s.log.runs && WriteStep(s, t, e)
    ensures
      var x, v, w := s.log.runs[r].exec, ViewOf(s, r), ViewOf(t, r);
      w == v.(wire := v.wire + Pick([e], r, x), replay := w.replay, stale := w.stale) && v.recorded == v.wire
  {
    PickAppend(s.wire, [e], r, s.log.runs[r].exec);
    WriteRecorded(s, t, r, e);
  }

  lemma WriteReplayView(s: State, t: State, r: RunId, e: Event)
    requires r in s.log.runs && WriteStep(s, t, e)
    ensures
      var x, v, w := s.log.runs[r].exec, ViewOf(s, r), ViewOf(t, r);
      if s.loop.hand.src.FromReplay? then v.replay == Pick([e], r, x) + w.replay else v.replay == w.replay == []
  {
    WriteRecorded(s, t, r, e);
    if s.loop.hand.src.FromReplay? {
      PickAppend([e], Unsent(t), r, s.log.runs[r].exec);
    }
  }

  lemma EventWritten(s: State, t: State, r: RunId, e: Event)
    requires r in s.log.runs && ViewInv(ViewOf(s, r)) && WriteStep(s, t, e) && e in s.issued
    requires StaleOnWay(t, r, s.log.runs[r].exec) ==> StaleOnWay(s, r, s.log.runs[r].exec)
    ensures ViewInv(ViewOf(t, r))
  {
    var x := s.log.runs[r].exec;
    WriteView(s, t, r, e);
    WriteReplayView(s, t, r, e);
    if !Of(e, r, x) {
      assert Pick([e], r, x) == [];
      ElsewhereInv(ViewOf(s, r), ViewOf(t, r));
    } else if s.loop.hand.src.FromReplay? {
      assert Pick([e], r, x) == [e];
      PickMember(s.issued, r, x);
      ReplayWrittenInv(ViewOf(s, r), ViewOf(t, r), e);
    } else {
      assert Pick([e], r, x) == [e];
      PickMember(s.issued, r, x);
      HandIsFront(s, r, e);
      QueueWrittenInv(ViewOf(s, r), ViewOf(t, r), e);
    }
  }

  lemma WriteOkKeeps(s: State, a: Action, r: RunId)
    requires Inv(s) && Can(s, a) && a.WriteOk? && !Passes(s, a) && Live(Do(s, a), r)
    ensures ViewInv(ViewOf(Do(s, a), r))
  {
    StillLive(s, a, r);
    StaleFrom(s, a, r, s.log.runs[r].exec);
    assert OnWay(s, s.loop.hand.msg.ev);
    EventWritten(s, Do(s, a), r, s.loop.hand.msg.ev);
  }

  // ---------------------------------------------------------------- the bookkeeping of a write

  /** The loop's hand is emptied of event `e`; the log says what became of it. */
  ghost predicate HandStep(s: State, t: State, e: Event, sent: bool) {
    && s.loop.Up? && s.loop.hand.Holding? && s.loop.hand.msg == Ev(e) && LoopOk(s)
    && t.loop.Up? && t.loop == s.loop.(hand := Empty, sentUpTo := t.loop.sentUpTo,
                                       lastWrite := t.loop.lastWrite, timer := t.loop.timer)
    && t == s.(loop := t.loop, log := WrittenLog(s, e, sent), unsendable := t.unsendable,
               overflowed := t.overflowed, trimmed := t.trimmed)
    && s.unsendable <= t.unsendable && s.trimmed <= t.trimmed
  }

  /** Only `e` leaves its place, the replay. */
  lemma ReplayHandView(s: State, t: State, r: RunId, e: Event, sent: bool)
    requires r in s.log.runs && HandStep(s, t, e, sent) && s.loop.hand.src.FromReplay?
    requires r in t.log.runs && t.log.runs[r].exec == s.log.runs[r].exec
    ensures
      var x, v, w := s.log.runs[r].exec, ViewOf(s, r), ViewOf(t, r);
      && w == v.(rs := t.log.runs[r], replay := w.replay, replayAll := w.replayAll,
                 recorded := v.wire, stale := w.stale, mark := w.mark, waiting := w.waiting,
                 unsendable := t.unsendable, trimmed := t.trimmed)
      && w.replay == w.replayAll && v.replayAll == Pick([e], r, x) + w.replayAll
      && (v.replay == w.replay || (!HandAt(s, OnWire) && v.replay == v.replayAll))
  {
    PickAppend([e], Todo(s), r, s.log.runs[r].exec);
    ReplayHandPlaces(s, t, e, sent);
  }

  lemma ReplayHandPlaces(s: State, t: State, e: Event, sent: bool)
    requires HandStep(s, t, e, sent) && s.loop.hand.src.FromReplay?
    ensures HandOf(t, FromReplay) + Todo(t) == Todo(s) == Unsent(t)
    ensures HandOf(s, FromReplay) + Todo(s) == [e] + Todo(s)
    ensures Unsent(s) == if HandAt(s, OnWire) then Todo(s) else [e] + Todo(s)
    ensures Back(t) == Back(s) && Recorded(t) == s.wire && Asks(t) == Asks(s)
    ensures HandOf(t, FromQueue) + Evs(t.carry) == HandOf(s, FromQueue) + Evs(s.carry)
  {
  }

  /** Only `e` leaves its place, the front of the queue. */
  lemma QueueHandView(s: State, t: State, r: RunId, e: Event, sent: bool)
    requires r in s.log.runs && HandStep(s, t, e, sent) && s.loop.hand.src.FromQueue?
    requires r in t.log.runs && t.log.runs[r].exec == s.log.runs[r].exec
    ensures
      var x, v, w := s.log.runs[r].exec, ViewOf(s, r), ViewOf(t, r);
      && w == v.(rs := t.log.runs[r], front := w.front, recorded := v.wire, stale := w.stale,
                 mark := w.mark, waiting := w.waiting, unsendable := t.unsendable, trimmed := t.trimmed)
      && v.front == Pick([e], r, x) + w.front && v.replayAll == v.replay == []
  {
    PickAppend([e], Evs(s.carry), r, s.log.runs[r].exec);
    assert HandOf(t, FromQueue) + Evs(t.carry) == Evs(s.carry);
    assert HandOf(s, FromReplay) + Todo(s) == [] == Unsent(s);
    assert HandOf(t, FromReplay) + Todo(t) == [] == Unsent(t);
  }

  lemma HandView(s: State, t: State, r: RunId, e: Event, sent: bool)
    requires r in s.log.runs && HandStep(s, t, e, sent) && !Of(e, r, s.log.runs[r].exec)
    ensures r in t.log.runs
    ensures
      var v, w := ViewOf(s, r), ViewOf(t, r);
      w == v.(recorded := v.wire, replay := v.replayAll, stale := w.stale, mark := w.mark, waiting := w.waiting,
              unsendable := t.unsendable, trimmed := t.trimmed)
      && (HandAt(s, OnWire) || v.recorded == v.wire)
      && v.replay == v.replayAll
  {
    assert Pick([e], r, s.log.runs[r].exec) == [];
    if s.loop.hand.src.FromReplay? {
      ReplayHandView(s, t, r, e, sent);
    } else {
      QueueHandView(s, t, r, e, sent);
    }
  }

  ghost predicate GiveUpStep(s: State, t: State, e: Event) {
    && HandStep(s, t, e, false) && HandAt(s, Sending)
    && t.loop.sentUpTo == s.loop.sentUpTo && t.loop.lastWrite == s.loop.lastWrite
  }

  /** An event of some other execution is given up on. */
  lemma OtherGivenUp(s: State, t: State, r: RunId, e: Event)
    requires r in s.log.runs && ViewInv(ViewOf(s, r)) && GiveUpStep(s, t, e) && !Of(e, r, s.log.runs[r].exec)
    requires StaleOnWay(t, r, s.log.runs[r].exec) ==> StaleOnWay(s, r, s.log.runs[r].exec)
    ensures ViewInv(ViewOf(t, r))
  {
    HandView(s, t, r, e, false);
    ElsewhereInv(ViewOf(s, r), ViewOf(t, r));
  }

  lemma ReplayGivenUp(s: State, t: State, r: RunId, e: Event)
    requires r in s.log.runs && ViewInv(ViewOf(s, r)) && GiveUpStep(s, t, e) && e in s.issued
    requires Of(e, r, s.log.runs[r].exec) && s.loop.hand.src.FromReplay? && e in t.unsendable
    requires StaleOnWay(t, r, s.log.runs[r].exec) ==> StaleOnWay(s, r, s.log.runs[r].exec)
    ensures ViewInv(ViewOf(t, r))
  {
    assert Pick([e], r, s.log.runs[r].exec) == [e];
    ReplayHandView(s, t, r, e, false);
    GivenUpReplay(ViewOf(s, r), ViewOf(t, r), e, s.log.enabled, s.clock);
  }

  lemma GivenUpReplay(v: View, w: View, e: Event, enabled: bool, now: int)
    requires ViewInv(v) && e.exec == v.rs.exec && v.replayAll == [e] + w.replayAll && w.replay == w.replayAll
    requires (v.replay == w.replay || v.replay == v.replayAll) && e in w.unsendable
    requires w == v.(rs := w.rs, replay := w.replay, replayAll := w.replayAll, recorded := v.recorded,
                     stale := w.stale, unsendable := w.unsendable, trimmed := w.trimmed)
    requires w.rs == WrittenRun(v.rs, e, enabled, false, now)
    requires (w.stale ==> v.stale) && v.unsendable <= w.unsendable && v.trimmed <= w.trimmed
    ensures ViewInv(w)
  {
    ReplayRecordedRun(v, e, enabled, false, now);
    ReplayDoneInv(v, w, e);
  }

  lemma QueueGivenUp(s: State, t: State, r: RunId, e: Event)
    requires r in s.log.runs && ViewInv(ViewOf(s, r)) && GiveUpStep(s, t, e) && e in s.issued
    requires Of(e, r, s.log.runs[r].exec) && s.loop.hand.src.FromQueue?
    requires t.trimmed == s.trimmed && e in t.unsendable
    requires StaleOnWay(t, r, s.log.runs[r].exec) ==> StaleOnWay(s, r, s.log.runs[r].exec)
    ensures ViewInv(ViewOf(t, r))
  {
    assert Pick([e], r, s.log.runs[r].exec) == [e];
    PickMember(s.issued, r, s.log.runs[r].exec);
    QueueHandView(s, t, r, e, false);
    HandIsFront(s, r, e);
    QueueGivenUpInv(ViewOf(s, r), ViewOf(t, r), e);
  }

  lemma GivenUp(s: State, t: State, r: RunId, e: Event)
    requires r in s.log.runs && ViewInv(ViewOf(s, r)) && GiveUpStep(s, t, e) && e in s.issued
    requires t.trimmed == s.trimmed && e in t.unsendable
    requires StaleOnWay(t, r, s.log.runs[r].exec) ==> StaleOnWay(s, r, s.log.runs[r].exec)
    ensures ViewInv(ViewOf(t, r))
  {
    if !Of(e, r, s.log.runs[r].exec) {
      OtherGivenUp(s, t, r, e);
    } else if s.loop.hand.src.FromReplay? {
      ReplayGivenUp(s, t, r, e);
    } else {
      QueueGivenUp(s, t, r, e);
    }
  }

  lemma GiveUpKeeps(s: State, a: Action, r: RunId)
    requires Inv(s) && Can(s, a) && a.GiveUp? && !Passes(s, a) && Live(Do(s, a), r)
    ensures ViewInv(ViewOf(Do(s, a), r))
  {
    StillLive(s, a, r);
    StaleFrom(s, a, r, s.log.runs[r].exec);
    assert OnWay(s, s.loop.hand.msg.ev);
    GivenUp(s, Do(s, a), r, s.loop.hand.msg.ev);
  }

  ghost predicate RecordStep(s: State, t: State, e: Event) {
    && HandStep(s, t, e, true) && HandAt(s, OnWire)
    && t.unsendable == s.unsendable && t.trimmed == s.trimmed + DroppedBy(s.log, e)
    && t.loop.sentUpTo == s.loop.sentUpTo[e.run := NextMark(s.loop, e)]
    && t.loop.lastWrite == s.loop.lastWrite[e.run := s.clock]
  }

  lemma RecordedMembers(s: State, r: RunId, e: Event)
    requires r in s.log.runs && LoopOk(s) && HandAt(s, OnWire) && s.loop.hand.msg == Ev(e)
    ensures
      var x, v := s.log.runs[r].exec, ViewOf(s, r);
      v.wire == v.recorded + Pick([e], r, x)
  {
    assert s.wire == s.wire[..|s.wire| - 1] + [e];
    PickAppend(s.wire[..|s.wire| - 1], [e], r, s.log.runs[r].exec);
  }

  /** An event of some other execution is recorded. */
  lemma OtherRecorded(s: State, t: State, r: RunId, e: Event)
    requires r in s.log.runs && ViewInv(ViewOf(s, r)) && RecordStep(s, t, e) && !Of(e, r, s.log.runs[r].exec)
    requires StaleOnWay(t, r, s.log.runs[r].exec) ==> StaleOnWay(s, r, s.log.runs[r].exec)
    ensures ViewInv(ViewOf(t, r))
  {
    var x := s.log.runs[r].exec;
    var v, w := ViewOf(s, r), ViewOf(t, r);
    HandView(s, t, r, e, true);
    RecordedMembers(s, r, e);
    assert Pick([e], r, x) == [];
    if e.run == r {
      assert OnWay(s, e);
      assert v.stale;
      NothingRecorded(v);
    }
    ElsewhereInv(v, w);
  }

  lemma HasMember(s: seq<Event>)
    ensures s != [] ==> exists e :: e in s
  {
    if s != [] {
      assert s[0] in s;
    }
  }

  /** While events of an earlier execution are on their way, none of this one is recorded. */
  lemma NothingRecorded(v: View)
    requires ViewInv(v) && v.stale
    ensures v.recorded == []
  {
    HasMember(v.recorded);
  }

  lemma ReplayRecorded(s: State, t: State, r: RunId, e: Event)
    requires r in s.log.runs && ViewInv(ViewOf(s, r)) && RecordStep(s, t, e) && e in s.issued
    requires Of(e, r, s.log.runs[r].exec) && s.loop.hand.src.FromReplay?
    requires StaleOnWay(t, r, s.log.runs[r].exec) ==> StaleOnWay(s, r, s.log.runs[r].exec)
    ensures ViewInv(ViewOf(t, r))
  {
    assert Pick([e], r, s.log.runs[r].exec) == [e];
    ReplayHandView(s, t, r, e, true);
    RecordedMembers(s, r, e);
    MarkView(s, t, r, e);
    RecordedReplay(ViewOf(s, r), ViewOf(t, r), e, s.log.enabled, s.clock);
  }

  lemma RecordedReplay(v: View, w: View, e: Event, enabled: bool, now: int)
    requires ViewInv(v) && e.exec == v.rs.exec
    requires v.replayAll == [e] + w.replayAll && v.replay == w.replay == w.replayAll
    requires v.wire == v.recorded + [e] && w.waiting && w.mark == Some(Advanced(v.mark, e))
    requires w == v.(rs := w.rs, replay := w.replay, replayAll := w.replayAll, recorded := v.wire,
                     stale := w.stale, mark := w.mark, waiting := w.waiting, unsendable := w.unsendable,
                     trimmed := w.trimmed)
    requires w.rs == WrittenRun(v.rs, e, enabled, true, now)
    requires (w.stale ==> v.stale) && v.unsendable <= w.unsendable && v.trimmed <= w.trimmed
    ensures ViewInv(w)
  {
    ReplayRecordedRun(v, e, enabled, true, now);
    ReplayDoneInv(v, w, e);
  }

  lemma QueueRecorded(s: State, t: State, r: RunId, e: Event)
    requires r in s.log.runs && ViewInv(ViewOf(s, r)) && RecordStep(s, t, e) && e in s.issued && LoopOk(s)
    requires Of(e, r, s.log.runs[r].exec) && s.loop.hand.src.FromQueue?
    requires StaleOnWay(t, r, s.log.runs[r].exec) ==> StaleOnWay(s, r, s.log.runs[r].exec)
    ensures ViewInv(ViewOf(t, r))
  {
    var x := s.log.runs[r].exec;
    var v, w := ViewOf(s, r), ViewOf(t, r);
    assert Pick([e], r, x) == [e];
    QueueHandView(s, t, r, e, true);
    RecordedMembers(s, r, e);
    MarkView(s, t, r, e);
    HandIsFront(s, r, e);
    PickMember(s.issued, r, x);
    HeadOfLine(v, e);
    assert e in v.iss;
    DroppedAreTrimmed(v, s.log, e, s.clock);
    QueueRecordedInv(v, w, e, s.log.enabled);
  }

  /** The run waits for its acks, up to the event just written. */
  lemma MarkLoop(s: State, t: State, e: Event)
    requires RecordStep(s, t, e)
    ensures t.loop.Up? && e.run in t.loop.lastWrite
    ensures MarkOf(t.loop, e.run) == Some(Advanced(MarkOf(s.loop, e.run), e))
  {
  }

  lemma MarkView(s: State, t: State, r: RunId, e: Event)
    requires r in s.log.runs && r in t.log.runs && RecordStep(s, t, e) && e.run == r
    ensures ViewOf(t, r).waiting
    ensures ViewOf(t, r).mark == Some(Advanced(ViewOf(s, r).mark, e))
  {
    MarkLoop(s, t, e);
  }

  /** What leaves the log when `e` is recorded is what the bound drops. */
  lemma DroppedAreTrimmed(v: View, l: LogState, e: Event, now: int)
    requires LogOk(v) && Names(l, e.run, e.exec) && l.runs[e.run] == v.rs
    ensures
      var rs := WrittenRun(v.rs, e, l.enabled, true, now);
      && (forall x :: x in v.rs.unacked && x !in rs.unacked ==> x in DroppedBy(l, e))
      && (l.enabled && e.num > v.rs.ackedSeq && e !in rs.unacked && e.num > v.rs.writtenSeq ==> e in DroppedBy(l, e))
  {
    InsertedFacts(v.rs.unacked, e);
  }

  lemma RecordKeeps(s: State, a: Action, r: RunId)
    requires Inv(s) && Can(s, a) && a.Record? && Live(Do(s, a), r)
    ensures ViewInv(ViewOf(Do(s, a), r))
  {
    StillLive(s, a, r);
    StaleFrom(s, a, r, s.log.runs[r].exec);
    var e := s.loop.hand.msg.ev;
    assert OnWay(s, e);
    if !Of(e, r, s.log.runs[r].exec) {
      OtherRecorded(s, Do(s, a), r, e);
    } else if s.loop.hand.src.FromReplay? {
      ReplayRecorded(s, Do(s, a), r, e);
    } else {
      QueueRecorded(s, Do(s, a), r, e);
    }
  }

  // ---------------------------------------------------------------- a failed write

  /** The write failed; the message is back in carry, and the loop about to end. */
  ghost predicate CarryStep(s: State, t: State) {
    && HandAt(s, Sending) && LoopOk(s) && !s.loop.hand.msg.AskAck?
    && t == s.(carry := s.carry + [s.loop.hand.msg], loop := s.loop.(hand := Empty, todo := []))
  }

  lemma {:induction false} PickSwap(a: seq<Event>, b: seq<Event>, r: RunId, x: ExecId)
    requires |Pick(a + b, r, x)| <= 1
    ensures Pick(b + a, r, x) == Pick(a + b, r, x)
  {
    PickAppend(a, b, r, x);
    PickAppend(b, a, r, x);
  }

  lemma QueueCarriedPlaces(s: State, t: State)
    requires CarryStep(s, t) && s.loop.hand.src.FromQueue?
    ensures HandOf(t, FromQueue) + Evs(t.carry) == Evs(s.carry) + MsgEv(s.loop.hand.msg)
    ensures HandOf(s, FromQueue) + Evs(s.carry) == MsgEv(s.loop.hand.msg) + Evs(s.carry)
    ensures HandOf(t, FromReplay) + Todo(t) == [] == HandOf(s, FromReplay) + Todo(s)
    ensures Unsent(t) == [] == Unsent(s)
    ensures Back(t) == Back(s) && Recorded(t) == Recorded(s) && Asks(t) == Asks(s)
  {
    EvsAppend(s.carry, [s.loop.hand.msg]);
    assert Evs([s.loop.hand.msg]) == MsgEv(s.loop.hand.msg);
  }

  /** A message from the queue goes to the back of carry: no run has more than one event there. */
  lemma QueueCarried(s: State, t: State, r: RunId)
    requires r in s.log.runs && ViewInv(ViewOf(s, r)) && CarryStep(s, t) && s.loop.hand.src.FromQueue?
    requires StaleOnWay(t, r, s.log.runs[r].exec) ==> StaleOnWay(s, r, s.log.runs[r].exec)
    ensures ViewInv(ViewOf(t, r))
  {
    var msg := s.loop.hand.msg;
    PickSwap(MsgEv(msg), Evs(s.carry), r, s.log.runs[r].exec);
    QueueCarriedPlaces(s, t);
    ElsewhereInv(ViewOf(s, r), ViewOf(t, r));
  }

  /** A replayed event that is no longer kept is of no current execution. */
  lemma ReplayCarried(s: State, t: State, r: RunId, e: Event)
    requires r in s.log.runs && ViewInv(ViewOf(s, r)) && CarryStep(s, t) && s.loop.hand.src.FromReplay?
    requires s.loop.hand.msg == Ev(e) && !Kept(s.log, e)
    requires StaleOnWay(t, r, s.log.runs[r].exec) ==> StaleOnWay(s, r, s.log.runs[r].exec)
    ensures ViewInv(ViewOf(t.(loop := Down), r))
  {
    var x := s.log.runs[r].exec;
    PickAppend([e], Todo(s), r, x);
    var v := ViewOf(s, r);
    assert Of(e, r, x) ==> Pick([e], r, x) == [e] && e in v.replayAll;
    assert !Of(e, r, x);
    EvsAppend(s.carry, [Ev(e)]);
    assert Evs([Ev(e)]) == [e];
    PickAppend(Evs(s.carry), [e], r, x);
    assert Pick([e], r, x) == [];
    ReplayCarriedView(s, t.(loop := Down), r, e);
    EndedInv(ViewOf(s, r), ViewOf(t.(loop := Down), r));
  }

  lemma ReplayCarriedView(s: State, t: State, r: RunId, e: Event)
    requires r in s.log.runs && HandAt(s, Sending) && s.loop.hand == Holding(Ev(e), FromReplay, Sending)
    requires t == s.(carry := s.carry + [Ev(e)], loop := Down)
    requires Pick(Evs(t.carry), r, s.log.runs[r].exec) == Pick(Evs(s.carry), r, s.log.runs[r].exec)
    ensures
      var v := ViewOf(s, r);
      ViewOf(t, r) == v.(replay := [], replayAll := [], up := false, recorded := v.wire,
                         stale := StaleOnWay(t, r, s.log.runs[r].exec), mark := None, waiting := false,
                         asks := s.asked)
      && v.recorded == v.wire
  {
    ReplayCarriedPlaces(s, t, e);
  }

  lemma ReplayCarriedPlaces(s: State, t: State, e: Event)
    requires HandAt(s, Sending) && s.loop.hand == Holding(Ev(e), FromReplay, Sending)
    requires t == s.(carry := s.carry + [Ev(e)], loop := Down)
    ensures HandOf(t, FromQueue) + Evs(t.carry) == Evs(t.carry)
    ensures HandOf(s, FromQueue) + Evs(s.carry) == Evs(s.carry)
    ensures HandOf(t, FromReplay) + Todo(t) == [] == Unsent(t)
    ensures Back(t) == Back(s) && Recorded(t) == Recorded(s) == s.wire && Asks(t) == s.asked
  {
  }

  /** The message is not sent again: it is an ack request, or the log keeps it, or it was acknowledged. */
  lemma QueueSkipped(s: State, t: State, r: RunId, e: Event)
    requires r in s.log.runs && ViewInv(ViewOf(s, r)) && LoopOk(s) && HandAt(s, Sending) && e in s.issued
    requires s.loop.hand.msg == Ev(e) && s.loop.hand.src.FromQueue? && Kept(s.log, e)
    requires t == s.(skipped := s.skipped + {e}, loop := s.loop.(hand := Empty))
    requires StaleOnWay(t, r, s.log.runs[r].exec) ==> StaleOnWay(s, r, s.log.runs[r].exec)
    ensures ViewInv(ViewOf(t, r))
  {
    var x := s.log.runs[r].exec;
    PickAppend([e], Evs(s.carry), r, x);
    PickMember(s.issued, r, x);
    assert HandOf(t, FromQueue) + Evs(t.carry) == Evs(s.carry);
    assert HandOf(t, FromReplay) + Todo(t) == [] == HandOf(s, FromReplay) + Todo(s);
    assert Unsent(t) == [] == Unsent(s);
    if Of(e, r, x) {
      HandIsFront(s, r, e);
      KeptHead(ViewOf(s, r), s.log, e);
      QueueSkippedInv(ViewOf(s, r), ViewOf(t, r), e);
    } else {
      assert Pick([e], r, x) == [];
      ElsewhereInv(ViewOf(s, r), ViewOf(t, r));
    }
  }

  lemma KeptHead(v: View, l: LogState, e: Event)
    requires ViewInv(v) && v.front == [e] && Names(l, e.run, e.exec) && l.runs[e.run] == v.rs && Kept(l, e)
    ensures KeptOrAcked(v, e)
  {
    HeadOfLine(v, e);
  }

  lemma StaleSub(s: State, t: State, r: RunId, x: ExecId)
    requires forall e :: OnWay(t, e) ==> OnWay(s, e)
    ensures StaleOnWay(t, r, x) ==> StaleOnWay(s, r, x)
  {
  }

  lemma FailSkipped(s: State, r: RunId, e: Event)
    requires r in s.log.runs && ViewInv(ViewOf(s, r)) && LoopOk(s) && HandAt(s, Sending) && e in s.issued
    requires s.loop.hand.msg == Ev(e) && s.loop.hand.src.FromQueue? && Kept(s.log, e)
    ensures ViewInv(ViewOf(s.(skipped := s.skipped + {e}, loop := Down), r))
  {
    var mid := s.(skipped := s.skipped + {e}, loop := s.loop.(hand := Empty));
    StaleSub(s, mid, r, s.log.runs[r].exec);
    QueueSkipped(s, mid, r, e);
    LoopEnds(mid, s.(skipped := s.skipped + {e}, loop := Down), r);
  }

  lemma FailCarried(s: State, r: RunId)
    requires r in s.log.runs && ViewInv(ViewOf(s, r)) && LoopOk(s) && HandAt(s, Sending)
    requires !s.loop.hand.msg.AskAck? && (s.loop.hand.msg.Ev? ==> !Kept(s.log, s.loop.hand.msg.ev))
    ensures ViewInv(ViewOf(s.(carry := s.carry + [s.loop.hand.msg], loop := Down), r))
  {
    var mid := s.(carry := s.carry + [s.loop.hand.msg], loop := s.loop.(hand := Empty, todo := []));
    StaleSub(s, mid, r, s.log.runs[r].exec);
    if s.loop.hand.src.FromQueue? {
      QueueCarried(s, mid, r);
      LoopEnds(mid, mid.(loop := Down), r);
    } else {
      ReplayCarried(s, mid, r, s.loop.hand.msg.ev);
    }
  }

  /** With the resend buffer full no event of a current execution is in the loop's hand unless it is kept. */
  lemma FullCarryIsForeign(s: State, r: RunId, e: Event)
    requires r in s.log.runs && ViewInv(ViewOf(s, r)) && LoopOk(s) && CarryOk(s) && HandAt(s, Sending)
    requires s.loop.hand.msg == Ev(e) && !Kept(s.log, e) && |s.carry| >= CARRY_CAPACITY
    ensures !Of(e, r, s.log.runs[r].exec)
  {
    var x := s.log.runs[r].exec;
    PickAppend([e], Todo(s), r, x);
    assert Pick([e], r, x) == if Of(e, r, x) then [e] else [];
  }

  lemma FailOverflowed(s: State, r: RunId, e: Event)
    requires r in s.log.runs && ViewInv(ViewOf(s, r)) && LoopOk(s) && CarryOk(s) && HandAt(s, Sending)
    requires s.loop.hand.msg == Ev(e) && !Kept(s.log, e) && |s.carry| >= CARRY_CAPACITY
    ensures r in WrittenLog(s, e, false).runs
    ensures ViewInv(ViewOf(s.(log := WrittenLog(s, e, false), overflowed := s.overflowed + {e}, loop := Down), r))
  {
    var mid := s.(log := WrittenLog(s, e, false), overflowed := s.overflowed + {e}, loop := s.loop.(hand := Empty));
    FullCarryIsForeign(s, r, e);
    StaleSub(s, mid, r, s.log.runs[r].exec);
    OtherGivenUp(s, mid, r, e);
    LoopEnds(mid, mid.(loop := Down), r);
  }

  /** What a failed write leaves, case by case. */
  lemma FailCases(s: State)
    requires Can(s, WriteFail)
    ensures
      var msg, t := s.loop.hand.msg, DoWriteFail(s);
      if msg.Ev? && Kept(s.log, msg.ev) then
        if s.loop.hand.src.FromQueue? then t == s.(skipped := s.skipped + {msg.ev}, loop := Down)
        else t == s.(loop := Down)
      else if !msg.AskAck? && |s.carry| < CARRY_CAPACITY then t == s.(carry := s.carry + [msg], loop := Down)
      else if msg.Ev? then
        t == s.(log := WrittenLog(s, msg.ev, false), overflowed := s.overflowed + {msg.ev}, loop := Down)
      else t == s.(loop := Down)
  {
    assert s.skipped + {} == s.skipped;
  }

  lemma FailKeepsRun(s: State, t: State, r: RunId)
    requires Can(s, WriteFail) && t == DoWriteFail(s)
    requires s.loop.hand.msg.Ev? ==> s.loop.hand.msg.ev in s.issued
    requires LoopOk(s) && CarryOk(s) && r in s.log.runs && ViewInv(ViewOf(s, r))
    ensures r in t.log.runs && ViewInv(ViewOf(t, r))
  {
    var msg := s.loop.hand.msg;
    FailCases(s);
    if msg.Ev? && Kept(s.log, msg.ev) {
      if s.loop.hand.src.FromQueue? {
        FailSkipped(s, r, msg.ev);
      } else {
        LoopEnds(s, t, r);
      }
    } else if !msg.AskAck? && |s.carry| < CARRY_CAPACITY {
      FailCarried(s, r);
    } else if msg.Ev? {
      FailOverflowed(s, r, msg.ev);
    } else {
      LoopEnds(s, t, r);
    }
  }

  lemma WriteFailKeeps(s: State, a: Action, r: RunId)
    requires Inv(s) && Can(s, a) && a.WriteFail? && Live(Do(s, a), r)
    ensures ViewInv(ViewOf(Do(s, a), r))
  {
    StillLive(s, a, r);
    assert s.loop.hand.msg.Ev? ==> OnWay(s, s.loop.hand.msg.ev);
    FailKeepsRun(s, Do(s, a), r);
  }

  // ---------------------------------------------------------------- every step, every run

  lemma KeepsRun(s: State, a: Action, r: RunId)
    requires Inv(s) && Can(s, a) && Live(Do(s, a), r)
    ensures ViewInv(ViewOf(Do(s, a), r))
  {
    if Passes(s, a) {
      PassesKeepsRun(s, a, r);
    } else {
      match a
      case Dispatch(_, _) => DispatchKeeps(s, a, r);
      case Number(msg, _) =>
        if !Refused(s.log, msg) {
          NumberKeeps(s, a, r);
        }
      case AckArrives(_, _, _) => AckKeeps(s, a, r);
      case Collect(_) => CollectKeeps(s, a, r);
      case Connect(_) => ConnectKeeps(s, a, r);
      case StartLoop(_) => StartLoopKeeps(s, a, r);
      case TakeNext => TakeKeeps(s, a, r);
      case WriteOk => WriteOkKeeps(s, a, r);
      case GiveUp => GiveUpKeeps(s, a, r);
      case Record => RecordKeeps(s, a, r);
      case WriteFail => WriteFailKeeps(s, a, r);
      case ConnectionDone => DoneKeeps(s, a, r);
      case AskRun(_) => AskKeeps(s, a, r);
    }
  }

  lemma StepKeepsInv(s: State, a: Action)
    requires Inv(s) && Can(s, a)
    ensures Inv(Do(s, a))
  {
    StructKept(s, a);
    forall r | Live(Do(s, a), r)
      ensures ViewInv(ViewOf(Do(s, a), r))
    {
      KeepsRun(s, a, r);
    }
  }

  /** The invariant holds after every run of actions. */
  lemma {:induction false} Reachable(acts: seq<Action>)
    requires StateAfter(acts).Some?
    ensures Inv(StateAfter(acts).value)
  {
    if acts != [] {
      Reachable(acts[..|acts| - 1]);
      StepKeepsInv(StateAfter(acts[..|acts| - 1]).value, acts[|acts| - 1]);
    }
  }
}
