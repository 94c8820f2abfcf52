/**
 The way of a run event from the scan to the coordinator, as a state machine over the steps of the
 agent's goroutines: queueEvent (packages/container/internal/agent/agent_dispatcher.go), the outbox
 and its pump (agent_outbox.go), the write loop of one connection (agent_client.go) and the delivery
 log (DeliverySpec). An event is with the sender, in the outbox, in the pump's hand, in outChan, in
 the write loop's hand, in carry, or kept in the log.

 A write succeeds, fails, or cannot be made; acks are arbitrary messages; random execution ids are
 new ones. A connection starts only after the write loop of the one before it has ended.
 */
module Pipeline {
  import opened DeliverySpec
  import opened Options

  const CARRY_CAPACITY: nat := 64

  const OUTCHAN_CAPACITY: nat := 64

  /** One second, in milliseconds. */
  const ACK_DELAY: nat := 1000

  datatype Msg =
    | Ev(ev: Event)
    | Reply(id: nat)
    | AskAck(run: RunId, exec: ExecId, num: nat)

  /** Where the write loop is: in its replay, in its main loop, or asking for acks. */
  datatype Source = FromReplay | FromQueue | FromTimer

  /** Taken: not counted as being sent yet. OnWire: written, its bookkeeping still to come. */
  datatype Stage = Taken | Sending | OnWire

  datatype Hand = Empty | Holding(msg: Msg, src: Source, stage: Stage)

  datatype Mark = Mark(exec: ExecId, num: nat)

  /** Half-way through requestAcks: the runs still to look at, and the soonest due time found. */
  datatype Ask = NotAsking | Asking(now: int, rest: set<RunId>, nextDue: nat)

  datatype Loop =
    | Down
    | Starting
    | Up(todo: seq<Event>, hand: Hand, sentUpTo: map<RunId, Mark>,
         lastWrite: map<RunId, int>, timer: Option<int>, ask: Ask)

  datatype State = State(
    log: LogState,
    sender: Option<Event>,
    items: seq<Event>,
    replies: seq<nat>,
    pump: Option<Msg>,
    outChan: seq<Msg>,
    carry: seq<Msg>,
    loop: Loop,
    clock: int,
    // What happened so far.
    used: set<(RunId, ExecId)>,   // the executions there have been
    past: set<(RunId, ExecId)>,   // those that once stopped being their run's current one
    issued: seq<Event>,           // every event numbered
    wire: seq<Event>,             // the events written on the latest connection
    asked: set<Msg>,              // the ack requests written on it
    unsendable: set<Event>,       // events given up on: no message can carry them
    overflowed: set<Event>,       // events given up on: the resend buffer was full
    trimmed: set<Event>,          // events dropped by the per-run bound
    skipped: set<Event>,          // queued events let go when their write failed, acknowledged already
    alwaysAck: bool)              // every coordinator so far acknowledged

  function Init(): State {
    State(LogState(map[], false), None, [], [], None, [], [], Down, 0, {}, {}, [], [], {}, {}, {}, {}, {}, true)
  }

  datatype Action =
    | Dispatch(r: RunId, newId: ExecId)
    | Number(msg: Event, newId: ExecId)
    | Push
    | PushReply(id: nat)
    | PumpTake
    | PumpSend
    | AckArrives(r: RunId, x: ExecId, n: nat)
    | Collect(active: set<RunId>)
    | Connect(acks: bool)
    | StartLoop(order: seq<RunId>)
    | TakeNext
    | BeginSend
    | GiveUp
    | WriteOk
    | Record
    | WriteFail
    | ConnectionDone
    | Tick(d: nat)
    | FireTimer
    | AskRun(r: RunId)
    | AskDone

  ghost predicate NewId(s: State, r: RunId, x: ExecId) {
    x != NO_EXEC && (r, x) !in s.used
  }

  /** The write loop is between two messages of its main loop. */
  ghost predicate AtSelect(s: State) {
    s.loop.Up? && s.loop.hand.Empty? && s.loop.ask.NotAsking? && s.loop.todo == []
  }

  ghost predicate HandAt(s: State, stage: Stage) {
    s.loop.Up? && s.loop.hand.Holding? && s.loop.hand.stage == stage
  }

  ghost predicate Can(s: State, a: Action) {
    match a
    case Dispatch(r, newId) => NewId(s, r, newId)
    case Number(msg, newId) =>
      s.sender.None? && (msg.run !in s.log.runs && msg.exec == NO_EXEC ==> NewId(s, msg.run, newId))
    case Push => s.sender.Some?
    case PushReply(_) => true
    case PumpTake => s.pump.None? && (s.replies != [] || s.items != [])
    case PumpSend => s.pump.Some? && |s.outChan| < OUTCHAN_CAPACITY
    case AckArrives(_, _, _) => true
    case Collect(_) => true
    case Connect(_) => s.loop.Down?
    case StartLoop(order) => s.loop.Starting? && ReplayOrder(s.log, order)
    case TakeNext =>
      s.loop.Up? && s.loop.hand.Empty? && s.loop.ask.NotAsking? &&
      (s.loop.todo != [] || s.carry != [] || s.outChan != [])
    case BeginSend => HandAt(s, Taken)
    case GiveUp => HandAt(s, Sending) && !s.loop.hand.msg.AskAck?
    case WriteOk => HandAt(s, Sending)
    case Record => HandAt(s, OnWire) && s.loop.hand.msg.Ev?
    case WriteFail => HandAt(s, Sending)
    case ConnectionDone => s.loop.Starting? || AtSelect(s)
    case Tick(_) => s.loop.Up? ==> s.loop.ask.NotAsking?
    case FireTimer => AtSelect(s) && s.carry == [] && s.loop.timer.Some? && s.clock >= s.loop.timer.value
    case AskRun(r) =>
      s.loop.Up? && s.loop.ask.Asking? && s.loop.hand.Empty? && r in s.loop.ask.rest && r in s.loop.lastWrite
    case AskDone => s.loop.Up? && s.loop.ask.Asking? && s.loop.hand.Empty? && s.loop.ask.rest == {}
  }

  ghost function DoNumber(s: State, msg: Event, newId: ExecId): State {
    if Refused(s.log, msg) then s
    else
      var e := StampedEvent(s.log, msg, newId, s.clock);
      s.(log := Stamp(s.log, msg, newId, s.clock), sender := Some(e),
         issued := s.issued + [e], used := s.used + {(e.run, e.exec)})
  }

  ghost function Current(s: State, r: RunId): set<(RunId, ExecId)> {
    if r in s.log.runs then {(r, s.log.runs[r].exec)} else {}
  }

  /** The executions a collection ends. */
  ghost function Ended(l: LogState, active: set<RunId>, now: int): set<(RunId, ExecId)> {
    set r | r in l.runs && Idle(l.runs[r], r, active, now) :: (r, l.runs[r].exec)
  }

  ghost function WrittenLog(s: State, e: Event, sent: bool): LogState {
    DeliverySpec.Written(s.log, e, sent, s.clock)
  }

  /** The events the bound drops when `e` is recorded. */
  ghost function DroppedBy(l: LogState, e: Event): set<Event> {
    if Names(l, e.run, e.exec) && l.enabled && e.num > l.runs[e.run].ackedSeq then
      var s := Inserted(l.runs[e.run].unacked, e);
      set x | x in s && x !in Trimmed(s)
    else {}
  }

  ghost function Take(s: State, msg: Msg, src: Source): Hand {
    Holding(msg, src, Taken)
  }

  /** The replay first, then what an earlier connection left, then the queue. */
  ghost function DoTakeNext(s: State): State
    requires Can(s, TakeNext)
  {
    if s.loop.todo != [] then
      s.(loop := s.loop.(todo := s.loop.todo[1..], hand := Take(s, Ev(s.loop.todo[0]), FromReplay)))
    else if s.carry != [] then
      s.(carry := s.carry[1..], loop := s.loop.(hand := Take(s, s.carry[0], FromQueue)))
    else
      s.(outChan := s.outChan[1..], loop := s.loop.(hand := Take(s, s.outChan[0], FromQueue)))
  }

  ghost function DoWriteOk(s: State): State
    requires Can(s, WriteOk)
  {
    match s.loop.hand.msg
    case Ev(e) => s.(wire := s.wire + [e], loop := s.loop.(hand := s.loop.hand.(stage := OnWire)))
    case Reply(_) => s.(loop := s.loop.(hand := Empty))
    case AskAck(_, _, _) => s.(asked := s.asked + {s.loop.hand.msg}, loop := s.loop.(hand := Empty))
  }

  ghost function NextMark(loop: Loop, e: Event): Mark
    requires loop.Up?
  {
    if e.run !in loop.sentUpTo || loop.sentUpTo[e.run].exec != e.exec || e.num > loop.sentUpTo[e.run].num
    then Mark(e.exec, e.num) else loop.sentUpTo[e.run]
  }

  ghost function DoRecord(s: State): State
    requires Can(s, Record)
  {
    var e := s.loop.hand.msg.ev;
    s.(log := WrittenLog(s, e, true),
       trimmed := s.trimmed + DroppedBy(s.log, e),
       loop := s.loop.(
         hand := Empty,
         sentUpTo := s.loop.sentUpTo[e.run := NextMark(s.loop, e)],
         lastWrite := s.loop.lastWrite[e.run := s.clock],
         timer := if s.loop.timer.Some? then s.loop.timer else Some(s.clock + ACK_DELAY)))
  }

  ghost function DoGiveUp(s: State): State
    requires Can(s, GiveUp)
  {
    var t := s.(loop := s.loop.(hand := Empty));
    if s.loop.hand.msg.Ev? then
      t.(log := WrittenLog(s, s.loop.hand.msg.ev, false), unsendable := s.unsendable + {s.loop.hand.msg.ev})
    else t
  }

  ghost function DoWriteFail(s: State): State
    requires Can(s, WriteFail)
  {
    var t, msg := s.(loop := Down), s.loop.hand.msg;
    if msg.AskAck? then t
    else if msg.Ev? && Kept(s.log, msg.ev) then
      t.(skipped := s.skipped + (if s.loop.hand.src.FromQueue? then {msg.ev} else {}))
    else if |s.carry| < CARRY_CAPACITY then t.(carry := s.carry + [msg])
    else if msg.Ev? then t.(log := WrittenLog(s, msg.ev, false), overflowed := s.overflowed + {msg.ev})
    else t
  }

  /** Looks at one run: not quiet for long enough yet, or asked about if anything is unacknowledged. */
  ghost function DoAskRun(s: State, r: RunId): State
    requires Can(s, AskRun(r))
  {
    var ask, quiet := s.loop.ask, s.loop.ask.now - s.loop.lastWrite[r];
    if quiet < ACK_DELAY then
      var wait: nat := ACK_DELAY - quiet;
      s.(loop := s.loop.(ask := ask.(
        rest := ask.rest - {r},
        nextDue := if ask.nextDue == 0 || wait < ask.nextDue then wait else ask.nextDue)))
    else
      var mark := if r in s.loop.sentUpTo then s.loop.sentUpTo[r] else Mark(NO_EXEC, 0);
      s.(loop := s.loop.(
        lastWrite := s.loop.lastWrite - {r},
        ask := ask.(rest := ask.rest - {r}),
        hand := if AckWanted(s.log, r, mark.exec, mark.num)
                then Take(s, AskAck(r, mark.exec, mark.num), FromTimer) else Empty))
  }

  ghost function Do(s: State, a: Action): State
    requires Can(s, a)
  {
    match a
    case Dispatch(r, newId) =>
      s.(log := Reset(s.log, r, newId, s.clock), used := s.used + {(r, newId)}, past := s.past + Current(s, r))
    case Number(msg, newId) => DoNumber(s, msg, newId)
    case Push => s.(items := s.items + [s.sender.value], sender := None)
    case PushReply(id) => s.(replies := s.replies + [id])
    case PumpTake =>
      if s.replies != [] then s.(pump := Some(Reply(s.replies[0])), replies := s.replies[1..])
      else s.(pump := Some(Ev(s.items[0])), items := s.items[1..])
    case PumpSend => s.(outChan := s.outChan + [s.pump.value], pump := None)
    case AckArrives(r, x, n) => s.(log := Ack(s.log, r, x, n, s.clock))
    case Collect(active) =>
      s.(log := Gc(s.log, active, s.clock), past := s.past + Ended(s.log, active, s.clock))
    case Connect(acks) =>
      s.(log := SetEnabled(s.log, acks), loop := Starting, wire := [], asked := {},
         alwaysAck := s.alwaysAck && acks)
    case StartLoop(order) =>
      s.(loop := Up(Replay(s.log, order), Empty, map[], map[], None, NotAsking))
    case TakeNext => DoTakeNext(s)
    case BeginSend => s.(loop := s.loop.(hand := s.loop.hand.(stage := Sending)))
    case GiveUp => DoGiveUp(s)
    case WriteOk => DoWriteOk(s)
    case Record => DoRecord(s)
    case WriteFail => DoWriteFail(s)
    case ConnectionDone => s.(loop := Down)
    case Tick(d) => s.(clock := s.clock + d)
    case FireTimer =>
      s.(loop := s.loop.(timer := None, ask := Asking(s.clock, s.loop.lastWrite.Keys, 0)))
    case AskRun(r) => DoAskRun(s, r)
    case AskDone =>
      s.(loop := s.loop.(
        ask := NotAsking,
        timer := if s.loop.ask.nextDue > 0 && s.loop.timer.None?
                 then Some(s.clock + s.loop.ask.nextDue) else s.loop.timer))
  }

  /** The state after a run of actions, if each could be taken when its turn came. */
  ghost function StateAfter(acts: seq<Action>): Option<State> {
    if acts == [] then Some(Init())
    else
      var before, last := StateAfter(acts[..|acts| - 1]), acts[|acts| - 1];
      if before.Some? && Can(before.value, last) then Some(Do(before.value, last)) else None
  }

  // ---------------------------------------------------------------- where events are

  ghost function OptEv(o: Option<Event>): seq<Event> {
    if o.Some? then [o.value] else []
  }

  ghost function Evs(msgs: seq<Msg>): seq<Event> {
    if msgs == [] then [] else (if msgs[0].Ev? then [msgs[0].ev] else []) + Evs(msgs[1..])
  }

  ghost function MsgEv(m: Msg): seq<Event> {
    if m.Ev? then [m.ev] else []
  }

  ghost function HandOf(s: State, src: Source): seq<Event> {
    if s.loop.Up? && s.loop.hand.Holding? && s.loop.hand.src == src then MsgEv(s.loop.hand.msg) else []
  }

  ghost function Todo(s: State): seq<Event> {
    if s.loop.Up? then s.loop.todo else []
  }

  /** Queued events the write loop has not reached, in order. */
  ghost function Back(s: State): seq<Event> {
    Evs(s.outChan) + (if s.pump.Some? then MsgEv(s.pump.value) else []) + s.items + OptEv(s.sender)
  }

  /** Events on their way to their first successful write, front to back. */
  ghost function Line(s: State): seq<Event> {
    HandOf(s, FromQueue) + Evs(s.carry) + Back(s)
  }

  ghost predicate Of(e: Event, r: RunId, x: ExecId) {
    e.run == r && e.exec == x
  }

  /** The events of execution `x` of run `r`. */
  ghost function Pick(s: seq<Event>, r: RunId, x: ExecId): seq<Event> {
    if s == [] then []
    else if Of(s[0], r, x) then [s[0]] + Pick(s[1..], r, x)
    else Pick(s[1..], r, x)
  }

  /** Run `r` has a log whose execution has been its current one without a break. */
  ghost predicate Live(s: State, r: RunId) {
    r in s.log.runs && (r, s.log.runs[r].exec) !in s.past
  }

  lemma {:induction false} PickAppend(a: seq<Event>, b: seq<Event>, r: RunId, x: ExecId)
    ensures Pick(a + b, r, x) == Pick(a, r, x) + Pick(b, r, x)
  {
    if a == [] {
      assert a + b == b;
    } else {
      PickAppend(a[1..], b, r, x);
      assert (a + b)[1..] == a[1..] + b;
    }
  }

  lemma {:induction false} PickMember(s: seq<Event>, r: RunId, x: ExecId)
    ensures forall e :: e in Pick(s, r, x) <==> e in s && Of(e, r, x)
  {
    if s != [] {
      PickMember(s[1..], r, x);
      assert s == [s[0]] + s[1..];
    }
  }

  lemma PickNone(s: seq<Event>, r: RunId, x: ExecId)
    requires forall e :: e in s ==> !Of(e, r, x)
    ensures Pick(s, r, x) == []
  {
    PickMember(s, r, x);
    if Pick(s, r, x) != [] {
      assert Pick(s, r, x)[0] in Pick(s, r, x);
    }
  }

  lemma {:induction false} PickAll(s: seq<Event>, r: RunId, x: ExecId)
    requires forall e :: e in s ==> Of(e, r, x)
    ensures Pick(s, r, x) == s
  {
    if s != [] {
      PickAll(s[1..], r, x);
    }
  }

  lemma {:induction false} EvsAppend(a: seq<Msg>, b: seq<Msg>)
    ensures Evs(a + b) == Evs(a) + Evs(b)
  {
    if a == [] {
      assert a + b == b;
      assert Evs(a) + Evs(b) == Evs(b);
    } else {
      EvsAppend(a[1..], b);
      assert (a + b)[1..] == a[1..] + b && (a + b)[0] == a[0];
      var first := if a[0].Ev? then [a[0].ev] else [];
      assert first + (Evs(a[1..]) + Evs(b)) == first + Evs(a[1..]) + Evs(b);
    }
  }

  /** A replay holds of each execution exactly what its log keeps. */
  lemma {:induction false} PickReplay(l: LogState, order: seq<RunId>, r: RunId, x: ExecId)
    requires DeliverySpec.Valid(l) && Distinct(order) && forall q :: q in order ==> q in l.runs
    ensures Pick(Replay(l, order), r, x) ==
            if r in order && l.runs[r].exec == x then l.runs[r].unacked else []
  {
    if order != [] {
      var q := order[0];
      PickReplay(l, order[1..], r, x);
      PickAppend(l.runs[q].unacked, Replay(l, order[1..]), r, x);
      assert RunValid(q, l.runs[q], l.enabled);
      if q == r && l.runs[q].exec == x {
        PickAll(l.runs[q].unacked, r, x);
        assert r !in order[1..];
      } else {
        PickNone(l.runs[q].unacked, r, x);
        assert r in order <==> q == r || r in order[1..];
      }
    }
  }

  lemma {:induction false} ReplayMembers(l: LogState, order: seq<RunId>)
    requires forall q :: q in order ==> q in l.runs
    ensures forall e :: e in Replay(l, order) ==> exists q :: q in order && e in l.runs[q].unacked
  {
    if order != [] {
      ReplayMembers(l, order[1..]);
      assert order[0] in order;
    }
  }
}
