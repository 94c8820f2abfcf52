/**
 The goroutines around the outbox: any number of senders (queueEvent, queueReply and holdScans of
 packages/container/internal/agent/agent_dispatcher.go) and the pump (agent_outbox.go, which calls
 releaseScans), interleaved in every way, one critical section or one atomic read or write at a
 time. Scans are registered and removed meanwhile.
 */
module OutboxThreads {
  import opened DeliverySpec
  import opened Options
  import opened OutboxSpec

  type Tid = nat

  type ScanId = nat

  const PUMP: Tid := 0

  /** Where a goroutine is. */
  datatype PC =
    | Idle
    | WaitRoom(chan: nat)
    | Admitted
    | Signalling(full: bool)
    | SignallingReply
    | HoldLoad
    | HoldLock
    | HoldRecheck
    | HoldLoop(rest: set<ScanId>)
    | HoldUnlock
    | HoldCheck
    | ReleaseLoad
    | ReleaseLock
    | ReleaseRecheck
    | ReleaseLoop(rest: set<ScanId>)
    | ReleaseUnlock
    | PumpLook
    | PumpParked
    | PumpHolding(msg: Msg)
    | PumpSent
    | PumpStopped

  datatype State = State(
    box: Box,
    held: bool,
    mu: Option<Tid>,
    scans: map<ScanId, bool>,   // the registered scans, and whether each is held
    pc: map<Tid, PC>,
    pushed: seq<nat>,           // every item pushed
    answered: seq<nat>,         // every reply pushed
    out: seq<Msg>)              // every message handed on

  /** Senders idle, the pump about to look. */
  ghost predicate Init(s: State) {
    && s.box == EmptyBox() && !s.held && s.mu.None? && s.scans == map[]
    && s.pushed == s.answered == [] && s.out == []
    && PUMP in s.pc && s.pc[PUMP] == PumpLook
    && forall t :: t in s.pc && t != PUMP ==> s.pc[t] == Idle
  }

  datatype Step =
    | CheckRoom
    | Woken
    | Push(msg: nat)
    | PushReply(msg: nat)
    | Signal
    | Advance                  // the next step of holdScans or releaseScans
    | ScanDone(scan: ScanId)   // one scan held, or released
    | Take
    | Wake
    | HandOn
    | Handed
    | Stop
    | Register(scan: ScanId)
    | Unregister(scan: ScanId)

  ghost predicate Critical(p: PC) {
    p.HoldRecheck? || p.HoldLoop? || p.HoldUnlock? || p.ReleaseRecheck? || p.ReleaseLoop? || p.ReleaseUnlock?
  }

  /** A step of holdScans or releaseScans that can be taken. */
  ghost predicate CanAdvance(s: State, p: PC) {
    match p
    case HoldLock => s.mu.None?
    case ReleaseLock => s.mu.None?
    case HoldLoop(rest) => rest == {}
    case ReleaseLoop(rest) => rest == {}
    case HoldLoad => true
    case ReleaseLoad => true
    case HoldCheck => true
    case _ => Critical(p)
  }

  ghost predicate Can(s: State, t: Tid, st: Step) {
    t in s.pc &&
    var p := s.pc[t];
    match st
    case CheckRoom => p.Idle?
    case Woken => p.WaitRoom? && p.chan in s.box.closed
    case Push(_) => p.Admitted?
    case PushReply(_) => p.Idle?
    case Signal => p.Signalling? || p.SignallingReply?
    case Advance => CanAdvance(s, p)
    case ScanDone(scan) => (p.HoldLoop? && scan in p.rest) || (p.ReleaseLoop? && scan in p.rest)
    case Take => p.PumpLook?
    case Wake => p.PumpParked? && s.box.ready
    case HandOn => p.PumpHolding?
    case Handed => p.PumpSent? && s.box.inFlight > 0
    case Stop => p.PumpLook? || p.PumpParked? || p.PumpHolding?
    case Register(_) => s.mu.None?
    case Unregister(_) => s.mu.None?
  }

  ghost function At(s: State, t: Tid, p: PC): State {
    s.(pc := s.pc[t := p])
  }

  /** Where a goroutine goes on after releaseScans. */
  ghost function Home(t: Tid): PC {
    if t == PUMP then PumpLook else Idle
  }

  ghost function DoAdvance(s: State, t: Tid): State
    requires t in s.pc && CanAdvance(s, s.pc[t])
  {
    match s.pc[t]
    case HoldLoad => At(s, t, if s.held then Idle else HoldLock)
    case HoldLock => At(s, t, HoldRecheck).(mu := Some(t))
    case HoldRecheck => if s.held then At(s, t, HoldUnlock) else At(s, t, HoldLoop(s.scans.Keys)).(held := true)
    case HoldLoop(_) => At(s, t, HoldUnlock)
    case HoldUnlock => At(s, t, HoldCheck).(mu := None)
    case HoldCheck => At(s, t, if |s.box.items| <= LOW_MARK then ReleaseLoad else Idle)
    case ReleaseLoad => At(s, t, if s.held then ReleaseLock else Home(t))
    case ReleaseLock => At(s, t, ReleaseRecheck).(mu := Some(t))
    case ReleaseRecheck =>
      if s.held then At(s, t, ReleaseLoop(s.scans.Keys)).(held := false) else At(s, t, ReleaseUnlock)
    case ReleaseLoop(_) => At(s, t, ReleaseUnlock)
    case ReleaseUnlock => At(s, t, Home(t)).(mu := None)
  }

  ghost function DoTake(s: State, t: Tid): State
    requires t in s.pc
  {
    if s.box.items == [] && s.box.replies == [] then At(s, t, PumpParked)
    else At(s, t, PumpHolding(Front(s.box))).(box := Popped(s.box))
  }

  ghost function Do(s: State, t: Tid, st: Step): (s': State)
    requires Can(s, t, st)
    ensures t in s'.pc
  {
    match st
    case CheckRoom =>
      if |s.box.items| < HARD_LIMIT then At(s, t, Admitted)
      else At(s, t, WaitRoom(RoomMade(s.box).room.value)).(box := RoomMade(s.box))
    case Woken => At(s, t, Idle)
    case Push(msg) =>
      At(s, t, Signalling(Full(Pushed(s.box, msg)))).(box := Pushed(s.box, msg), pushed := s.pushed + [msg])
    case PushReply(msg) =>
      At(s, t, SignallingReply).(box := s.box.(replies := s.box.replies + [msg]), answered := s.answered + [msg])
    case Signal =>
      At(s, t, if s.pc[t] == Signalling(true) then HoldLoad else Idle).(box := s.box.(ready := true))
    case Advance => DoAdvance(s, t)
    case ScanDone(scan) =>
      if s.pc[t].HoldLoop? then At(s, t, HoldLoop(s.pc[t].rest - {scan})).(scans := s.scans[scan := true])
      else At(s, t, ReleaseLoop(s.pc[t].rest - {scan})).(scans := s.scans[scan := false])
    case Take => DoTake(s, t)
    case Wake => At(s, t, PumpLook).(box := s.box.(ready := false))
    case HandOn => At(s, t, PumpSent).(out := s.out + [s.pc[t].msg])
    case Handed =>
      At(s, t, if |s.box.items| <= LOW_MARK then ReleaseLoad else PumpLook).(
        box := s.box.(inFlight := s.box.inFlight - 1))
    case Stop => At(s, t, PumpStopped)
    case Register(scan) => s.(scans := s.scans[scan := s.held])
    case Unregister(scan) => s.(scans := s.scans - {scan})
  }

  // ---------------------------------------------------------------- the invariant

  ghost predicate PumpPC(p: PC) {
    p.PumpLook? || p.PumpParked? || p.PumpHolding? || p.PumpSent? || p.PumpStopped?
  }

  ghost predicate ReleasePC(p: PC) {
    p.ReleaseLoad? || p.ReleaseLock? || p.ReleaseRecheck? || p.ReleaseLoop? || p.ReleaseUnlock?
  }

  ghost predicate Roles(s: State) {
    && PUMP in s.pc && (PumpPC(s.pc[PUMP]) || ReleasePC(s.pc[PUMP]))
    && forall t :: t in s.pc && t != PUMP ==> !PumpPC(s.pc[t])
  }

  /** The lock is held by whoever is in a critical section. */
  ghost predicate LockOk(s: State) {
    && (s.mu.Some? ==> s.mu.value in s.pc && Critical(s.pc[s.mu.value]))
    && forall t :: t in s.pc && Critical(s.pc[t]) ==> s.mu == Some(t)
  }

  /** Every scan is held exactly when `held`, but for those the lock's owner has still to reach. */
  ghost predicate ScansOk(s: State) {
    if s.mu.None? then forall r :: r in s.scans ==> s.scans[r] == s.held
    else
      s.mu.value in s.pc &&
      match s.pc[s.mu.value]
      case HoldLoop(rest) =>
        s.held && rest <= s.scans.Keys && forall r :: r in s.scans && r !in rest ==> s.scans[r]
      case ReleaseLoop(rest) =>
        !s.held && rest <= s.scans.Keys && forall r :: r in s.scans && r !in rest ==> !s.scans[r]
      case _ => forall r :: r in s.scans ==> s.scans[r] == s.held
  }

  /** A goroutine that will look at the queue's length, and end the hold if it is short, or is
      about to end it. */
  ghost predicate WillRelease(p: PC) {
    p.HoldLoop? || p.HoldUnlock? || p.HoldCheck? || p.ReleaseLoad? || p.ReleaseLock? || p.ReleaseRecheck? ||
    p.PumpHolding? || p.PumpSent?
  }

  ghost predicate Stopped(s: State) {
    PUMP in s.pc && s.pc[PUMP].PumpStopped?
  }

  ghost predicate NoLostWakeup(s: State) {
    s.held && !Stopped(s) ==> |s.box.items| > LOW_MARK || exists t :: t in s.pc && WillRelease(s.pc[t])
  }

  /** Whoever waits for room waits on the current channel or on a closed one. */
  ghost predicate WaitersOk(s: State) {
    RoomOk(s.box) && forall t :: t in s.pc && s.pc[t].WaitRoom? ==> s.pc[t].chan < s.box.nextChan
  }

  ghost predicate WillSignal(p: PC) {
    p.Signalling? || p.SignallingReply?
  }

  /** A pump that sleeps on a queue that is not empty will be woken. */
  ghost predicate ParkedOk(s: State) {
    PUMP in s.pc && s.pc[PUMP].PumpParked? && (s.box.items != [] || s.box.replies != []) ==>
      s.box.ready || exists t :: t in s.pc && WillSignal(s.pc[t])
  }

  ghost function AdmittedSet(s: State): set<Tid> {
    set t | t in s.pc && s.pc[t].Admitted?
  }

  /** Only senders that were let in together can take the queue past its limit. */
  ghost predicate Bounded(s: State) {
    |s.box.items| + |AdmittedSet(s)| <= HARD_LIMIT - 1 + |Senders(s)|
  }

  ghost function Senders(s: State): set<Tid> {
    s.pc.Keys - {PUMP}
  }

  ghost function Items(m: seq<Msg>): seq<nat> {
    if m == [] then [] else Items(m[..|m| - 1]) + (if m[|m| - 1].Item? then [m[|m| - 1].id] else [])
  }

  ghost function Answers(m: seq<Msg>): seq<nat> {
    if m == [] then [] else Answers(m[..|m| - 1]) + (if m[|m| - 1].Answer? then [m[|m| - 1].id] else [])
  }

  ghost function InHand(s: State): seq<Msg> {
    if PUMP in s.pc && s.pc[PUMP].PumpHolding? then [s.pc[PUMP].msg] else []
  }

  /** What was pushed is what was handed on, then what is in the pump's hand, then what is queued. */
  ghost predicate Fifo(s: State) {
    && Items(s.out + InHand(s)) + s.box.items == s.pushed
    && Answers(s.out + InHand(s)) + s.box.replies == s.answered
  }

  ghost predicate InFlightOk(s: State) {
    PUMP in s.pc && (s.pc[PUMP].PumpStopped? ||
      s.box.inFlight == if s.pc[PUMP].PumpHolding? || s.pc[PUMP].PumpSent? then 1 else 0)
  }

  /** The hold of the scans. */
  ghost predicate HoldInv(s: State) {
    Roles(s) && LockOk(s) && ScansOk(s) && NoLostWakeup(s)
  }

  /** The queue. */
  ghost predicate QueueInv(s: State) {
    WaitersOk(s) && ParkedOk(s) && Bounded(s) && (!Stopped(s) ==> Fifo(s)) && InFlightOk(s)
  }

  ghost predicate Inv(s: State) {
    HoldInv(s) && QueueInv(s)
  }

  /** A step moves one goroutine. */
  lemma OnlyOneMoves(s: State, t: Tid, st: Step)
    requires Can(s, t, st)
    ensures Do(s, t, st).pc == s.pc[t := Do(s, t, st).pc[t]]
    ensures Do(s, t, st).pc.Keys == s.pc.Keys
  {
    if st.Advance? {
      OnlyOneAdvances(s, t);
    } else {
      OnlyOneSteps(s, t, st);
    }
  }

  lemma OnlyOneAdvances(s: State, t: Tid)
    requires Can(s, t, Advance)
    ensures Do(s, t, Advance).pc == s.pc[t := Do(s, t, Advance).pc[t]]
  {
  }

  lemma OnlyOneSteps(s: State, t: Tid, st: Step)
    requires Can(s, t, st) && !st.Advance?
    ensures Do(s, t, st).pc == s.pc[t := Do(s, t, st).pc[t]]
  {
  }

  lemma AdvanceStaysPump(s: State, t: Tid)
    requires Roles(s) && Can(s, t, Advance)
    ensures var p := Do(s, t, Advance).pc[t]; if t == PUMP then PumpPC(p) || ReleasePC(p) else !PumpPC(p)
  {
    if ReleasePC(s.pc[t]) {
      ReleaseAdvances(s, t);
    } else {
      HoldAdvances(s, t);
    }
  }

  lemma ReleaseAdvances(s: State, t: Tid)
    requires Can(s, t, Advance) && ReleasePC(s.pc[t])
    ensures ReleasePC(Do(s, t, Advance).pc[t]) || Do(s, t, Advance).pc[t] == Home(t)
  {
  }

  lemma HoldAdvances(s: State, t: Tid)
    requires Can(s, t, Advance) && !ReleasePC(s.pc[t])
    ensures !PumpPC(Do(s, t, Advance).pc[t]) && !PumpPC(s.pc[t])
  {
  }

  lemma AdvanceLock(s: State, t: Tid)
    requires LockOk(s) && Can(s, t, Advance)
    ensures
      var was, now, s' := Critical(s.pc[t]), Critical(Do(s, t, Advance).pc[t]), Do(s, t, Advance);
      && s'.mu == (if was == now then s.mu else if now then Some(t) else None)
      && (!was && now ==> s.mu.None?)
  {
  }

  lemma OtherStepsStay(s: State, t: Tid, st: Step)
    requires Roles(s) && Can(s, t, st) && !st.Advance?
    ensures var p := Do(s, t, st).pc[t]; if t == PUMP then PumpPC(p) || ReleasePC(p) else !PumpPC(p)
  {
    if SenderStep(st) {
      SenderStepStays(s, t, st);
    } else {
      OtherStepStays(s, t, st);
    }
  }

  predicate SenderStep(st: Step) {
    st.CheckRoom? || st.Woken? || st.Push? || st.PushReply? || st.Signal?
  }

  lemma SenderStepStays(s: State, t: Tid, st: Step)
    requires Can(s, t, st) && SenderStep(st)
    ensures !PumpPC(s.pc[t]) && !ReleasePC(s.pc[t]) && !PumpPC(Do(s, t, st).pc[t])
  {
  }

  lemma OtherStepStays(s: State, t: Tid, st: Step)
    requires Can(s, t, st) && !SenderStep(st) && !st.Advance?
    ensures
      var was, now := s.pc[t], Do(s, t, st).pc[t];
      now == was || (PumpPC(was) && (PumpPC(now) || ReleasePC(now))) || (was.HoldLoop? && now.HoldLoop?) ||
      (was.ReleaseLoop? && now.ReleaseLoop?)
  {
  }

  lemma OtherStepsLock(s: State, t: Tid, st: Step)
    requires Can(s, t, st) && !st.Advance?
    ensures Critical(Do(s, t, st).pc[t]) == Critical(s.pc[t]) && Do(s, t, st).mu == s.mu
  {
    if SenderStep(st) {
      SenderStepsLock(s, t, st);
    }
  }

  lemma SenderStepsLock(s: State, t: Tid, st: Step)
    requires Can(s, t, st) && SenderStep(st)
    ensures !Critical(Do(s, t, st).pc[t]) && !Critical(s.pc[t]) && Do(s, t, st).mu == s.mu
  {
  }

  lemma PumpStaysPump(s: State, t: Tid, st: Step)
    requires Roles(s) && LockOk(s) && Can(s, t, st)
    ensures var p := Do(s, t, st).pc[t]; if t == PUMP then PumpPC(p) || ReleasePC(p) else !PumpPC(p)
  {
    if st.Advance? {
      AdvanceStaysPump(s, t);
    } else {
      OtherStepsStay(s, t, st);
    }
  }

  lemma RolesKept(s: State, t: Tid, st: Step)
    requires Roles(s) && LockOk(s) && Can(s, t, st)
    ensures Roles(Do(s, t, st))
  {
    OnlyOneMoves(s, t, st);
    PumpStaysPump(s, t, st);
  }

  lemma InFlightKept(s: State, t: Tid, st: Step)
    requires Roles(s) && InFlightOk(s) && Can(s, t, st)
    ensures InFlightOk(Do(s, t, st))
  {
    if st.Advance? {
      AdvanceInFlight(s, t);
    } else {
      StepInFlight(s, t, st);
    }
  }

  lemma AdvanceInFlight(s: State, t: Tid)
    requires Roles(s) && InFlightOk(s) && Can(s, t, Advance)
    ensures InFlightOk(Do(s, t, Advance))
  {
  }

  lemma StepInFlight(s: State, t: Tid, st: Step)
    requires Roles(s) && InFlightOk(s) && Can(s, t, st) && !st.Advance?
    ensures InFlightOk(Do(s, t, st))
  {
  }

  /** A critical section is entered with the lock, and left without it. */
  lemma LockMoves(s: State, t: Tid, st: Step)
    requires Roles(s) && LockOk(s) && Can(s, t, st)
    ensures
      var was, now, s' := Critical(s.pc[t]), Critical(Do(s, t, st).pc[t]), Do(s, t, st);
      && s'.mu == (if was == now then s.mu else if now then Some(t) else None)
      && (!was && now ==> s.mu.None?)
  {
    if st.Advance? {
      AdvanceLock(s, t);
    } else {
      OtherStepsLock(s, t, st);
    }
  }

  lemma LockKept(s: State, t: Tid, st: Step)
    requires Roles(s) && LockOk(s) && Can(s, t, st)
    ensures LockOk(Do(s, t, st))
  {
    LockMoves(s, t, st);
    OnlyOneMoves(s, t, st);
  }

  /** Outside the lock neither `held` nor a scan changes, but for scans that come and go. */
  lemma ScansOutside(s: State, t: Tid, st: Step)
    requires LockOk(s) && ScansOk(s) && Can(s, t, st) && !Critical(s.pc[t])
    ensures
      var s' := Do(s, t, st);
      s'.held == s.held && (s'.scans == s.scans || (s.mu.None? && s'.mu.None?)) &&
      (s.mu.None? ==> forall r :: r in s'.scans ==> s'.scans[r] == s.held)
  {
    if !st.Register? && !st.Unregister? {
      ScansAlone(s, t, st);
    }
  }

  lemma ScansAlone(s: State, t: Tid, st: Step)
    requires Can(s, t, st) && !Critical(s.pc[t]) && !st.Register? && !st.Unregister?
    ensures Do(s, t, st).held == s.held && Do(s, t, st).scans == s.scans
  {
  }

  lemma ScansKept(s: State, t: Tid, st: Step)
    requires Roles(s) && LockOk(s) && ScansOk(s) && Can(s, t, st)
    ensures ScansOk(Do(s, t, st))
  {
    if Critical(s.pc[t]) {
      ScansInside(s, t, st);
    } else {
      LockMoves(s, t, st);
      OnlyOneMoves(s, t, st);
      ScansOutside(s, t, st);
      ScansStay(s, Do(s, t, st), t);
    }
  }

  /** A goroutine that was outside and changes no scan leaves those of the lock's owner as they are. */
  lemma ScansStay(s: State, s': State, t: Tid)
    requires LockOk(s) && ScansOk(s) && t in s.pc && t in s'.pc && !Critical(s.pc[t])
    requires s'.pc == s.pc[t := s'.pc[t]] && s'.held == s.held
    requires s'.mu == s.mu || (s.mu.None? && s'.mu == Some(t) && Critical(s'.pc[t]))
    requires s'.scans == s.scans || (s.mu.None? && s'.mu.None?)
    requires s.mu.None? ==> forall r :: r in s'.scans ==> s'.scans[r] == s.held
    requires !s'.pc[t].HoldLoop? && !s'.pc[t].ReleaseLoop?
    ensures ScansOk(s')
  {
  }

  lemma ScansInside(s: State, t: Tid, st: Step)
    requires LockOk(s) && ScansOk(s) && Can(s, t, st) && Critical(s.pc[t])
    ensures ScansOk(Do(s, t, st))
  {
    assert s.mu == Some(t);
    if st.ScanDone? {
      OneScanDone(s, t, st.scan);
    } else if st.Advance? {
      AdvanceScans(s, t);
    }
  }

  lemma AdvanceScans(s: State, t: Tid)
    requires s.mu == Some(t) && ScansOk(s) && Can(s, t, Advance) && Critical(s.pc[t])
    ensures ScansOk(Do(s, t, Advance))
  {
  }

  lemma OneScanDone(s: State, t: Tid, scan: ScanId)
    requires s.mu == Some(t) && ScansOk(s) && Can(s, t, ScanDone(scan))
    ensures ScansOk(Do(s, t, ScanDone(scan)))
  {
  }

  lemma WakeupKept(s: State, t: Tid, st: Step)
    requires Roles(s) && NoLostWakeup(s) && Can(s, t, st)
    ensures NoLostWakeup(Do(s, t, st))
  {
    var s' := Do(s, t, st);
    OnlyOneMoves(s, t, st);
    if s'.held && !Stopped(s') && |s'.box.items| <= LOW_MARK && !WillRelease(s'.pc[t]) {
      if st.Advance? {
        AdvanceHeldBefore(s, t);
      } else {
        HeldBefore(s, t, st);
      }
      var u :| u in s.pc && WillRelease(s.pc[u]);
      assert s'.pc[u] == s.pc[u];
    }
  }

  /** A goroutine that leaves the scans held with a short queue was not going to release them, and they were
      held with a short queue before. */
  lemma HeldBefore(s: State, t: Tid, st: Step)
    requires Roles(s) && Can(s, t, st) && !st.Advance?
    requires
      var s' := Do(s, t, st);
      s'.held && !Stopped(s') && |s'.box.items| <= LOW_MARK && !WillRelease(s'.pc[t])
    ensures s.held && !Stopped(s) && |s.box.items| <= LOW_MARK && !WillRelease(s.pc[t])
  {
    StoppedOnce(s, t, st);
    BoxMoves(s, t, st);
  }

  lemma AdvanceHeldBefore(s: State, t: Tid)
    requires Roles(s) && Can(s, t, Advance)
    requires
      var s' := Do(s, t, Advance);
      s'.held && !Stopped(s') && |s'.box.items| <= LOW_MARK && !WillRelease(s'.pc[t])
    ensures s.held && !Stopped(s) && |s.box.items| <= LOW_MARK && !WillRelease(s.pc[t])
  {
    StoppedOnce(s, t, Advance);
  }

  /** What a step makes of the channels that senders wait on. */
  lemma RoomMoves(s: State, t: Tid, st: Step)
    requires RoomOk(s.box) && Can(s, t, st)
    ensures RoomOk(Do(s, t, st).box) && s.box.nextChan <= Do(s, t, st).box.nextChan
    ensures Do(s, t, st).pc[t].WaitRoom? ==>
      Do(s, t, st).box.room == Some(Do(s, t, st).pc[t].chan) || Do(s, t, st).pc[t] == s.pc[t]
  {
    BoxOpsKeepRoom(s.box, if st.Push? then st.msg else 0);
    BoxMoves(s, t, st);
    if !st.CheckRoom? {
      NobodyWaitsNow(s, t, st);
    }
  }

  /** What a step does to the outbox. */
  lemma BoxMoves(s: State, t: Tid, st: Step)
    requires Can(s, t, st)
    ensures
      var b, c := s.box, Do(s, t, st).box;
      || c == b.(ready := c.ready, inFlight := c.inFlight, replies := c.replies)
      || (st.Push? && c == OutboxSpec.Pushed(b, st.msg))
      || (st.CheckRoom? && |b.items| >= HARD_LIMIT && c == RoomMade(b))
      || (st.Take? && (b.items != [] || b.replies != []) && c == Popped(b))
  {
  }

  lemma NobodyWaitsNow(s: State, t: Tid, st: Step)
    requires Can(s, t, st) && !st.CheckRoom?
    ensures Do(s, t, st).pc[t].WaitRoom? ==> Do(s, t, st).pc[t] == s.pc[t]
  {
  }

  lemma WaitersKept(s: State, t: Tid, st: Step)
    requires WaitersOk(s) && Can(s, t, st)
    ensures WaitersOk(Do(s, t, st))
  {
    RoomMoves(s, t, st);
    OnlyOneMoves(s, t, st);
  }

  lemma ParkedKept(s: State, t: Tid, st: Step)
    requires Roles(s) && ParkedOk(s) && Can(s, t, st)
    ensures ParkedOk(Do(s, t, st))
  {
    var s' := Do(s, t, st);
    OnlyOneMoves(s, t, st);
    if s'.pc[PUMP].PumpParked? && (s'.box.items != [] || s'.box.replies != []) && !s'.box.ready &&
       !WillSignal(s'.pc[t]) {
      ParkedBefore(s, t, st);
      var u :| u in s.pc && WillSignal(s.pc[u]);
      assert s'.pc[u] == s.pc[u];
    }
  }

  /** A step after which the pump sleeps unwoken with something queued found it so. */
  lemma ParkedBefore(s: State, t: Tid, st: Step)
    requires Roles(s) && Can(s, t, st)
    requires
      var s' := Do(s, t, st);
      && PUMP in s'.pc && s'.pc[PUMP].PumpParked? && (s'.box.items != [] || s'.box.replies != []) && !s'.box.ready
      && !WillSignal(s'.pc[t])
    ensures
      s.pc[PUMP].PumpParked? && (s.box.items != [] || s.box.replies != []) && !s.box.ready && !WillSignal(s.pc[t])
  {
    OnlyOneMoves(s, t, st);
    if st.Advance? {
      AdvanceWakes(s, t);
    } else if SenderStep(st) {
      SenderWakes(s, t, st);
    } else {
      OtherWakes(s, t, st);
    }
  }

  lemma AdvanceWakes(s: State, t: Tid)
    requires Can(s, t, Advance)
    ensures Do(s, t, Advance).box == s.box && !Do(s, t, Advance).pc[t].PumpParked? && !WillSignal(s.pc[t])
    ensures !s.pc[t].PumpParked?
  {
  }

  lemma SenderWakes(s: State, t: Tid, st: Step)
    requires Can(s, t, st) && SenderStep(st)
    ensures !Do(s, t, st).pc[t].PumpParked?
    ensures
      var b, c := s.box, Do(s, t, st).box;
      WillSignal(Do(s, t, st).pc[t]) || c.ready ||
      (c.items == b.items && c.replies == b.replies && c.ready == b.ready && !WillSignal(s.pc[t]))
  {
  }

  lemma OtherWakes(s: State, t: Tid, st: Step)
    requires Can(s, t, st) && !SenderStep(st) && !st.Advance?
    ensures
      var s' := Do(s, t, st);
      var b, c := s.box, s'.box;
      || (c.items == c.replies == [])
      || (s'.pc[t] == s.pc[t] && c == b)
      || (!s'.pc[t].PumpParked? && PumpPC(s.pc[t]))
      || (!WillSignal(s.pc[t]) && !s.pc[t].PumpParked? && !s'.pc[t].PumpParked? && c == b)
  {
  }

  /** The queue grows only by a sender that was let in, and one is let in only below the limit. */
  lemma ItemsMove(s: State, t: Tid, st: Step)
    requires Can(s, t, st)
    ensures |Do(s, t, st).box.items| <= |s.box.items| + (if st.Push? then 1 else 0)
    ensures s.pc[t].Admitted? <==> st.Push? || (s.pc[t].Admitted? && Do(s, t, st).pc == s.pc)
    ensures st.Push? ==> !Do(s, t, st).pc[t].Admitted?
    ensures Do(s, t, st).pc[t].Admitted? && !s.pc[t].Admitted? ==>
      |Do(s, t, st).box.items| < HARD_LIMIT
  {
    BoxMoves(s, t, st);
    if !st.CheckRoom? && !st.Push? {
      NobodyLetIn(s, t, st);
    }
  }

  lemma NobodyLetIn(s: State, t: Tid, st: Step)
    requires Can(s, t, st) && !st.CheckRoom? && !st.Push?
    ensures Do(s, t, st).pc[t].Admitted? <==> s.pc[t].Admitted?
    ensures s.pc[t].Admitted? ==> Do(s, t, st).pc == s.pc
  {
    if st.Advance? {
      NobodyLetInAdvances(s, t);
    } else if !SenderStep(st) {
      OtherStepStays(s, t, st);
    }
  }

  lemma NobodyLetInAdvances(s: State, t: Tid)
    requires Can(s, t, Advance)
    ensures !Do(s, t, Advance).pc[t].Admitted? && !s.pc[t].Admitted?
  {
  }

  lemma SubsetSize(a: set<Tid>, b: set<Tid>)
    requires a <= b
    ensures |a| <= |b|
  {
    assert b == a + (b - a);
  }

  lemma AdmittedMoves(s: State, s': State, t: Tid)
    requires t in s.pc && t in s'.pc && s'.pc == s.pc[t := s'.pc[t]]
    ensures AdmittedSet(s') == if s'.pc[t].Admitted? then AdmittedSet(s) + {t} else AdmittedSet(s) - {t}
  {
  }

  lemma AdmittedSend(s: State)
    requires Roles(s)
    ensures AdmittedSet(s) <= Senders(s)
  {
  }

  lemma BoundedKept(s: State, t: Tid, st: Step)
    requires Bounded(s) && Can(s, t, st) && Roles(s) && Roles(Do(s, t, st))
    ensures Bounded(Do(s, t, st))
  {
    var s' := Do(s, t, st);
    OnlyOneMoves(s, t, st);
    ItemsMove(s, t, st);
    var was, now := AdmittedSet(s), AdmittedSet(s');
    AdmittedMoves(s, s', t);
    AdmittedSend(s');
    assert Senders(s') == Senders(s);
    SubsetSize(now, Senders(s'));
    if st.Push? {
      assert now == was - {t} && t in was;
    } else if !s'.pc[t].Admitted? || s.pc[t].Admitted? {
      assert now <= was;
      SubsetSize(now, was);
    }
  }

  // ---------------------------------------------------------------- first in, first out

  lemma ItemsLast(m: seq<Msg>, x: Msg)
    ensures Items(m + [x]) == Items(m) + (if x.Item? then [x.id] else [])
    ensures Answers(m + [x]) == Answers(m) + (if x.Answer? then [x.id] else [])
  {
    assert (m + [x])[..|m|] == m;
  }

  lemma TakenHand(s: State, t: Tid)
    requires Roles(s) && Can(s, t, Take) && (s.box.items != [] || s.box.replies != [])
    ensures
      var s' := Do(s, t, Take);
      && InHand(s) == [] && InHand(s') == [Front(s.box)] && s'.out == s.out
      && s'.pushed == s.pushed && s'.answered == s.answered && s'.box == Popped(s.box)
  {
  }

  lemma FifoTaken(s: State, t: Tid)
    requires Roles(s) && Fifo(s) && Can(s, t, Take) && (s.box.items != [] || s.box.replies != [])
    ensures Fifo(Do(s, t, Take))
  {
    TakenHand(s, t);
    assert s.out + [] == s.out;
    PoppedSame(s.out, s.box);
  }

  /** Taken or queued, the messages are the same. */
  lemma PoppedSame(out: seq<Msg>, b: Box)
    requires b.items != [] || b.replies != []
    ensures Items(out + [Front(b)]) + Popped(b).items == Items(out) + b.items
    ensures Answers(out + [Front(b)]) + Popped(b).replies == Answers(out) + b.replies
  {
    PoppedFront(b);
    if b.replies != [] {
      AnswerPopped(out, b);
    } else {
      ItemPopped(out, b);
    }
  }

  lemma AnswerPopped(out: seq<Msg>, b: Box)
    requires b.replies != []
    ensures Items(out + [Front(b)]) == Items(out)
    ensures Answers(out + [Front(b)]) + Popped(b).replies == Answers(out) + b.replies
  {
    ItemsLast(out, Front(b));
    assert Items(out) + [] == Items(out);
    assert b.replies == [b.replies[0]] + b.replies[1..];
  }

  lemma ItemPopped(out: seq<Msg>, b: Box)
    requires b.replies == [] && b.items != []
    ensures Items(out + [Front(b)]) + Popped(b).items == Items(out) + b.items
    ensures Answers(out + [Front(b)]) == Answers(out)
  {
    ItemsLast(out, Front(b));
    assert Answers(out) + [] == Answers(out);
    assert b.items == [b.items[0]] + b.items[1..];
  }

  /** What is taken is the first reply, or the first item when there is none. */
  lemma PoppedFront(b: Box)
    requires b.items != [] || b.replies != []
    ensures b.replies != [] ==>
      Front(b).Answer? && b.replies == [Front(b).id] + Popped(b).replies && Popped(b).items == b.items
    ensures b.replies == [] ==>
      Front(b).Item? && b.items == [Front(b).id] + Popped(b).items && Popped(b).replies == []
  {
  }

  lemma FifoKept(s: State, t: Tid, st: Step)
    requires Roles(s) && Fifo(s) && Can(s, t, st) && !Stopped(Do(s, t, st))
    ensures Fifo(Do(s, t, st))
  {
    if st.Take? && (s.box.items != [] || s.box.replies != []) {
      FifoTaken(s, t);
    } else if st.Advance? {
      AdvanceOut(s, t);
    } else {
      OutAndHand(s, t, st);
    }
  }

  lemma AdvanceOut(s: State, t: Tid)
    requires Roles(s) && Can(s, t, Advance)
    ensures
      var s' := Do(s, t, Advance);
      InHand(s') == InHand(s) && s'.out == s.out && s'.box == s.box && s'.pushed == s.pushed &&
      s'.answered == s.answered
  {
  }

  lemma OutAndHand(s: State, t: Tid, st: Step)
    requires Roles(s) && Can(s, t, st) && !st.Advance? && !Stopped(Do(s, t, st))
    requires st.Take? ==> s.box.items == [] && s.box.replies == []
    ensures Do(s, t, st).out + InHand(Do(s, t, st)) == s.out + InHand(s)
  {
  }

  lemma StepKeepsHold(s: State, t: Tid, st: Step)
    requires HoldInv(s) && Can(s, t, st)
    ensures HoldInv(Do(s, t, st))
  {
    RolesKept(s, t, st);
    LockKept(s, t, st);
    ScansKept(s, t, st);
    WakeupKept(s, t, st);
  }

  lemma StepKeepsQueue(s: State, t: Tid, st: Step)
    requires Roles(s) && Can(s, t, st) && Roles(Do(s, t, st)) && QueueInv(s)
    ensures QueueInv(Do(s, t, st))
  {
    WaitersKept(s, t, st);
    ParkedKept(s, t, st);
    BoundedKept(s, t, st);
    InFlightKept(s, t, st);
    if !Stopped(Do(s, t, st)) {
      StoppedOnce(s, t, st);
      FifoKept(s, t, st);
    }
  }

  lemma StoppedOnce(s: State, t: Tid, st: Step)
    requires Can(s, t, st) && !Stopped(Do(s, t, st))
    ensures !Stopped(s)
  {
    OnlyOneMoves(s, t, st);
  }

  lemma StepKeepsInv(s: State, t: Tid, st: Step)
    requires Inv(s) && Can(s, t, st)
    ensures Inv(Do(s, t, st))
  {
    StepKeepsHold(s, t, st);
    StepKeepsQueue(s, t, st);
  }

  /** A move of one goroutine. */
  datatype Move = Move(t: Tid, st: Step)

  /** The state after an interleaving of moves, if each could be made in its turn. */
  ghost function StateAfter(s0: State, moves: seq<Move>): Option<State> {
    if moves == [] then Some(s0)
    else
      var before, last := StateAfter(s0, moves[..|moves| - 1]), moves[|moves| - 1];
      if before.Some? && Can(before.value, last.t, last.st) then Some(Do(before.value, last.t, last.st)) else None
  }

  lemma {:induction false} Reachable(s0: State, moves: seq<Move>)
    requires Init(s0) && StateAfter(s0, moves).Some?
    ensures Inv(StateAfter(s0, moves).value) && StateAfter(s0, moves).value.pc.Keys == s0.pc.Keys
  {
    if moves == [] {
      assert AdmittedSet(s0) == {};
    } else {
      var init, last := moves[..|moves| - 1], moves[|moves| - 1];
      Reachable(s0, init);
      StepKeepsInv(StateAfter(s0, init).value, last.t, last.st);
      OnlyOneMoves(StateAfter(s0, init).value, last.t, last.st);
    }
  }

  // ---------------------------------------------------------------- what the outbox promises

  /** Nobody is inside holdScans or releaseScans, and the pump has no message in its hand. */
  ghost predicate Quiet(s: State) {
    forall t :: t in s.pc ==>
      var p := s.pc[t];
      p.Idle? || p.WaitRoom? || p.Admitted? || p.Signalling? || p.SignallingReply? || p.PumpLook? || p.PumpParked?
  }

  /** No interleaving leaves the scans held with the queue drained. */
  lemma HoldIsReleased(s0: State, moves: seq<Move>)
    requires Init(s0) && StateAfter(s0, moves).Some? && Quiet(StateAfter(s0, moves).value)
    ensures StateAfter(s0, moves).value.held ==> |StateAfter(s0, moves).value.box.items| > LOW_MARK
  {
    Reachable(s0, moves);
    QuietIsReleased(StateAfter(s0, moves).value);
  }

  lemma QuietIsReleased(s: State)
    requires HoldInv(s) && Quiet(s)
    ensures s.held ==> |s.box.items| > LOW_MARK
  {
  }

  /** Whenever the lock is free, every registered scan is held exactly when the hold is on. */
  lemma ScansFollowHold(s0: State, moves: seq<Move>, scan: ScanId)
    requires Init(s0) && StateAfter(s0, moves).Some?
    requires StateAfter(s0, moves).value.mu.None? && scan in StateAfter(s0, moves).value.scans
    ensures StateAfter(s0, moves).value.scans[scan] == StateAfter(s0, moves).value.held
  {
    Reachable(s0, moves);
  }

  /** A sender waits only on a channel that is closed, or that the pump closes when the queue drops
      below its limit; and a sleeping pump with something queued is about to be woken. */
  lemma EveryWaitHasAWaker(s0: State, moves: seq<Move>, t: Tid)
    requires Init(s0) && StateAfter(s0, moves).Some? && t in StateAfter(s0, moves).value.pc
    ensures
      var s := StateAfter(s0, moves).value;
      s.pc[t].WaitRoom? && s.pc[t].chan !in s.box.closed ==>
        s.box.room == Some(s.pc[t].chan) && |s.box.items| >= HARD_LIMIT
    ensures
      var s := StateAfter(s0, moves).value;
      s.pc[t].PumpParked? && (s.box.items != [] || s.box.replies != []) ==>
        s.box.ready || exists u :: u in s.pc && WillSignal(s.pc[u])
  {
    Reachable(s0, moves);
  }

  /** With n senders the queue never holds more than the limit and n - 1 messages. */
  lemma QueueIsBounded(s0: State, moves: seq<Move>)
    requires Init(s0) && StateAfter(s0, moves).Some?
    ensures |StateAfter(s0, moves).value.box.items| <= HARD_LIMIT - 1 + |Senders(s0)|
  {
    Reachable(s0, moves);
  }

  /** Until the pump stops, events are handed on in the order they were pushed, and so are replies:
      none twice, none lost; and what is pending is what was pushed and not handed on. */
  lemma TwoClassFifo(s0: State, moves: seq<Move>)
    requires Init(s0) && StateAfter(s0, moves).Some? && !Stopped(StateAfter(s0, moves).value)
    ensures
      var s := StateAfter(s0, moves).value;
      && Items(s.out) <= s.pushed && Answers(s.out) <= s.answered
      && Items(s.out + InHand(s)) + s.box.items == s.pushed
      && Answers(s.out + InHand(s)) + s.box.replies == s.answered
    ensures
      var s := StateAfter(s0, moves).value;
      PUMP in s.pc && !s.pc[PUMP].PumpSent? ==>
        |s.box.items| + |s.box.replies| + s.box.inFlight == |s.pushed| + |s.answered| - |s.out|
  {
    Reachable(s0, moves);
    var s := StateAfter(s0, moves).value;
    ItemsAndAnswers(s.out);
    if InHand(s) == [] {
      assert s.out + InHand(s) == s.out;
    } else {
      ItemsLast(s.out, InHand(s)[0]);
    }
  }

  // ---------------------------------------------------------------- replies go first

  /** Every message the pump took, in the order it took them. */
  ghost function Taken(s: State): seq<Msg> {
    s.out + InHand(s)
  }

  /** Wherever event number `j` has been taken, reply number `k` was taken before it. */
  ghost predicate ReplyFirst(taken: seq<Msg>, k: nat, j: nat) {
    forall n :: 0 <= n <= |taken| && |Items(taken[..n])| > j ==> |Answers(taken[..n])| > k
  }

  lemma {:induction false} ItemsGrow(m: seq<Msg>, n: nat)
    requires n <= |m|
    ensures |Items(m[..n])| <= |Items(m)|
  {
    if n == |m| {
      assert m[..n] == m;
    } else {
      ItemsGrow(m[..|m| - 1], n);
      assert m[..|m| - 1][..n] == m[..n];
    }
  }

  /** While both are queued neither has been taken. */
  lemma QueuedNotTaken(taken: seq<Msg>, k: nat, j: nat)
    requires |Items(taken)| <= j
    ensures ReplyFirst(taken, k, j)
  {
    forall n | 0 <= n <= |taken|
      ensures |Items(taken[..n])| <= j
    {
      ItemsGrow(taken, n);
    }
  }

  lemma ReplyFirstAppend(taken: seq<Msg>, x: Msg, k: nat, j: nat)
    requires ReplyFirst(taken, k, j)
    requires x.Item? ==> |Answers(taken)| > k
    ensures ReplyFirst(taken + [x], k, j)
  {
    var all := taken + [x];
    ItemsLast(taken, x);
    forall n | 0 <= n <= |all| && |Items(all[..n])| > j
      ensures |Answers(all[..n])| > k
    {
      if n <= |taken| {
        assert all[..n] == taken[..n];
      } else {
        assert all[..n] == all && taken[..|taken|] == taken;
      }
    }
  }

  lemma TakenMoves(s: State, t: Tid, st: Step)
    requires Roles(s) && Can(s, t, st) && !Stopped(Do(s, t, st))
    ensures
      if st.Take? && (s.box.items != [] || s.box.replies != []) then Taken(Do(s, t, st)) == Taken(s) + [Front(s.box)]
      else Taken(Do(s, t, st)) == Taken(s)
  {
    if st.Take? && (s.box.items != [] || s.box.replies != []) {
      TakenHand(s, t);
      assert s.out + [] == s.out;
    } else if st.Advance? {
      AdvanceOut(s, t);
    } else {
      OutAndHand(s, t, st);
    }
  }

  lemma AnsweredGrows(s: State, t: Tid, st: Step)
    requires Can(s, t, st)
    ensures |s.answered| <= |Do(s, t, st).answered|
  {
  }

  /** An item is taken only when no reply waits, so reply `k` was taken by then. */
  lemma ReplyFirstKept(s: State, t: Tid, st: Step, k: nat, j: nat)
    requires Inv(s) && Can(s, t, st) && !Stopped(s) && !Stopped(Do(s, t, st))
    requires k < |s.answered| && ReplyFirst(Taken(s), k, j)
    ensures k < |Do(s, t, st).answered| && ReplyFirst(Taken(Do(s, t, st)), k, j)
  {
    TakenMoves(s, t, st);
    AnsweredGrows(s, t, st);
    if st.Take? && (s.box.items != [] || s.box.replies != []) {
      PoppedFront(s.box);
      assert s.box.replies == [] ==> Answers(Taken(s)) == s.answered;
      ReplyFirstAppend(Taken(s), Front(s.box), k, j);
    }
  }

  lemma {:induction false} ReplyFirstAfter(s: State, moves: seq<Move>, k: nat, j: nat)
    requires Inv(s) && StateAfter(s, moves).Some? && !Stopped(StateAfter(s, moves).value)
    requires k < |s.answered| && ReplyFirst(Taken(s), k, j)
    ensures
      var t := StateAfter(s, moves).value;
      Inv(t) && k < |t.answered| && ReplyFirst(Taken(t), k, j)
  {
    if moves != [] {
      var init, last := moves[..|moves| - 1], moves[|moves| - 1];
      var u := StateAfter(s, init).value;
      InvAfter(s, init);
      if Stopped(u) {
        StoppedOnce(u, last.t, last.st);
      } else {
        ReplyFirstAfter(s, init, k, j);
        StepKeepsInv(u, last.t, last.st);
        ReplyFirstKept(u, last.t, last.st, k, j);
      }
    }
  }

  lemma {:induction false} InvAfter(s: State, moves: seq<Move>)
    requires Inv(s) && StateAfter(s, moves).Some?
    ensures Inv(StateAfter(s, moves).value)
  {
    if moves != [] {
      var init, last := moves[..|moves| - 1], moves[|moves| - 1];
      InvAfter(s, init);
      StepKeepsInv(StateAfter(s, init).value, last.t, last.st);
    }
  }

  /** A reply and an event that are queued at the same time leave in that order, in every continuation:
      of what the pump takes, every beginning that has the event has the reply. */
  lemma RepliesGoAhead(s0: State, moves: seq<Move>, more: seq<Move>, k: nat, j: nat)
    requires Init(s0) && StateAfter(s0, moves).Some? && !Stopped(StateAfter(s0, moves).value)
    requires
      var s := StateAfter(s0, moves).value;
      && |s.answered| - |s.box.replies| <= k < |s.answered| && |s.pushed| - |s.box.items| <= j < |s.pushed|
      && StateAfter(s, more).Some? && !Stopped(StateAfter(s, more).value)
    ensures ReplyFirst(Taken(StateAfter(StateAfter(s0, moves).value, more).value), k, j)
  {
    var s := StateAfter(s0, moves).value;
    Reachable(s0, moves);
    QueuedNotTaken(Taken(s), k, j);
    ReplyFirstAfter(s, more, k, j);
  }

  lemma {:induction false} ItemsAndAnswers(m: seq<Msg>)
    ensures |Items(m)| + |Answers(m)| == |m|
  {
    if m != [] {
      ItemsAndAnswers(m[..|m| - 1]);
    }
  }
}
