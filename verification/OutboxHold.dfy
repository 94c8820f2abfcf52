/**
 When the scans are held: after a push that leaves the queue full, until a release. OutboxThreads.dfy
 says that the hold ends again.
 */
module OutboxHold {
  import opened DeliverySpec
  import opened Options
  import opened OutboxSpec
  import opened OutboxThreads

  /** The move is a push that leaves 8,000 messages or more, with the one in flight. */
  ghost predicate FillsUp(s: State, m: Move) {
    m.st.Push? && |s.box.items| + 1 + s.box.inFlight >= 8000
  }

  /** A push filled the queue, and nobody has ended the hold since. */
  ghost predicate Pressed(s0: State, moves: seq<Move>)
    requires StateAfter(s0, moves).Some?
  {
    if moves == [] then false
    else
      var before, last := moves[..|moves| - 1], moves[|moves| - 1];
      var s, s' := StateAfter(s0, before).value, StateAfter(s0, moves).value;
      if FillsUp(s, last) then true
      else if s.held && !s'.held then false
      else Pressed(s0, before)
  }

  /** A sender that has filled the queue and has still to look whether the scans are held. */
  ghost predicate WillHold(p: PC) {
    p == Signalling(true) || p.HoldLoad? || p.HoldLock? || p.HoldRecheck?
  }

  ghost predicate HoldComing(s: State) {
    exists t :: t in s.pc && WillHold(s.pc[t])
  }

  lemma FillingSignals(s: State, m: Move)
    requires Can(s, m.t, m.st) && FillsUp(s, m)
    ensures HoldComing(Do(s, m.t, m.st))
  {
    assert WillHold(Do(s, m.t, m.st).pc[m.t]);
  }

  /** A sender on its way to the hold stays on it until the scans are held. */
  lemma OwnHoldComes(s: State, m: Move)
    requires Can(s, m.t, m.st) && WillHold(s.pc[m.t])
    ensures WillHold(Do(s, m.t, m.st).pc[m.t]) || Do(s, m.t, m.st).held
  {
    if m.st.Advance? {
      AdvanceHoldComes(s, m.t);
    } else {
      OtherHoldComes(s, m);
    }
  }

  lemma AdvanceHoldComes(s: State, t: Tid)
    requires Can(s, t, Advance) && WillHold(s.pc[t])
    ensures WillHold(Do(s, t, Advance).pc[t]) || Do(s, t, Advance).held
  {
  }

  lemma OtherHoldComes(s: State, m: Move)
    requires Can(s, m.t, m.st) && !m.st.Advance? && WillHold(s.pc[m.t])
    ensures WillHold(Do(s, m.t, m.st).pc[m.t])
  {
  }

  lemma HoldStaysComing(s: State, m: Move)
    requires Can(s, m.t, m.st) && HoldComing(s)
    ensures HoldComing(Do(s, m.t, m.st)) || Do(s, m.t, m.st).held
  {
    var u :| u in s.pc && WillHold(s.pc[u]);
    OnlyOneMoves(s, m.t, m.st);
    if u == m.t {
      OwnHoldComes(s, m);
    } else {
      assert Do(s, m.t, m.st).pc[u] == s.pc[u];
    }
  }

  /** After a push that filled the queue the scans are held, or some sender is about to see to it. */
  lemma {:induction false} FullQueueHolds(s0: State, moves: seq<Move>)
    requires Init(s0) && StateAfter(s0, moves).Some? && Pressed(s0, moves)
    ensures StateAfter(s0, moves).value.held || HoldComing(StateAfter(s0, moves).value)
  {
    var before, last := moves[..|moves| - 1], moves[|moves| - 1];
    var s := StateAfter(s0, before).value;
    if FillsUp(s, last) {
      FillingSignals(s, last);
    } else {
      FullQueueHolds(s0, before);
      if !s.held {
        HoldStaysComing(s, last);
      }
    }
  }

  /** With no such sender left, every registered scan is held whenever the lock is free. */
  lemma FullQueueHoldsScans(s0: State, moves: seq<Move>, scan: ScanId)
    requires Init(s0) && StateAfter(s0, moves).Some? && Pressed(s0, moves)
    requires
      var s := StateAfter(s0, moves).value;
      !HoldComing(s) && s.mu.None? && scan in s.scans
    ensures StateAfter(s0, moves).value.scans[scan]
  {
    FullQueueHolds(s0, moves);
    ScansFollowHold(s0, moves, scan);
  }

  /** Some push filled the queue. */
  ghost predicate EverFull(s0: State, moves: seq<Move>)
    requires StateAfter(s0, moves).Some?
  {
    if moves == [] then false
    else
      var before, last := moves[..|moves| - 1], moves[|moves| - 1];
      FillsUp(StateAfter(s0, before).value, last) || EverFull(s0, before)
  }

  lemma NoHoldBegins(s: State, m: Move)
    requires Can(s, m.t, m.st) && !s.held && !HoldComing(s) && !FillsUp(s, m)
    ensures !Do(s, m.t, m.st).held && !WillHold(Do(s, m.t, m.st).pc[m.t])
  {
    assert !WillHold(s.pc[m.t]);
    if m.st.Advance? {
      AdvanceBeginsNoHold(s, m.t);
    } else {
      OtherBeginsNoHold(s, m);
    }
  }

  lemma AdvanceBeginsNoHold(s: State, t: Tid)
    requires Can(s, t, Advance) && !s.held && !WillHold(s.pc[t])
    ensures !Do(s, t, Advance).held && !WillHold(Do(s, t, Advance).pc[t])
  {
  }

  lemma OtherBeginsNoHold(s: State, m: Move)
    requires Can(s, m.t, m.st) && !m.st.Advance? && !s.held && !WillHold(s.pc[m.t]) && !FillsUp(s, m)
    ensures !Do(s, m.t, m.st).held && !WillHold(Do(s, m.t, m.st).pc[m.t])
  {
  }

  /** No scan is held before a push has filled the queue. */
  lemma {:induction false} HeldOnlyWhenFull(s0: State, moves: seq<Move>)
    requires Init(s0) && StateAfter(s0, moves).Some? && !EverFull(s0, moves)
    ensures !StateAfter(s0, moves).value.held && !HoldComing(StateAfter(s0, moves).value)
  {
    if moves != [] {
      var before, last := moves[..|moves| - 1], moves[|moves| - 1];
      var s := StateAfter(s0, before).value;
      HeldOnlyWhenFull(s0, before);
      NoHoldBegins(s, last);
      OnlyOneMoves(s, last.t, last.st);
    }
  }

  // ---------------------------------------------------------------- the end of a hold

  /** Goroutine `t` is in releaseScans, and has been since some state in which 4,000 messages or fewer
      were queued. */
  ghost predicate DrainedSince(s0: State, moves: seq<Move>, t: Tid)
    requires StateAfter(s0, moves).Some?
  {
    var s := StateAfter(s0, moves).value;
    t in s.pc && ReleasePC(s.pc[t]) &&
    (|s.box.items| <= 4000 || (moves != [] && DrainedSince(s0, moves[..|moves| - 1], t)))
  }

  lemma ReleaseBegins(s: State, m: Move)
    requires Can(s, m.t, m.st) && !ReleasePC(s.pc[m.t]) && ReleasePC(Do(s, m.t, m.st).pc[m.t])
    ensures |Do(s, m.t, m.st).box.items| <= 4000
  {
    if m.st.Advance? {
      AdvanceBeginsRelease(s, m.t);
    } else {
      OtherBeginsRelease(s, m);
    }
  }

  lemma AdvanceBeginsRelease(s: State, t: Tid)
    requires Can(s, t, Advance) && !ReleasePC(s.pc[t]) && ReleasePC(Do(s, t, Advance).pc[t])
    ensures |Do(s, t, Advance).box.items| <= 4000
  {
  }

  lemma OtherBeginsRelease(s: State, m: Move)
    requires Can(s, m.t, m.st) && !m.st.Advance? && !ReleasePC(s.pc[m.t]) && ReleasePC(Do(s, m.t, m.st).pc[m.t])
    ensures |Do(s, m.t, m.st).box.items| <= 4000
  {
    if SenderStep(m.st) {
      SenderBeginsNoRelease(s, m);
    } else if !m.st.Handed? {
      OthersBeginNoRelease(s, m);
    }
  }

  lemma SenderBeginsNoRelease(s: State, m: Move)
    requires Can(s, m.t, m.st) && SenderStep(m.st)
    ensures !ReleasePC(Do(s, m.t, m.st).pc[m.t])
  {
  }

  lemma OthersBeginNoRelease(s: State, m: Move)
    requires Can(s, m.t, m.st) && !SenderStep(m.st) && !m.st.Advance? && !m.st.Handed? && !ReleasePC(s.pc[m.t])
    ensures !ReleasePC(Do(s, m.t, m.st).pc[m.t])
  {
  }

  lemma {:induction false} ReleaseFollowsDrain(s0: State, moves: seq<Move>, t: Tid)
    requires Init(s0) && StateAfter(s0, moves).Some? && t in StateAfter(s0, moves).value.pc
    requires ReleasePC(StateAfter(s0, moves).value.pc[t])
    ensures DrainedSince(s0, moves, t)
  {
    var before, last := moves[..|moves| - 1], moves[|moves| - 1];
    var s := StateAfter(s0, before).value;
    OnlyOneMoves(s, last.t, last.st);
    if ReleasePC(s.pc[t]) {
      ReleaseFollowsDrain(s0, before, t);
    } else {
      ReleaseBegins(s, last);
    }
  }

  lemma OnlyReleaseEndsHold(s: State, m: Move)
    requires Can(s, m.t, m.st) && s.held && !Do(s, m.t, m.st).held
    ensures s.pc[m.t].ReleaseRecheck?
  {
    if m.st.Advance? {
      OnlyRecheckEndsHold(s, m.t);
    } else {
      OthersKeepHold(s, m);
    }
  }

  lemma OnlyRecheckEndsHold(s: State, t: Tid)
    requires Can(s, t, Advance) && s.held && !Do(s, t, Advance).held
    ensures s.pc[t].ReleaseRecheck?
  {
  }

  lemma OthersKeepHold(s: State, m: Move)
    requires Can(s, m.t, m.st) && !m.st.Advance?
    ensures Do(s, m.t, m.st).held == s.held
  {
  }

  /** The scans are let go only by a goroutine that has been about it since the queue had drained. */
  lemma HoldEndsAfterDrain(s0: State, moves: seq<Move>, last: Move)
    requires Init(s0) && StateAfter(s0, moves + [last]).Some?
    requires
      assert (moves + [last])[..|moves|] == moves;
      StateAfter(s0, moves).value.held && !StateAfter(s0, moves + [last]).value.held
    ensures DrainedSince(s0, moves, last.t)
  {
    assert (moves + [last])[..|moves|] == moves;
    OnlyReleaseEndsHold(StateAfter(s0, moves).value, last);
    ReleaseFollowsDrain(s0, moves, last.t);
  }
}
