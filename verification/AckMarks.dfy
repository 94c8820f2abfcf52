/**
 packages/container/internal/agent/agent_client.go, the write loop's own bookkeeping: how far each
 run was written on this connection, when, and the timer that makes it ask for acks. The pipeline
 takes the same steps one at a time (Pipeline.dfy, Record and AskRun).
 */
module AckMarks {
  import opened DeliverySpec
  import opened Options
  import opened Pipeline
  import DeliveryLog

  class Marks {
    var sentUpTo: map<RunId, Mark>
    var lastWrite: map<RunId, int>
    var timer: Option<int>   // when it fires, while it is armed

    constructor ()
      ensures Value() == Up([], Empty, map[], map[], None, NotAsking)
    {
      sentUpTo, lastWrite, timer := map[], map[], None;
    }

    ghost function Value(): (l: Loop)
      reads this
      ensures l.Up?
    {
      Up([], Empty, sentUpTo, lastWrite, timer, NotAsking)
    }

    ghost predicate Valid()
      reads this
    {
      lastWrite.Keys <= sentUpTo.Keys
    }

    /** After a successful write of `ev` at time `now`. */
    method Sent(ev: Event, now: int)
      requires Valid()
      modifies this
      ensures Valid()
      ensures sentUpTo == old(sentUpTo)[ev.run := NextMark(old(Value()), ev)]
      ensures lastWrite == old(lastWrite)[ev.run := now]
      ensures timer == if old(timer).Some? then old(timer) else Some(now + ACK_DELAY)
    {
      if ev.run !in sentUpTo || sentUpTo[ev.run].exec != ev.exec || ev.num > sentUpTo[ev.run].num {
        sentUpTo := sentUpTo[ev.run := Mark(ev.exec, ev.num)];
      }
      lastWrite := lastWrite[ev.run := now];
      if timer.None? {
        timer := Some(now + ACK_DELAY);
      }
    }

    /** One turn of the loop of requestAcks, for run `r`: who still waits, the soonest due time so far, and the
        request. */
    static method LookAt(log: DeliveryLog.Log, ghost st: LogState, r: RunId, mark: Mark, waiting: map<RunId, int>,
                         now: int, due: Option<int>)
      returns (left: map<RunId, int>, next: Option<int>, ask: Option<Msg>)
      requires log.Valid() && log.State() == st && r in waiting
      ensures left == if Quiet(waiting, r, now) then waiting - {r} else waiting
      ensures next == if Quiet(waiting, r, now) then due else Sooner(due, waiting[r] + ACK_DELAY - now)
      ensures ask == Request(st, r, mark, waiting, now)
    {
      left, next, ask := waiting, due, None;
      var quiet := now - waiting[r];
      if quiet < ACK_DELAY {
        var wait := ACK_DELAY - quiet;
        if due.None? || wait < due.value {
          next := Some(wait);
        }
        return;
      }
      left := waiting - {r};
      var wanted := log.AckRequest(r, mark.exec, mark.num);
      if wanted {
        ask := Some(AskAck(r, mark.exec, mark.num));
      }
    }

    /** Asks about every quiet run whose written events are not all acknowledged; the writes to the
        runs in `broken` fail, and the first failure ends the loop. The timer is set for the next run
        that becomes quiet. */
    method RequestAcks(log: DeliveryLog.Log, ghost st: LogState, now: int, broken: set<RunId>)
      returns (alive: bool, sent: set<Msg>)
      requires Valid() && log.Valid() && log.State() == st
      modifies this`lastWrite, this`timer
      ensures Valid()
      ensures alive ==> Looked(sentUpTo, old(lastWrite), {}, st, now, lastWrite, sent)
      ensures !alive ==> exists r :: r in broken && Asks(sentUpTo, old(lastWrite), st, now, r)
      ensures alive ==> TimerFor(lastWrite, {}, timer, now, 0)
    {
      var left, nextDue;
      alive, left, sent, nextDue := LookAtAll(log, st, now, broken);
      lastWrite, timer := left, None;
      if alive {
        timer := if nextDue.Some? then Some(now + nextDue.value) else None;
        TimerSet(left, nextDue, now, timer);
      }
    }

    /** The loop of requestAcks. */
    method LookAtAll(log: DeliveryLog.Log, ghost st: LogState, now: int, broken: set<RunId>)
      returns (alive: bool, left: map<RunId, int>, sent: set<Msg>, nextDue: Option<int>)
      requires Valid() && log.Valid() && log.State() == st
      ensures left.Keys <= lastWrite.Keys
      ensures alive ==> Looked(sentUpTo, lastWrite, {}, st, now, left, sent)
      ensures !alive ==> exists r :: r in broken && Asks(sentUpTo, lastWrite, st, now, r)
      ensures alive ==> TimerFor(left, {}, nextDue, now, now)
    {
      left, sent, nextDue := lastWrite, {}, None;
      var rest := lastWrite.Keys;
      while rest != {}
        invariant rest <= left.Keys <= lastWrite.Keys
        invariant Looked(sentUpTo, lastWrite, rest, st, now, left, sent)
        invariant TimerFor(left, rest, nextDue, now, now)
      {
        var r :| r in rest;
        ghost var was, due, wasSent := left, nextDue, sent;
        assert was[r] == lastWrite[r];
        var ask;
        left, nextDue, ask := LookAt(log, st, r, sentUpTo[r], left, now, nextDue);
        if ask.Some? && r in broken {
          RequestAsks(sentUpTo, lastWrite, st, now, was, r);
          return false, left, sent, nextDue;
        }
        TimerAfter(was, rest, due, now, r, left, nextDue);
        if ask.Some? {
          sent := sent + {ask.value};
        }
        LookedAt(sentUpTo, lastWrite, rest, st, now, was, wasSent, r, ask, left, sent);
        rest := rest - {r};
      }
      alive := true;
    }
  }

  ghost function Sooner(due: Option<int>, wait: int): Option<int> {
    if due.None? || wait < due.value then Some(wait) else due
  }

  ghost predicate Quiet(lastWrite: map<RunId, int>, r: RunId, now: int) {
    r in lastWrite && now - lastWrite[r] >= ACK_DELAY
  }

  /** The runs not asked about: those not looked at, and those that are not quiet. */
  ghost function StillWaiting(lastWrite: map<RunId, int>, rest: set<RunId>, now: int): map<RunId, int> {
    map r | r in lastWrite && (r in rest || !Quiet(lastWrite, r, now)) :: lastWrite[r]
  }

  /** `due`, counted from `base`, is when the first of the runs looked at and still waiting is due. */
  ghost predicate TimerFor(lastWrite: map<RunId, int>, rest: set<RunId>, due: Option<int>, now: int, base: int) {
    && (due.None? ==> forall r :: r in lastWrite ==> r in rest)
    && (due.Some? ==>
          && base + due.value > now
          && (forall r :: r in lastWrite && r !in rest ==> base + due.value <= lastWrite[r] + ACK_DELAY)
          && exists r :: r in lastWrite && r !in rest && base + due.value == lastWrite[r] + ACK_DELAY)
  }

  /** Run `r` is quiet and its log holds something up to the run's mark. */
  ghost predicate Asks(sentUpTo: map<RunId, Mark>, lastWrite: map<RunId, int>, st: LogState, now: int, r: RunId) {
    Quiet(lastWrite, r, now) && r in sentUpTo && AckWanted(st, r, sentUpTo[r].exec, sentUpTo[r].num)
  }

  /** The request for run `r`, if it is quiet and something up to its mark is not acknowledged. */
  ghost function Request(st: LogState, r: RunId, mark: Mark, waiting: map<RunId, int>, now: int): Option<Msg> {
    if Quiet(waiting, r, now) && AckWanted(st, r, mark.exec, mark.num)
    then Some(AskAck(r, mark.exec, mark.num)) else None
  }

  lemma RequestAsks(sentUpTo: map<RunId, Mark>, lw: map<RunId, int>, st: LogState, now: int, was: map<RunId, int>,
                    r: RunId)
    requires r in lw && r in was && was[r] == lw[r] && r in sentUpTo
    ensures Request(st, r, sentUpTo[r], was, now).Some? <==> Asks(sentUpTo, lw, st, now, r)
  {
  }

  /** With all runs but `rest` looked at: who still waits, and what was sent. */
  ghost predicate Looked(sentUpTo: map<RunId, Mark>, lw: map<RunId, int>, rest: set<RunId>, st: LogState, now: int,
                         lastWrite: map<RunId, int>, sent: set<Msg>) {
    && lastWrite == StillWaiting(lw, rest, now)
    && forall m: Msg :: m in sent <==>
         m.AskAck? && m.run !in rest && Asks(sentUpTo, lw, st, now, m.run) &&
         m == AskAck(m.run, sentUpTo[m.run].exec, sentUpTo[m.run].num)
  }

  /** What looking at run `r` adds. */
  lemma LookedAt(sentUpTo: map<RunId, Mark>, lw: map<RunId, int>, rest: set<RunId>, st: LogState, now: int,
                 was: map<RunId, int>, wasSent: set<Msg>, r: RunId, ask: Option<Msg>,
                 lastWrite: map<RunId, int>, sent: set<Msg>)
    requires Looked(sentUpTo, lw, rest, st, now, was, wasSent) && r in rest && r in lw && r in sentUpTo && r in was
    requires lastWrite == if Quiet(was, r, now) then was - {r} else was
    requires ask == Request(st, r, sentUpTo[r], was, now)
    requires sent == if ask.Some? then wasSent + {ask.value} else wasSent
    ensures Looked(sentUpTo, lw, rest - {r}, st, now, lastWrite, sent)
  {
    RequestAsks(sentUpTo, lw, st, now, was, r);
  }

  lemma TimerWithout(lastWrite: map<RunId, int>, rest: set<RunId>, due: Option<int>, now: int, r: RunId)
    requires TimerFor(lastWrite, rest, due, now, now) && r in rest
    ensures TimerFor(lastWrite - {r}, rest - {r}, due, now, now)
  {
    if due.Some? {
      var q :| q in lastWrite && q !in rest && now + due.value == lastWrite[q] + ACK_DELAY;
      assert q in lastWrite - {r} && q !in rest - {r};
    }
  }

  lemma SoonerTimer(lastWrite: map<RunId, int>, rest: set<RunId>, due: Option<int>, now: int, r: RunId,
                    next: Option<int>)
    requires TimerFor(lastWrite, rest, due, now, now) && r in rest && r in lastWrite
    requires now - lastWrite[r] < ACK_DELAY
    requires next == Sooner(due, lastWrite[r] + ACK_DELAY - now)
    ensures TimerFor(lastWrite, rest - {r}, next, now, now)
  {
    assert next.Some?;
    assert now + next.value > now;
    assert forall q :: q in lastWrite && q !in rest - {r} ==> now + next.value <= lastWrite[q] + ACK_DELAY;
    if next == due {
      var q :| q in lastWrite && q !in rest && now + due.value == lastWrite[q] + ACK_DELAY;
      assert q !in rest - {r};
    } else {
      assert r !in rest - {r} && now + next.value == lastWrite[r] + ACK_DELAY;
    }
  }

  lemma TimerAfter(was: map<RunId, int>, rest: set<RunId>, due: Option<int>, now: int, r: RunId,
                   lastWrite: map<RunId, int>, next: Option<int>)
    requires TimerFor(was, rest, due, now, now) && r in rest && r in was
    requires lastWrite == if Quiet(was, r, now) then was - {r} else was
    requires next == if Quiet(was, r, now) then due else Sooner(due, was[r] + ACK_DELAY - now)
    ensures TimerFor(lastWrite, rest - {r}, next, now, now)
  {
    if Quiet(was, r, now) {
      TimerWithout(was, rest, due, now, r);
    } else {
      SoonerTimer(was, rest, due, now, r, next);
    }
  }

  lemma TimerSet(lastWrite: map<RunId, int>, due: Option<int>, now: int, timer: Option<int>)
    requires TimerFor(lastWrite, {}, due, now, now)
    requires timer == if due.Some? then Some(now + due.value) else None
    ensures TimerFor(lastWrite, {}, timer, now, 0)
  {
  }
}
