/**
 Replies to the coordinator go the same way as events but are not kept in the log: each is written,
 found unsendable, or still on its way.
 */
module PipelineReplies {
  import opened DeliverySpec
  import opened Options
  import opened Pipeline
  import opened PipelineInvariant

  /** How often reply `id` stands among the messages. */
  ghost function Count(msgs: seq<Msg>, id: nat): nat {
    if msgs == [] then 0 else One(msgs[0], id) + Count(msgs[1..], id)
  }

  ghost function One(m: Msg, id: nat): nat {
    if m == Reply(id) then 1 else 0
  }

  ghost function CountIds(ids: seq<nat>, id: nat): nat {
    if ids == [] then 0 else (if ids[0] == id then 1 else 0) + CountIds(ids[1..], id)
  }

  ghost function InHand(s: State, id: nat): nat {
    if s.loop.Up? && s.loop.hand.Holding? then One(s.loop.hand.msg, id) else 0
  }

  ghost function InPump(s: State, id: nat): nat {
    if s.pump.Some? then One(s.pump.value, id) else 0
  }

  /** How often reply `id` is on its way. */
  ghost function OnItsWay(s: State, id: nat): nat {
    CountIds(s.replies, id) + InPump(s, id) + Count(s.outChan, id) + Count(s.carry, id) + InHand(s, id)
  }

  ghost function Queued(acts: seq<Action>, id: nat): nat {
    if acts == [] then 0
    else Queued(acts[..|acts| - 1], id) + (if acts[|acts| - 1] == PushReply(id) then 1 else 0)
  }

  /** How often it was written. */
  ghost function Sent(acts: seq<Action>, id: nat): nat
    requires StateAfter(acts).Some?
  {
    if acts == [] then 0
    else
      var before, a := acts[..|acts| - 1], acts[|acts| - 1];
      Sent(before, id) + (if a.WriteOk? then InHand(StateAfter(before).value, id) else 0)
  }

  /** How often no message could carry it. */
  ghost function Unsendable(acts: seq<Action>, id: nat): nat
    requires StateAfter(acts).Some?
  {
    if acts == [] then 0
    else
      var before, a := acts[..|acts| - 1], acts[|acts| - 1];
      Unsendable(before, id) + (if a.GiveUp? then InHand(StateAfter(before).value, id) else 0)
  }

  lemma {:induction false} CountLast(msgs: seq<Msg>, m: Msg, id: nat)
    ensures Count(msgs + [m], id) == Count(msgs, id) + One(m, id)
  {
    if msgs == [] {
      assert (msgs + [m])[1..] == [];
    } else {
      CountLast(msgs[1..], m, id);
      assert (msgs + [m])[1..] == msgs[1..] + [m];
    }
  }

  lemma {:induction false} CountIdsLast(ids: seq<nat>, x: nat, id: nat)
    ensures CountIds(ids + [x], id) == CountIds(ids, id) + (if x == id then 1 else 0)
  {
    if ids == [] {
      assert (ids + [x])[1..] == [];
    } else {
      CountIdsLast(ids[1..], x, id);
      assert (ids + [x])[1..] == ids[1..] + [x];
    }
  }

  lemma QueueKeeps(s: State, a: Action, id: nat)
    requires Can(s, a) && QueueAction(a)
    ensures OnItsWay(Do(s, a), id) == OnItsWay(s, id) + (if a == PushReply(id) then 1 else 0)
  {
    if a.PushReply? {
      CountIdsLast(s.replies, a.id, id);
    } else if a.PumpSend? {
      CountLast(s.outChan, s.pump.value, id);
    }
  }

  lemma TakeKeeps(s: State, id: nat)
    requires Can(s, TakeNext)
    ensures OnItsWay(Do(s, TakeNext), id) == OnItsWay(s, id)
  {
  }

  lemma WriteKeeps(s: State, a: Action, id: nat)
    requires Can(s, a) && (a.WriteOk? || a.GiveUp?)
    ensures OnItsWay(Do(s, a), id) + InHand(s, id) == OnItsWay(s, id)
  {
  }

  /** A reply whose write failed is back in the resend buffer: there is always room. */
  lemma FailKeeps(s: State, id: nat)
    requires Can(s, WriteFail) && LoopOk(s) && CarryOk(s)
    ensures OnItsWay(Do(s, WriteFail), id) == OnItsWay(s, id)
  {
    CountLast(s.carry, s.loop.hand.msg, id);
  }

  lemma RestKeeps(s: State, a: Action, id: nat)
    requires Can(s, a)
    requires !QueueAction(a) && !a.TakeNext? && !a.WriteOk? && !a.GiveUp? && !a.WriteFail?
    ensures OnItsWay(Do(s, a), id) == OnItsWay(s, id)
  {
    OtherQueues(s, a);
    HandStays(s, a, id);
  }

  lemma HandStays(s: State, a: Action, id: nat)
    requires Can(s, a)
    requires !QueueAction(a) && !a.TakeNext? && !a.WriteOk? && !a.GiveUp? && !a.WriteFail?
    ensures InHand(Do(s, a), id) == InHand(s, id) && Do(s, a).replies == s.replies
  {
  }

  lemma StepKeeps(s: State, a: Action, id: nat)
    requires Can(s, a) && LoopOk(s) && CarryOk(s)
    ensures
      OnItsWay(Do(s, a), id) + (if a.WriteOk? || a.GiveUp? then InHand(s, id) else 0) ==
      OnItsWay(s, id) + (if a == PushReply(id) then 1 else 0)
  {
    if QueueAction(a) {
      QueueKeeps(s, a, id);
    } else if a.TakeNext? {
      TakeKeeps(s, id);
    } else if a.WriteOk? || a.GiveUp? {
      WriteKeeps(s, a, id);
    } else if a.WriteFail? {
      FailKeeps(s, id);
    } else {
      RestKeeps(s, a, id);
    }
  }

  /** Over every run each reply was written, was found unsendable, or is on its way, as often as it was
      queued: none is lost and none is sent twice. */
  lemma {:induction false} RepliesConserved(acts: seq<Action>, id: nat)
    requires StateAfter(acts).Some?
    ensures Queued(acts, id) == Sent(acts, id) + Unsendable(acts, id) + OnItsWay(StateAfter(acts).value, id)
  {
    if acts != [] {
      var before := acts[..|acts| - 1];
      RepliesConserved(before, id);
      Reachable(before);
      StepKeeps(StateAfter(before).value, acts[|acts| - 1], id);
    }
  }
}
