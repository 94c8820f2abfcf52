/**
 packages/container/internal/agent/agent_outbox.go: the agent's queue of messages for the
 coordinator. Each method below is what the source does between taking and releasing the outbox's
 lock; waiting on a channel happens between them (OutboxThreads.dfy). Messages are numbers.
 */
module OutboxSpec {
  import opened DeliverySpec
  import opened Options

  const HIGH_MARK: nat := 8000

  const LOW_MARK: nat := 4000

  const HARD_LIMIT: nat := 100000

  datatype Msg = Item(id: nat) | Answer(id: nat)

  /** The outbox as a value. `room` is the channel that waiting senders wait on, if there is one;
      `closed` the channels of earlier waits, whose waiters go on. */
  datatype Box = Box(
    items: seq<nat>,
    replies: seq<nat>,
    inFlight: nat,
    ready: bool,
    room: Option<nat>,
    closed: set<nat>,
    nextChan: nat)

  function EmptyBox(): Box {
    Box([], [], 0, false, None, {}, 0)
  }

  /** A waiter's channel is the current one or was closed; nobody waits below the limit. */
  ghost predicate RoomOk(b: Box) {
    && (b.room.Some? ==> |b.items| >= HARD_LIMIT && b.room.value < b.nextChan && b.room.value !in b.closed)
    && (forall c: nat :: c in b.closed ==> c < b.nextChan)
    && (forall c: nat :: c < b.nextChan ==> c in b.closed || b.room == Some(c))
  }

  ghost function RoomMade(b: Box): Box {
    if b.room.None? then b.(room := Some(b.nextChan), nextChan := b.nextChan + 1) else b
  }

  ghost function Pushed(b: Box, m: nat): Box {
    b.(items := b.items + [m])
  }

  ghost predicate Full(b: Box) {
    |b.items| + b.inFlight >= HIGH_MARK
  }

  ghost function Front(b: Box): Msg
    requires b.items != [] || b.replies != []
  {
    if b.replies != [] then Answer(b.replies[0]) else Item(b.items[0])
  }

  /** Without its front: the oldest reply, or with no reply waiting the oldest item. */
  ghost function Popped(b: Box): Box
    requires b.items != [] || b.replies != []
  {
    if b.replies != [] then b.(replies := b.replies[1..], inFlight := b.inFlight + 1)
    else
      var c := b.(items := b.items[1..], inFlight := b.inFlight + 1);
      if b.room.Some? && |c.items| < HARD_LIMIT
      then c.(room := None, closed := b.closed + {b.room.value}) else c
  }

  lemma BoxOpsKeepRoom(b: Box, m: nat)
    requires RoomOk(b)
    ensures RoomOk(Pushed(b, m))
    ensures |b.items| >= HARD_LIMIT ==> RoomOk(RoomMade(b)) && RoomMade(b).room.Some?
    ensures b.items != [] || b.replies != [] ==> RoomOk(Popped(b))
  {
  }
}

module Outbox {
  import opened DeliverySpec
  import opened Options
  import opened OutboxSpec

  class Outbox {
    var items: seq<nat>
    var replies: seq<nat>
    var inFlight: nat
    var ready: bool
    var room: Option<nat>
    ghost var closed: set<nat>
    ghost var nextChan: nat

    constructor ()
      ensures Value() == EmptyBox() && RoomOk(Value())
    {
      items, replies, inFlight, ready, room := [], [], 0, false, None;
      closed, nextChan := {}, 0;
    }

    ghost function Value(): Box
      reads this
    {
      Box(items, replies, inFlight, ready, room, closed, nextChan)
    }

    /** One look of waitRoom: admitted below the limit, otherwise told which channel to wait on. */
    method CheckRoom(newChan: nat) returns (admitted: bool, wait: nat)
      requires RoomOk(Value()) && newChan == nextChan
      modifies this`room, this`nextChan
      ensures RoomOk(Value())
      ensures admitted == (|items| < HARD_LIMIT)
      ensures Value() == if admitted then old(Value()) else RoomMade(old(Value()))
      ensures !admitted ==> room == Some(wait)
    {
      if |items| < HARD_LIMIT {
        return true, 0;
      }
      if room.None? {
        room := Some(newChan);
        nextChan := nextChan + 1;
      }
      return false, room.value;
    }

    /** Adds a message at the back; tells whether the queue has reached its high mark. */
    method Push(msg: nat) returns (full: bool)
      requires RoomOk(Value())
      modifies this`items
      ensures RoomOk(Value()) && Value() == Pushed(old(Value()), msg)
      ensures full == Full(Value())
    {
      items := items + [msg];
      full := |items| + inFlight >= HIGH_MARK;
    }

    method PushReply(msg: nat)
      requires RoomOk(Value())
      modifies this`replies
      ensures RoomOk(Value()) && Value() == old(Value()).(replies := old(replies) + [msg])
    {
      replies := replies + [msg];
    }

    /** One look of take: the front of the queue, replies first. */
    method TryTake() returns (msg: Option<Msg>)
      requires RoomOk(Value())
      modifies this`items, this`replies, this`inFlight, this`room, this`closed
      ensures RoomOk(Value())
      ensures msg.None? <==> old(items) == [] && old(replies) == []
      ensures msg.None? ==> Value() == old(Value())
      ensures msg.Some? ==> msg.value == Front(old(Value())) && Value() == Popped(old(Value()))
    {
      if |replies| > 0 {
        msg := Some(Answer(replies[0]));
        replies := replies[1..];
        inFlight := inFlight + 1;
      } else if |items| > 0 {
        msg := Some(Item(items[0]));
        items := items[1..];
        inFlight := inFlight + 1;
        if room.Some? && |items| < HARD_LIMIT {
          closed := closed + {room.value};
          room := None;
        }
      } else {
        msg := None;
      }
    }

    /** Records that a taken message was handed on; tells whether the queue is down to its low mark. */
    method Handed() returns (drained: bool)
      requires inFlight > 0
      modifies this`inFlight
      ensures Value() == old(Value()).(inFlight := old(inFlight) - 1)
      ensures drained == (|items| <= LOW_MARK)
    {
      inFlight := inFlight - 1;
      drained := |items| <= LOW_MARK;
    }

    /** Wakes the pump, at most one wakeup ahead. */
    method Signal()
      modifies this`ready
      ensures Value() == old(Value()).(ready := true)
    {
      ready := true;
    }

    /** One look at the wakeup signal, which the look takes. */
    method TryWake() returns (woken: bool)
      modifies this`ready
      ensures woken == old(ready) && Value() == old(Value()).(ready := false)
    {
      woken, ready := ready, false;
    }

    method Pending() returns (n: nat)
      ensures n == |items| + |replies| + inFlight
    {
      n := |items| + |replies| + inFlight;
    }
  }
}
