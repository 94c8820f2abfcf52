/**
 What a new connection is sent first: everything the log keeps. Only then comes what an earlier
 connection left, and the queue.
 */
module PipelineReplay {
  import opened DeliverySpec
  import opened Options
  import opened Pipeline
  import opened PipelineView
  import opened PipelineInvariant
  import opened PipelineTheorems

  /** The write loop will replay the event, or has it in its hand from the replay and not written yet. */
  ghost predicate ToReplay(s: State, e: Event) {
    s.loop.Up? &&
    (e in s.loop.todo ||
     (s.loop.hand.Holding? && s.loop.hand.src.FromReplay? && !s.loop.hand.stage.OnWire? && s.loop.hand.msg == Ev(e)))
  }

  lemma UnsentIsToReplay(s: State, r: RunId, e: Event)
    requires r in s.log.runs && s.loop.Up? && e in ViewOf(s, r).replay
    ensures ToReplay(s, e)
  {
    PickMember(Unsent(s), r, Exec(s, r));
  }

  /** While a write loop is up, every event kept of a live execution was written on this connection, or
      is still to be replayed on it, unless no message can carry it. */
  lemma KeptIsReplayed(acts: seq<Action>, r: RunId, e: Event)
    requires StateAfter(acts).Some? && Live(StateAfter(acts).value, r) && StateAfter(acts).value.loop.Up?
    requires e in StateAfter(acts).value.log.runs[r].unacked
    ensures
      var s := StateAfter(acts).value;
      e in s.wire || ToReplay(s, e) || e in s.unsendable
  {
    var s := StateAfter(acts).value;
    Reachable(acts);
    assert ReplayOk(ViewOf(s, r));
    PickMember(s.wire, r, Exec(s, r));
    if e in ViewOf(s, r).replay {
      UnsentIsToReplay(s, r, e);
    }
  }

  /** The write loop has something from carry or from the queue in its hand. */
  ghost predicate QueueInHand(s: State) {
    s.loop.Up? && s.loop.hand.Holding? && s.loop.hand.src.FromQueue?
  }

  /** Nothing is left to replay, and no write loop is about to start. */
  ghost predicate ReplayOver(s: State) {
    s.loop.Down? || (s.loop.Up? && s.loop.todo == [] && !(s.loop.hand.Holding? && s.loop.hand.src.FromReplay?))
  }

  lemma ReplayStaysOver(s: State, a: Action)
    requires ReplayOver(s) && Can(s, a) && !a.Connect?
    ensures ReplayOver(Do(s, a))
  {
  }

  lemma {:induction false} ReplayOverSince(acts: seq<Action>, k: nat)
    requires k <= |acts| && StateAfter(acts).Some?
    requires StateAfter(acts[..k]).Some? && QueueInHand(StateAfter(acts[..k]).value)
    requires forall j :: k <= j < |acts| ==> !acts[j].Connect?
    ensures ReplayOver(StateAfter(acts).value)
  {
    if k == |acts| {
      assert acts[..k] == acts;
      Reachable(acts);
    } else {
      var before := acts[..|acts| - 1];
      assert before[..k] == acts[..k];
      ReplayOverSince(before, k);
      ReplayStaysOver(StateAfter(before).value, acts[|acts| - 1]);
    }
  }

  /** Once anything was taken from carry or from the queue, everything kept of a live execution has been
      written on this connection, unless no message can carry it. */
  lemma ReplayGoesFirst(acts: seq<Action>, k: nat, r: RunId, e: Event)
    requires k <= |acts| && StateAfter(acts).Some?
    requires StateAfter(acts[..k]).Some? && QueueInHand(StateAfter(acts[..k]).value)
    requires forall j :: k <= j < |acts| ==> !acts[j].Connect?
    requires Live(StateAfter(acts).value, r) && StateAfter(acts).value.loop.Up?
    requires e in StateAfter(acts).value.log.runs[r].unacked
    ensures e in StateAfter(acts).value.wire || e in StateAfter(acts).value.unsendable
  {
    KeptIsReplayed(acts, r, e);
    ReplayOverSince(acts, k);
  }
}
