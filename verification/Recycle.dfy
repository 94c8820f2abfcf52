/**
 The exit of an idle agent (packages/container/internal/agent/agent_dispatcher.go) seen together with
 the pipeline: what its looks at the session's output mean for the events.
 */
module Recycle {
  import opened DeliverySpec
  import opened Options
  import opened Pipeline
  import opened PipelineInvariant
  import opened PipelineTheorems
  import opened Dispatcher

  /** What a look sees when the pipeline is in state `s`. */
  ghost function Look(s: State, active: bool): Poll {
    Poll(PendingOutput(s), UnwrittenOutput(s), active, s.clock)
  }

  /** When the agent exits, no event of a live execution is unwritten. */
  lemma NothingUnwrittenAtExit(acts: seq<Action>, active: bool, start: int, polls: seq<Poll>, k: nat, r: RunId)
    requires StateAfter(acts).Some? && Live(StateAfter(acts).value, r)
    requires ExitsAt(start, polls, k) && polls[k] == Look(StateAfter(acts).value, active)
    ensures Unwritten(StateAfter(acts).value, r) == []
  {
    if Unwritten(StateAfter(acts).value, r) != [] {
      OnTheirWayAreClaimed(acts, r);
    }
  }

  /** Before the deadline it exits only when every event was acknowledged, given up on as unsendable or
      dropped by the per-run bound. */
  lemma NothingLostAtEarlyExit(
    acts: seq<Action>, active: bool, start: int, polls: seq<Poll>, k: nat, r: RunId, e: Event)
    requires StateAfter(acts).Some? && Live(StateAfter(acts).value, r) && StateAfter(acts).value.alwaysAck
    requires ExitsAt(start, polls, k) && polls[k] == Look(StateAfter(acts).value, active)
    requires polls[k].now < Deadline(start, polls, k)
    requires e in StateAfter(acts).value.issued && Of(e, r, Exec(StateAfter(acts).value, r))
    ensures
      var s := StateAfter(acts).value;
      e.num <= s.log.runs[r].ackedSeq || e in s.unsendable || e in s.trimmed
  {
    NothingPendingNothingLost(acts, r, e);
  }

  /** A run that is stuck keeps the agent from exiting, whatever else happens, until it has a new event or
      a new dispatch. */
  lemma StuckNeverExits(
    s: State, r: RunId, more: seq<Action>, active: bool, start: int, polls: seq<Poll>, k: nat)
    requires Inv(s) && Stuck(s, r)
    requires StateFrom(s, more).Some? && forall a :: a in more ==> LeavesAlone(a, r)
    requires k < |polls| && polls[k] == Look(StateFrom(s, more).value, active)
    ensures !ExitsAt(start, polls, k)
  {
    QueuedForGood(s, more, r);
  }
}
