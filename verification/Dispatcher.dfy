/**
 packages/container/internal/agent/agent_dispatcher.go: which runs a new connection claims, and when
 an idle agent may exit.
 */
module Dispatcher {
  import opened DeliverySpec
  import opened Options
  import DeliveryLog

  /** Two minutes, in milliseconds. */
  const DRAIN_TIMEOUT: int := 120000

  ghost predicate Increasing(s: seq<RunId>) {
    forall i, j :: 0 <= i < j < |s| ==> s[i] < s[j]
  }

  /** The runs being executed, in order. */
  method ActiveRunIDs(active: set<RunId>) returns (ids: seq<RunId>)
    ensures Increasing(ids)
    ensures forall r :: r in ids <==> r in active
  {
    ids := [];
    var rest := active;
    while rest != {}
      invariant rest <= active
      invariant Increasing(ids)
      invariant forall r :: r in ids <==> r in active && r !in rest
    {
      var r :| r in rest;
      var i := 0;
      while i < |ids| && ids[i] < r
        invariant i <= |ids|
        invariant forall k :: 0 <= k < i ==> ids[k] < r
      {
        i := i + 1;
      }
      ghost var was := ids;
      assert i < |ids| ==> ids[i] in ids;
      ids := ids[..i] + [r] + ids[i..];
      InsertedId(was, ids, i, r);
      rest := rest - {r};
    }
  }

  lemma InsertedId(s: seq<RunId>, t: seq<RunId>, i: nat, r: RunId)
    requires Increasing(s) && r !in s && i <= |s| && t == s[..i] + [r] + s[i..]
    requires (forall k :: 0 <= k < i ==> s[k] < r) && (i < |s| ==> s[i] >= r)
    ensures Increasing(t)
    ensures forall q :: q in t <==> q in s || q == r
  {
    assert s == s[..i] + s[i..];
    assert i < |s| ==> s[i] in s;
    forall k | i <= k < |s|
      ensures s[k] > r
    {
      assert s[k] in s;
    }
  }

  /** Runs picked from those with events on their way stay in the order of their last activity. */
  lemma InOrder(all: seq<RunId>, ids: seq<RunId>, log: DeliveryLog.Log)
    requires forall r :: r in all ==> r in log.runs
    requires forall i, j :: 0 <= i < j < |all| ==> log.runs[all[i]].touched >= log.runs[all[j]].touched
    requires forall i, j :: 0 <= i < j < |ids| ==> Precedes(all, ids[i], ids[j])
    requires forall r :: r in ids ==> r in all
    ensures forall i, j :: 0 <= i < j < |ids| ==> log.runs[ids[i]].touched >= log.runs[ids[j]].touched
  {
    forall i, j | 0 <= i < j < |ids|
      ensures log.runs[ids[i]].touched >= log.runs[ids[j]].touched
    {
      assert Precedes(all, ids[i], ids[j]);
      var a, b :| 0 <= a < b < |all| && all[a] == ids[i] && all[b] == ids[j];
    }
  }

  /** The runs a new connection claims: those executing, then those with events on their way. */
  method ResumeRunIDs(active: set<RunId>, log: DeliveryLog.Log) returns (ids: seq<RunId>)
    requires log.Valid()
    ensures Distinct(ids)
    ensures forall r :: r in ids <==> r in active || (r in log.runs && Undelivered(log.State().runs[r]))
    ensures exists n: nat :: n <= |ids| && ClaimOrder(ids, n, active, log)
  {
    var head := ActiveRunIDs(active);
    var undelivered := log.UndeliveredRuns();
    var tail := Unseen(undelivered, active);
    ids := head + tail;
    Joined(head, tail);
    InOrder(undelivered, tail, log);
    InClaimOrder(head, tail, active, log);
  }

  lemma Joined(a: seq<RunId>, b: seq<RunId>)
    requires Distinct(a) && Distinct(b)
    requires forall r :: r in b ==> r !in a
    ensures Distinct(a + b)
    ensures forall r :: r in a + b <==> r in a || r in b
  {
    forall i, j | 0 <= i < j < |a + b|
      ensures (a + b)[i] != (a + b)[j]
    {
      if i < |a| <= j {
        assert a[i] in a && b[j - |a|] in b;
      }
    }
  }

  lemma InClaimOrder(head: seq<RunId>, tail: seq<RunId>, active: set<RunId>, log: DeliveryLog.Log)
    requires Increasing(head) && forall r :: r in head <==> r in active
    requires forall r :: r in tail ==> r in log.runs && r !in active
    requires forall i, j :: 0 <= i < j < |tail| ==> log.runs[tail[i]].touched >= log.runs[tail[j]].touched
    ensures ClaimOrder(head + tail, |head|, active, log)
  {
    var ids := head + tail;
    assert ids[..|head|] == head;
    forall i | 0 <= i < |ids|
      ensures ids[i] in active <==> i < |head|
    {
      assert if i < |head| then head[i] in head else tail[i - |head|] in tail;
    }
    forall i, j | |head| <= i < j < |ids|
      ensures ids[i] in log.runs && ids[j] in log.runs && log.runs[ids[i]].touched >= log.runs[ids[j]].touched
    {
      assert tail[i - |head|] in tail && tail[j - |head|] in tail;
    }
  }

  ghost predicate Precedes(all: seq<RunId>, r: RunId, s: RunId) {
    exists a, b :: 0 <= a < b < |all| && all[a] == r && all[b] == s
  }

  /** The runs not claimed yet, in the same order. */
  method Unseen(all: seq<RunId>, seen: set<RunId>) returns (ids: seq<RunId>)
    requires Distinct(all)
    ensures Distinct(ids)
    ensures forall r :: r in ids <==> r in all && r !in seen
    ensures forall i, j :: 0 <= i < j < |ids| ==> Precedes(all, ids[i], ids[j])
  {
    ids := [];
    ghost var at: seq<nat> := [];
    for k := 0 to |all|
      invariant |at| == |ids|
      invariant forall i :: 0 <= i < |ids| ==> at[i] < k && all[at[i]] == ids[i] && ids[i] !in seen
      invariant forall i, j :: 0 <= i < j < |at| ==> at[i] < at[j]
      invariant forall r :: r in all[..k] && r !in seen ==> r in ids
    {
      if all[k] !in seen {
        ids := ids + [all[k]];
        at := at + [k];
      }
    }
    assert all[..|all|] == all;
    forall i, j | 0 <= i < j < |ids|
      ensures ids[i] != ids[j] && Precedes(all, ids[i], ids[j])
    {
      assert at[i] < at[j] && all[at[i]] == ids[i] && all[at[j]] == ids[j];
    }
  }

  /** The first `n` are the executing runs, in order; the others the most recently active first. */
  ghost predicate ClaimOrder(ids: seq<RunId>, n: nat, active: set<RunId>, log: DeliveryLog.Log)
    requires n <= |ids|
    reads log, log.runs.Values
  {
    && Increasing(ids[..n])
    && (forall i :: 0 <= i < |ids| ==> (ids[i] in active <==> i < n))
    && (forall i, j :: n <= i < j < |ids| ==>
          ids[i] in log.runs && ids[j] in log.runs && log.runs[ids[i]].touched >= log.runs[ids[j]].touched)
  }

  /** What one look of the recycling goroutine sees. */
  datatype Poll = Poll(pending: bool, unwritten: bool, active: bool, now: int)

  /** The end of the wait for acks after the first `k` looks: it starts over while something is unwritten. */
  ghost function Deadline(start: int, polls: seq<Poll>, k: nat): int
    requires k <= |polls|
  {
    if k == 0 then start + DRAIN_TIMEOUT
    else if polls[k - 1].unwritten then polls[k - 1].now + DRAIN_TIMEOUT
    else Deadline(start, polls, k - 1)
  }

  /** A look at which the wait is over: nothing pending, or nothing unwritten and the deadline reached. */
  ghost predicate WaitOver(start: int, polls: seq<Poll>, k: nat)
    requires k < |polls|
  {
    !polls[k].pending || (!polls[k].unwritten && polls[k].now >= Deadline(start, polls, k))
  }

  /** What the end of the wait means when looks follow each other in time: nothing is pending, or nothing is
      unwritten and two minutes have passed since the wait began and since each look that found something
      unwritten. */
  lemma WaitOverExactly(start: int, polls: seq<Poll>, k: nat)
    requires k < |polls| && forall i, j :: 0 <= i <= j < |polls| ==> start <= polls[i].now <= polls[j].now
    ensures
      WaitOver(start, polls, k) <==>
      !polls[k].pending ||
      (&& !polls[k].unwritten && polls[k].now - start >= 120000
       && forall j :: 0 <= j < k && polls[j].unwritten ==> polls[k].now - polls[j].now >= 120000)
  {
    DeadlineReached(start, polls, k, polls[k].now);
  }

  lemma {:induction false} DeadlineReached(start: int, polls: seq<Poll>, k: nat, now: int)
    requires k <= |polls| && forall i, j :: 0 <= i <= j < |polls| ==> start <= polls[i].now <= polls[j].now
    ensures
      now >= Deadline(start, polls, k) <==>
      now - start >= 120000 && forall j :: 0 <= j < k && polls[j].unwritten ==> now - polls[j].now >= 120000
  {
    if k > 0 {
      DeadlineReached(start, polls, k - 1, now);
    }
  }

  /** Look `k` ends the wait, and no scan is running at it or was at an earlier look. */
  ghost predicate ExitsAt(start: int, polls: seq<Poll>, k: nat) {
    && k < |polls| && WaitOver(start, polls, k) && !polls[k].active
    && forall j :: 0 <= j < k ==> !WaitOver(start, polls, j) && !polls[j].active
  }

  /** The wait of maybeRecycle over successive looks. The agent exits if and only if some look says so,
      and then at that one. */
  method WaitToRecycle(start: int, polls: seq<Poll>) returns (exits: bool, at: nat)
    ensures exits <==> exists k :: ExitsAt(start, polls, k)
    ensures exits ==> ExitsAt(start, polls, at) && forall j :: 0 <= j <= at ==> !polls[j].active
  {
    var deadline := start + DRAIN_TIMEOUT;
    at := 0;
    while at < |polls| && polls[at].pending
      invariant at <= |polls|
      invariant deadline == Deadline(start, polls, at)
      invariant forall k :: 0 <= k < at ==> !WaitOver(start, polls, k) && !polls[k].active
    {
      if polls[at].unwritten {
        deadline := polls[at].now + DRAIN_TIMEOUT;
      } else if polls[at].now >= deadline {
        break;
      }
      if polls[at].active {
        return false, at;
      }
      at := at + 1;
    }
    if at == |polls| || polls[at].active {
      return false, at;
    }
    exits := true;
    assert ExitsAt(start, polls, at);
  }
}
