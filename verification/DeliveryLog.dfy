/**
 packages/container/internal/agent/agent_delivery.go: the delivery log as the program keeps it, one
 object a run, its kept events a slice of a backing array. The clock and the random execution ids
 are parameters. `State()` is the log as a value; every method is proved against the function of
 DeliverySpec that says what it does.
 */
module DeliveryLog {
  import opened DeliverySpec
  import opened Options

  /** A run's place in the replay order. */
  datatype Rank = Rank(active: bool, touched: int, id: RunId)

  /** Executing runs first, then the most recently active, then by id. */
  predicate Before(a: Rank, b: Rank) {
    if a.active != b.active then a.active
    else if a.touched != b.touched then a.touched > b.touched
    else a.id < b.id
  }

  ghost predicate SortedRanks(s: seq<Rank>) {
    forall i, j :: 0 <= i < j < |s| ==> Before(s[i], s[j])
  }

  ghost predicate DistinctIds(s: seq<Rank>) {
    forall i, j :: 0 <= i < j < |s| ==> s[i].id != s[j].id
  }

  function InsertRank(s: seq<Rank>, x: Rank): (t: seq<Rank>)
    ensures forall y :: y in t <==> y in s || y == x
    ensures |t| == |s| + 1
  {
    if s == [] then [x]
    else if Before(x, s[0]) then [x] + s
    else [s[0]] + InsertRank(s[1..], x)
  }

  /** The sort of the source, by `Before`. */
  function SortRanks(s: seq<Rank>): (t: seq<Rank>)
    ensures forall y :: y in t <==> y in s
    ensures |t| == |s|
  {
    if s == [] then [] else InsertRank(SortRanks(s[1..]), s[0])
  }

  lemma {:induction false} InsertRankSorted(s: seq<Rank>, x: Rank)
    requires SortedRanks(s)
    requires forall y :: y in s ==> y.id != x.id
    ensures SortedRanks(InsertRank(s, x))
  {
    if s != [] && !Before(x, s[0]) {
      InsertRankSorted(s[1..], x);
      assert s[0] in s;
      assert Before(s[0], x);
      assert forall y :: y in s[1..] ==> Before(s[0], y);
    }
  }

  /** Ranks of distinct runs come out in one strict order. */
  lemma {:induction false} SortRanksSorted(s: seq<Rank>)
    requires DistinctIds(s)
    ensures SortedRanks(SortRanks(s))
  {
    if s != [] {
      SortRanksSorted(s[1..]);
      InsertRankSorted(SortRanks(s[1..]), s[0]);
    }
  }

  function Ids(s: seq<Rank>): (ids: seq<RunId>)
    ensures |ids| == |s|
    ensures forall i :: 0 <= i < |s| ==> ids[i] == s[i].id
  {
    seq(|s|, i requires 0 <= i < |s| => s[i].id)
  }

  /** The leftmost index of a kept event numbered `n` or above: sort.Search over the log. */
  method Search(s: seq<Event>, n: nat) returns (i: nat)
    requires Ascending(s)
    ensures i <= |s|
    ensures forall k :: 0 <= k < i ==> s[k].num < n
    ensures forall k :: i <= k < |s| ==> s[k].num >= n
  {
    i := 0;
    var j := |s|;
    while i < j
      invariant i <= j <= |s|
      invariant forall k :: 0 <= k < i ==> s[k].num < n
      invariant forall k :: j <= k < |s| ==> s[k].num >= n
    {
      var h := (i + j) / 2;
      if s[h].num >= n {
        j := h;
      } else {
        i := h + 1;
      }
    }
  }

  lemma FoundIffHas(s: seq<Event>, n: nat, i: nat)
    requires i <= |s|
    requires forall k :: 0 <= k < i ==> s[k].num < n
    requires Ascending(s)
    requires forall k :: i <= k < |s| ==> s[k].num >= n
    ensures HasNum(s, n) <==> i < |s| && s[i].num == n
  {
    if HasNum(s, n) {
      var e :| e in s && e.num == n;
      var k :| 0 <= k < |s| && s[k] == e;
      assert i <= k;
    } else if i < |s| {
      assert s[i] in s;
    }
  }

  /** The elements `lo` to `hi - 1` at the start of a new array of this capacity. */
  method Copied(a: array<Event>, lo: nat, hi: nat, capacity: nat) returns (b: array<Event>)
    requires lo <= hi <= a.Length && hi - lo <= capacity
    ensures fresh(b) && b.Length == capacity && b[..hi - lo] == a[lo..hi]
  {
    b := new Event[capacity];
    for k := 0 to hi - lo
      invariant b[..k] == a[lo..lo + k]
    {
      b[k] := a[lo + k];
      assert a[lo..lo + k + 1] == a[lo..lo + k] + [a[lo + k]];
    }
  }

  /** The slice `lo` to `hi - 1` after its elements from place `i` on moved one place up. */
  lemma MovedUp(s: seq<Event>, t: seq<Event>, lo: nat, hi: nat, i: nat, msg: Event)
    requires |s| == |t| && lo + i < hi <= |s|
    requires forall j :: lo <= j < lo + i ==> t[j] == s[j]
    requires t[lo + i] == msg
    requires forall j :: lo + i < j < hi ==> t[j] == s[j - 1]
    ensures t[lo..hi] == s[lo..lo + i] + [msg] + s[lo + i..hi - 1]
  {
  }

  /** The elements from place `i` of the slice on move one place up, over its last one. */
  method InsertAt(a: array<Event>, lo: nat, hi: nat, i: nat, msg: Event)
    requires lo + i < hi <= a.Length
    modifies a
    ensures a[lo..hi] == old(a[lo..lo + i]) + [msg] + old(a[lo + i..hi - 1])
  {
    var k := hi - 1;
    while k > lo + i
      invariant lo + i <= k < hi
      invariant forall j :: lo <= j < k ==> a[j] == old(a[j])
      invariant forall j :: k < j < hi ==> a[j] == old(a[j - 1])
    {
      a[k] := a[k - 1];
      k := k - 1;
    }
    a[k] := msg;
    MovedUp(old(a[..]), a[..], lo, hi, i, msg);
  }

  class RunLog {
    /** Whose log it is. */
    ghost const id: RunId
    var exec: ExecId
    var nextSeq: nat
    var writtenSeq: nat
    var ackedSeq: nat
    /** The kept events are the elements `lo` to `hi - 1` of the backing array. */
    var buf: array<Event>
    var lo: nat
    var hi: nat
    ghost var unacked: seq<Event>
    var touched: int
    var dropped: bool

    constructor (ghost r: RunId, exec: ExecId, now: int)
      ensures id == r && Tied() && fresh(buf)
      ensures Value() == NewRun(exec, now)
    {
      id := r;
      this.exec, nextSeq, writtenSeq, ackedSeq := exec, 0, 0, 0;
      buf, lo, hi := new Event[0], 0, 0;
      unacked, touched, dropped := [], now, false;
    }

    ghost predicate Tied()
      reads this, buf
    {
      lo <= hi <= buf.Length && unacked == buf[lo..hi]
    }

    /** Whether something is kept. */
    predicate Keeps()
      requires Tied()
      reads this, buf
      ensures Keeps() <==> unacked != []
    {
      hi > lo
    }

    function Events(): (s: seq<Event>)
      requires Tied()
      reads this, buf
      ensures s == unacked
    {
      buf[lo..hi]
    }

    ghost function Value(): RunState
      reads this
    {
      RunState(exec, nextSeq, writtenSeq, ackedSeq, unacked, touched, dropped)
    }

    /** One place more at the end: in the backing array while it has room, otherwise in a larger one. */
    method Extend()
      requires Tied()
      modifies this`buf, this`lo, this`hi
      ensures lo < hi <= buf.Length && buf[lo..hi - 1] == unacked
      ensures buf == old(buf) || fresh(buf)
    {
      if hi == buf.Length {
        var larger := Copied(buf, lo, hi, 2 * (hi - lo) + 1);
        buf, lo, hi := larger, 0, hi - lo;
      }
      hi := hi + 1;
    }

    /** The events from place `i` on move one place up, and `msg` takes place `i`. */
    method ShiftIn(msg: Event, i: nat)
      requires lo + i < hi <= buf.Length && buf[lo..hi - 1] == unacked
      modifies this`unacked, buf
      ensures Tied() && unacked == old(unacked)[..i] + [msg] + old(unacked)[i..]
    {
      InsertAt(buf, lo, hi, i, msg);
      unacked := buf[lo..hi];
    }

    /** Keeps the events from place `i` on, in an array of their own. */
    method CopyFrom(i: nat)
      requires Tied() && i <= |unacked|
      modifies this`buf, this`lo, this`hi, this`unacked
      ensures Tied() && fresh(buf) && unacked == old(unacked)[i..]
    {
      var rest := Copied(buf, lo + i, hi, hi - lo - i);
      assert rest[..] == unacked[i..];
      buf, lo, hi := rest, 0, hi - lo - i;
      unacked := unacked[i..];
    }

    /** Lets go of all kept events and of their array. */
    method Clear()
      modifies this`buf, this`lo, this`hi, this`unacked
      ensures Tied() && fresh(buf) && unacked == []
    {
      buf, lo, hi := new Event[0], 0, 0;
      unacked := [];
    }

    /** Puts `msg` where its number belongs, by shifting the later events one place. */
    method Insert(msg: Event, i: nat)
      requires Tied() && Ascending(unacked) && |unacked| <= MAX_UNACKED && i <= |unacked|
      requires forall k :: 0 <= k < i ==> unacked[k].num < msg.num
      requires forall k :: i <= k < |unacked| ==> unacked[k].num >= msg.num
      modifies this`buf, this`lo, this`hi, this`unacked, this`dropped, buf
      ensures Tied() && (buf == old(buf) || fresh(buf))
      ensures unacked == Trimmed(Inserted(old(unacked), msg))
      ensures dropped == (old(dropped) || |Inserted(old(unacked), msg)| > MAX_UNACKED)
    {
      FoundIffHas(unacked, msg.num, i);
      if i < hi - lo && buf[lo + i].num == msg.num {
        return;
      }
      PutAt(msg, i);
      Trim();
    }

    method PutAt(msg: Event, i: nat)
      requires Tied() && Ascending(unacked) && i <= |unacked| && !HasNum(unacked, msg.num)
      requires forall k :: 0 <= k < i ==> unacked[k].num < msg.num
      requires forall k :: i <= k < |unacked| ==> unacked[k].num > msg.num
      modifies this`buf, this`lo, this`hi, this`unacked, buf
      ensures Tied() && (buf == old(buf) || fresh(buf))
      ensures unacked == Inserted(old(unacked), msg)
    {
      BelowSlice(unacked, msg.num, i);
      AboveSlice(unacked, msg.num, i);
      Extend();
      ShiftIn(msg, i);
    }

    /** Beyond the bound only the newest half of it stays. */
    method Trim()
      requires Tied()
      modifies this`buf, this`lo, this`hi, this`unacked, this`dropped
      ensures Tied() && (buf == old(buf) || fresh(buf))
      ensures unacked == Trimmed(old(unacked))
      ensures dropped == (old(dropped) || |old(unacked)| > MAX_UNACKED)
    {
      if hi - lo > MAX_UNACKED {
        dropped := true;
        CopyFrom(hi - lo - MAX_UNACKED / 2);
      }
    }

    /** The next number of the run. */
    method Number(now: int)
      modifies this`nextSeq, this`touched
      ensures Value() == NumberedRun(old(Value()), now)
    {
      nextSeq := nextSeq + 1;
      touched := now;
    }

    /** Keeps a written event until it is acknowledged. */
    method Record(msg: Event, enabled: bool, sent: bool, now: int)
      requires Tied() && Ascending(unacked) && |unacked| <= MAX_UNACKED
      modifies this, buf
      ensures Tied() && (buf == old(buf) || fresh(buf))
      ensures Value() == WrittenRun(old(Value()), msg, enabled, sent, now)
    {
      if msg.num > writtenSeq {
        writtenSeq := msg.num;
      }
      touched := now;
      if !enabled || !sent || msg.num <= ackedSeq {
        return;
      }
      var i := Search(Events(), msg.num);
      Insert(msg, i);
    }

    /** Forgets every event up to and including `n`. */
    method Acknowledge(n: nat, now: int)
      requires Tied() && Ascending(unacked)
      modifies this
      ensures Tied() && (buf == old(buf) || fresh(buf))
      ensures Value() == AckedRun(old(Value()), n, now)
    {
      if n > ackedSeq {
        ackedSeq := n;
      }
      var i := Search(Events(), n + 1);
      AboveSlice(unacked, n, i);
      DropFirst(i);
      touched := now;
    }

    /** The three ways of the source to let go of the first `i` events: with their array, by copying the
        rest once most are gone, or by moving the slice's start. */
    method DropFirst(i: nat)
      requires Tied() && i <= |unacked|
      modifies this`buf, this`lo, this`hi, this`unacked
      ensures Tied() && (buf == old(buf) || fresh(buf))
      ensures unacked == old(unacked)[i..]
    {
      if i == hi - lo {
        Clear();
      } else if i > (hi - lo) / 2 {
        CopyFrom(i);
      } else {
        lo := lo + i;
        unacked := unacked[i..];
      }
    }
  }

  class Log {
    var runs: map<RunId, RunLog>
    var enabled: bool
    /** The backing arrays, and the run whose log used each. */
    ghost var users: map<array<Event>, RunId>

    constructor ()
      ensures Valid() && State() == LogState(map[], false)
    {
      runs, enabled, users := map[], false, map[];
    }

    /** No two runs share a log or a backing array, and each log is tied to its array. */
    ghost predicate Separate()
      reads this, runs.Values, users.Keys
    {
      forall r :: r in runs ==>
        runs[r].id == r && runs[r].buf in users && users[runs[r].buf] == r && runs[r].Tied()
    }

    ghost function State(): LogState
      reads this, runs.Values
    {
      LogState(map r | r in runs :: runs[r].Value(), enabled)
    }

    ghost predicate Valid()
      reads this, runs.Values, users.Keys
    {
      Separate() && DeliverySpec.Valid(State())
    }

    /** Only the log of `r` changed. */
    twostate lemma OneRunChanged(r: RunId)
      requires r in runs && runs == old(runs)[r := runs[r]] && enabled == old(enabled)
      requires forall q :: q in old(runs) && q != r ==> unchanged(old(runs[q]))
      ensures State() == old(State()).(runs := old(State()).runs[r := runs[r].Value()])
    {
      var was, st := old(State()), State();
      forall q | q in runs && q != r
        ensures q in was.runs && st.runs[q] == was.runs[q]
      {
        assert runs[q] == old(runs[q]);
      }
      assert st.runs == was.runs[r := runs[r].Value()];
    }

    lemma ValidWith(st: LogState)
      requires Separate() && State() == st && DeliverySpec.Valid(st)
      ensures Valid()
    {
    }

    /** Logs stay apart when one of them changed, or is new. */
    twostate lemma StaySeparate(r: RunId)
      requires old(Separate()) && r in runs && runs == old(runs)[r := runs[r]] && runs[r].Tied()
      requires runs[r].id == r && users == old(users)[runs[r].buf := r]
      requires if r in old(runs) && runs[r] == old(runs[r]) then runs[r].buf == old(runs[r].buf) || fresh(runs[r].buf)
               else fresh(runs[r]) && fresh(runs[r].buf)
      requires forall q :: q in old(runs) && q != r ==> unchanged(old(runs[q])) && unchanged(old(runs[q].buf))
      ensures Separate()
    {
      forall q | q in runs && q != r
        ensures runs[q] == old(runs[q]) && runs[q].buf == old(runs[q].buf) && runs[q].Tied()
      {
      }
    }

    /** The log of `r` is discarded if it is idle. */
    method DropIfIdle(r: RunId, active: set<RunId>, now: int)
      requires Separate() && r in runs
      modifies this`runs
      ensures Separate() && runs.Keys >= old(runs).Keys - {r} && enabled == old(enabled)
      ensures
        var l := old(State());
        State() == if Idle(l.runs[r], r, active, now) then l.(runs := l.runs - {r}) else l
    {
      var cutoff := now - IDLE_TTL;
      assert State().runs[r] == runs[r].Value();
      if runs[r].touched < cutoff && r !in active && runs[r].writtenSeq >= runs[r].nextSeq {
        runs := runs - {r};
        assert State().runs == old(State()).runs - {r};
      }
    }

    method ClearOne(r: RunId)
      requires Separate() && r in runs
      modifies this`users, runs.Values
      ensures Separate() && runs == old(runs)
      ensures State() == old(State()).(runs := old(State()).runs[r := old(State()).runs[r].(unacked := [])])
    {
      runs[r].Clear();
      users := users[runs[r].buf := r];
      StaySeparate(r);
      OneRunChanged(r);
    }

    method RecordIn(r: RunId, msg: Event, sent: bool, now: int)
      requires Separate() && r in runs && RunValid(r, State().runs[r], enabled)
      modifies this`users, runs.Values, users.Keys
      ensures Separate() && runs == old(runs)
      ensures
        State() ==
        old(State()).(runs := old(State()).runs[r := WrittenRun(old(State()).runs[r], msg, enabled, sent, now)])
    {
      assert State().runs[r] == runs[r].Value();
      runs[r].Record(msg, enabled, sent, now);
      users := users[runs[r].buf := r];
      StaySeparate(r);
      OneRunChanged(r);
    }

    method AcknowledgeIn(r: RunId, n: nat, now: int)
      requires Separate() && r in runs && RunValid(r, State().runs[r], enabled)
      modifies this`users, runs.Values
      ensures Separate() && runs == old(runs)
      ensures State() == old(State()).(runs := old(State()).runs[r := AckedRun(old(State()).runs[r], n, now)])
    {
      assert State().runs[r] == runs[r].Value();
      runs[r].Acknowledge(n, now);
      users := users[runs[r].buf := r];
      StaySeparate(r);
      OneRunChanged(r);
    }

    method NumberIn(r: RunId, now: int) returns (num: nat, exec: ExecId)
      requires Separate() && r in runs
      modifies this`users, runs.Values
      ensures Separate() && runs == old(runs)
      ensures
        var rs := NumberedRun(old(State()).runs[r], now);
        State() == old(State()).(runs := old(State()).runs[r := rs]) && num == rs.nextSeq && exec == rs.exec
    {
      assert State().runs[r] == runs[r].Value();
      runs[r].Number(now);
      StaySeparate(r);
      OneRunChanged(r);
      num, exec := runs[r].nextSeq, runs[r].exec;
    }

    static ghost function ClearedBut(runs: map<RunId, RunState>, rest: set<RunId>): map<RunId, RunState> {
      map r | r in runs :: if r in rest then runs[r] else runs[r].(unacked := [])
    }

    static lemma ClearedOneMore(runs: map<RunId, RunState>, rest: set<RunId>, r: RunId)
      requires r in rest && r in runs
      ensures ClearedBut(runs, rest)[r := runs[r].(unacked := [])] == ClearedBut(runs, rest - {r})
      ensures ClearedBut(runs, rest)[r] == runs[r]
    {
    }

    static lemma AllCleared(l: LogState)
      ensures ClearedBut(l.runs, {}) == DeliverySpec.SetEnabled(l, false).runs
    {
    }

    method ClearAll()
      requires Separate()
      modifies this`users, runs.Values
      ensures Separate() && runs == old(runs)
      ensures State().runs == DeliverySpec.SetEnabled(old(State()), false).runs
    {
      ghost var was := State().runs;
      var rest := runs.Keys;
      while rest != {}
        invariant rest <= runs.Keys && Separate()
        invariant State().runs == ClearedBut(was, rest)
      {
        var r :| r in rest;
        ClearOne(r);
        ClearedOneMore(was, rest, r);
        rest := rest - {r};
      }
      AllCleared(old(State()));
    }

    method SetEnabled(on: bool)
      requires Valid()
      modifies this`users, this`enabled, runs.Values
      ensures Valid() && runs == old(runs)
      ensures State() == DeliverySpec.SetEnabled(old(State()), on)
    {
      ghost var was := State();
      enabled := on;
      assert State().runs == was.runs;
      if !on {
        ClearAll();
      }
      ApplyKeepsValid(was, OpSetEnabled(on), 0);
      ValidWith(Apply(was, OpSetEnabled(on), 0));
    }

    method Reset(r: RunId, newId: ExecId, now: int)
      requires Valid()
      modifies this`users, this`runs
      ensures Valid()
      ensures State() == DeliverySpec.Reset(old(State()), r, newId, now)
    {
      ghost var was := State();
      PutNew(r, newId, now);
      ApplyKeepsValid(was, OpReset(r, newId), now);
      ValidWith(Apply(was, OpReset(r, newId), now));
    }

    /** Run `r` gets a new log, of this execution. */
    method PutNew(r: RunId, exec: ExecId, now: int)
      requires Separate()
      modifies this`users, this`runs
      ensures Separate() && r in runs && fresh(runs[r]) && runs == old(runs)[r := runs[r]] && enabled == old(enabled)
      ensures State() == old(State()).(runs := old(State()).runs[r := NewRun(exec, now)])
    {
      var rl := new RunLog(r, exec, now);
      runs, users := runs[r := rl], users[rl.buf := r];
      StaySeparate(r);
      OneRunChanged(r);
    }

    /** The run of `msg`, made when there is none. */
    method RunOf(msg: Event, newId: ExecId, now: int)
      requires Separate()
      modifies this`users, this`runs
      ensures Separate() && msg.run in runs && enabled == old(enabled)
      ensures msg.run in old(runs) ==> runs == old(runs)
      ensures msg.run !in old(runs) ==> fresh(runs[msg.run]) && runs == old(runs)[msg.run := runs[msg.run]]
      ensures State() == old(State()).(runs := old(State()).runs[msg.run := RunFor(old(State()), msg, newId, now)])
    {
      if msg.run !in runs {
        PutNew(msg.run, if msg.exec == NO_EXEC then newId else msg.exec, now);
      } else {
        ghost var l := State();
        assert l.runs[msg.run := l.runs[msg.run]] == l.runs;
      }
    }

    /** Numbers `msg`, or refuses it when it names an execution that is not the run's current one. */
    method Stamp(msg: Event, newId: ExecId, now: int) returns (out: Event, ok: bool)
      requires Valid()
      modifies this`users, this`runs, runs.Values
      ensures Valid()
      ensures State() == DeliverySpec.Stamp(old(State()), msg, newId, now)
      ensures ok == !Refused(old(State()), msg)
      ensures out == if ok then StampedEvent(old(State()), msg, newId, now) else msg
    {
      ghost var was := State();
      if msg.run in runs && msg.exec != NO_EXEC && msg.exec != runs[msg.run].exec {
        assert was.runs[msg.run] == runs[msg.run].Value();
        return msg, false;
      }
      assert msg.run in runs ==> was.runs[msg.run] == runs[msg.run].Value();
      out := StampIn(msg, newId, now);
      ok := true;
      StampValid(was, msg, newId, now);
      ValidWith(DeliverySpec.Stamp(was, msg, newId, now));
    }

    static lemma StampSteps(l: LogState, msg: Event, newId: ExecId, now: int, mid: LogState, last: LogState)
      requires !Refused(l, msg)
      requires mid == l.(runs := l.runs[msg.run := RunFor(l, msg, newId, now)])
      requires last == mid.(runs := mid.runs[msg.run := NumberedRun(mid.runs[msg.run], now)])
      ensures last == DeliverySpec.Stamp(l, msg, newId, now)
    {
    }

    method StampIn(msg: Event, newId: ExecId, now: int) returns (out: Event)
      requires Separate() && !Refused(State(), msg)
      modifies this`users, this`runs, runs.Values
      ensures Separate() && State() == DeliverySpec.Stamp(old(State()), msg, newId, now)
      ensures out == StampedEvent(old(State()), msg, newId, now)
    {
      ghost var l := State();
      RunOf(msg, newId, now);
      ghost var mid := State();
      var num, exec := NumberIn(msg.run, now);
      StampSteps(l, msg, newId, now, mid, State());
      out := msg.(num := num, exec := exec);
    }

    /** Records that a stamped event left the queue, written (`sent`) or given up on. */
    method Written(msg: Event, sent: bool, now: int)
      requires Valid()
      modifies this`users, runs.Values, users.Keys
      ensures Valid() && runs == old(runs)
      ensures State() == DeliverySpec.Written(old(State()), msg, sent, now)
    {
      ghost var was := State();
      WrittenIn(msg, sent, now);
      ApplyKeepsValid(was, OpWritten(msg, sent), now);
      ValidWith(Apply(was, OpWritten(msg, sent), now));
    }

    method WrittenIn(msg: Event, sent: bool, now: int)
      requires Separate() && (msg.run in runs ==> RunValid(msg.run, State().runs[msg.run], enabled))
      modifies this`users, runs.Values, users.Keys
      ensures Separate() && runs == old(runs)
      ensures State() == DeliverySpec.Written(old(State()), msg, sent, now)
    {
      assert msg.run in runs ==> State().runs[msg.run] == runs[msg.run].Value();
      if msg.run !in runs || runs[msg.run].exec != msg.exec {
        return;
      }
      RecordIn(msg.run, msg, sent, now);
    }

    method Kept(msg: Event) returns (kept: bool)
      requires Valid()
      ensures kept == DeliverySpec.Kept(State(), msg)
    {
      if msg.run !in runs || runs[msg.run].exec != msg.exec {
        return false;
      }
      var rl := runs[msg.run];
      assert State().runs[msg.run] == rl.Value();
      if msg.num <= rl.ackedSeq {
        return true;
      }
      assert RunValid(msg.run, State().runs[msg.run], enabled);
      var i := Search(rl.Events(), msg.num);
      FoundIffHas(rl.unacked, msg.num, i);
      kept := i < rl.hi - rl.lo && rl.buf[rl.lo + i].num == msg.num;
    }

    method Ack(r: RunId, x: ExecId, n: nat, now: int)
      requires Valid()
      modifies this`users, runs.Values
      ensures Valid() && runs == old(runs)
      ensures State() == DeliverySpec.Ack(old(State()), r, x, n, now)
    {
      ghost var was := State();
      AckIn(r, x, n, now);
      ApplyKeepsValid(was, OpAck(r, x, n), now);
      ValidWith(Apply(was, OpAck(r, x, n), now));
    }

    method AckIn(r: RunId, x: ExecId, n: nat, now: int)
      requires Separate() && (r in runs ==> RunValid(r, State().runs[r], enabled))
      modifies this`users, runs.Values
      ensures Separate() && runs == old(runs)
      ensures State() == DeliverySpec.Ack(old(State()), r, x, n, now)
    {
      assert r in runs ==> State().runs[r] == runs[r].Value();
      if r !in runs || runs[r].exec != x {
        return;
      }
      AcknowledgeIn(r, n, now);
    }

    /** Whether to ask for acknowledgement of the run's execution `x` up to `n`. */
    method AckRequest(r: RunId, x: ExecId, n: nat) returns (ok: bool)
      requires Valid()
      ensures ok == AckWanted(State(), r, x, n)
    {
      if r !in runs || runs[r].exec != x {
        return false;
      }
      ghost var rs := State().runs[r];
      assert rs == runs[r].Value();
      assert RunValid(r, rs, enabled);
      ok := runs[r].Keeps() && runs[r].buf[runs[r].lo].num <= n;
      if ok {
        assert rs.unacked[0] in rs.unacked;
      }
    }

    method AnyQueued() returns (queued: bool)
      ensures queued == DeliverySpec.AnyQueued(State())
    {
      var rest := runs.Keys;
      while rest != {}
        invariant rest <= runs.Keys
        invariant forall r :: r in runs && r !in rest ==> runs[r].writtenSeq >= runs[r].nextSeq
      {
        var r :| r in rest;
        if runs[r].writtenSeq < runs[r].nextSeq {
          assert State().runs[r].writtenSeq < State().runs[r].nextSeq;
          return true;
        }
        rest := rest - {r};
      }
      assert forall r :: r in State().runs ==> State().runs[r] == runs[r].Value();
      queued := false;
    }

    /** The runs with events still on their way, the most recently active first. */
    method UndeliveredRuns() returns (ids: seq<RunId>)
      requires Valid()
      ensures Distinct(ids)
      ensures forall r :: r in ids <==> r in runs && Undelivered(State().runs[r])
      ensures forall i, j :: 0 <= i < j < |ids| ==> LaterTouched(ids[i], ids[j])
    {
      var ranks := UndeliveredRanks();
      ids := Ids(ranks);
      forall i | 0 <= i < |ids|
        ensures ids[i] in runs && ranks[i] == RankOf(ids[i], {}) && Undelivered(runs[ids[i]].Value())
      {
        assert ranks[i] in ranks;
      }
      forall r | r in runs && Undelivered(runs[r].Value())
        ensures r in ids
      {
        var i :| 0 <= i < |ranks| && ranks[i] == RankOf(r, {});
        assert ids[i] == r;
      }
    }

    /** The runs with events still on their way, ranked. */
    method UndeliveredRanks() returns (ranks: seq<Rank>)
      requires Separate()
      ensures SortedRanks(ranks)
      ensures forall k :: k in ranks ==> k.id in runs && Undelivered(runs[k.id].Value()) && k == RankOf(k.id, {})
      ensures forall r :: r in runs && Undelivered(runs[r].Value()) ==> RankOf(r, {}) in ranks
    {
      ranks := [];
      var rest := runs.Keys;
      while rest != {}
        invariant rest <= runs.Keys
        invariant DistinctIds(ranks)
        invariant forall k :: k in ranks ==> k.id in runs && k.id !in rest && Undelivered(runs[k.id].Value()) &&
                                             k == RankOf(k.id, {})
        invariant forall r :: r in runs && r !in rest && Undelivered(runs[r].Value()) ==> RankOf(r, {}) in ranks
      {
        var id :| id in rest;
        if runs[id].Keeps() || runs[id].writtenSeq < runs[id].nextSeq {
          ranks := ranks + [Rank(false, runs[id].touched, id)];
        }
        rest := rest - {id};
      }
      SortRanksSorted(ranks);
      ranks := SortRanks(ranks);
    }

    /** The run was active more recently than the other one, or at the same time and comes first by its id. */
    ghost predicate LaterTouched(r: RunId, q: RunId)
      requires r in runs && q in runs
      reads this, runs[r], runs[q]
    {
      runs[r].touched > runs[q].touched || (runs[r].touched == runs[q].touched && r < q)
    }

    /** `order` lists the runs that keep something: those in `active` first, then the most recently active. */
    ghost predicate InReplayOrder(order: seq<RunId>, active: set<RunId>)
      reads this, runs.Values
    {
      && ReplayOrder(State(), order)
      && (forall i :: 0 <= i < |order| ==> order[i] in runs)
      && (forall i, j :: 0 <= i < j < |order| && order[j] in active ==> order[i] in active)
      && forall i, j :: 0 <= i < j < |order| && (order[i] in active <==> order[j] in active) ==>
           LaterTouched(order[i], order[j])
    }

    /** Every kept event, run after run in the order of the replay, each run's in sequence order. */
    method Replay(active: set<RunId>) returns (out: seq<Event>)
      requires Valid()
      ensures exists order :: InReplayOrder(order, active) && out == DeliverySpec.Replay(State(), order)
    {
      var sorted := ReplayRanks(active);
      RanksInOrder(sorted, active);
      out := KeptBy(sorted);
    }

    lemma RanksInOrder(ranks: seq<Rank>, active: set<RunId>)
      requires SortedRanks(ranks)
      requires forall k :: k in ranks ==> k.id in runs && runs[k.id].unacked != [] && k == RankOf(k.id, active)
      requires forall r :: r in runs && runs[r].unacked != [] ==> RankOf(r, active) in ranks
      ensures InReplayOrder(Ids(ranks), active)
      ensures forall r :: r in Ids(ranks) ==> r in runs
    {
      var order := Ids(ranks);
      forall i | 0 <= i < |order|
        ensures order[i] in runs && runs[order[i]].unacked != [] && ranks[i] == RankOf(order[i], active)
      {
        assert ranks[i] in ranks;
      }
      forall r | r in runs && runs[r].unacked != []
        ensures r in order
      {
        var i :| 0 <= i < |ranks| && ranks[i] == RankOf(r, active);
        assert order[i] == r;
      }
      assert forall r :: r in runs ==> State().runs[r].unacked == runs[r].unacked;
    }

    method KeptBy(ranks: seq<Rank>) returns (out: seq<Event>)
      requires Separate()
      requires forall k :: k in ranks ==> k.id in runs
      ensures forall r :: r in Ids(ranks) ==> r in runs
      ensures out == DeliverySpec.Replay(State(), Ids(ranks))
    {
      ghost var st, order := State(), Ids(ranks);
      forall r | r in order
        ensures r in runs
      {
        var i :| 0 <= i < |order| && order[i] == r;
        assert ranks[i] in ranks;
      }
      out := [];
      for i := 0 to |ranks|
        invariant out == DeliverySpec.Replay(st, order[..i])
      {
        ReplayAppend(st, order[..i], order[i]);
        assert order[..i + 1] == order[..i] + [order[i]];
        out := out + runs[ranks[i].id].Events();
      }
      assert order[..|order|] == order;
    }

    ghost function RankOf(r: RunId, active: set<RunId>): Rank
      requires r in runs
      reads this, runs[r]
    {
      Rank(r in active, runs[r].touched, r)
    }

    /** The runs that keep something, in the order of the replay. */
    method ReplayRanks(active: set<RunId>) returns (ranks: seq<Rank>)
      requires Separate()
      ensures SortedRanks(ranks)
      ensures forall k :: k in ranks ==> k.id in runs && runs[k.id].unacked != [] && k == RankOf(k.id, active)
      ensures forall r :: r in runs && runs[r].unacked != [] ==> RankOf(r, active) in ranks
    {
      ranks := [];
      var rest := runs.Keys;
      while rest != {}
        invariant rest <= runs.Keys
        invariant DistinctIds(ranks)
        invariant forall k :: k in ranks ==> k.id in runs && k.id !in rest && runs[k.id].unacked != [] &&
                                             k == RankOf(k.id, active)
        invariant forall r :: r in runs && r !in rest && runs[r].unacked != [] ==> RankOf(r, active) in ranks
      {
        var id :| id in rest;
        if runs[id].Keeps() {
          ranks := ranks + [Rank(id in active, runs[id].touched, id)];
        }
        rest := rest - {id};
      }
      SortRanksSorted(ranks);
      ranks := SortRanks(ranks);
    }

    /** Discards the logs of runs that no longer execute, have nothing queued and have been idle. */
    method Gc(active: set<RunId>, now: int)
      requires Valid()
      modifies this`runs
      ensures Valid()
      ensures State() == DeliverySpec.Gc(old(State()), active, now)
    {
      ghost var was := State();
      DropIdle(active, now);
      ApplyKeepsValid(was, OpGc(active), now);
      ValidWith(Apply(was, OpGc(active), now));
    }

    static ghost function BusyOr(
      runs: map<RunId, RunState>, rest: set<RunId>, active: set<RunId>, now: int): map<RunId, RunState>
    {
      map r | r in runs && (r in rest || !Idle(runs[r], r, active, now)) :: runs[r]
    }

    static lemma BusyStep(runs: map<RunId, RunState>, rest: set<RunId>, active: set<RunId>, now: int, r: RunId)
      requires r in rest && r in runs
      ensures r in BusyOr(runs, rest, active, now) && BusyOr(runs, rest, active, now)[r] == runs[r]
      ensures
        BusyOr(runs, rest - {r}, active, now) ==
        if Idle(runs[r], r, active, now) then BusyOr(runs, rest, active, now) - {r} else BusyOr(runs, rest, active, now)
    {
    }

    static lemma AllBusy(l: LogState, active: set<RunId>, now: int)
      ensures BusyOr(l.runs, {}, active, now) == DeliverySpec.Gc(l, active, now).runs
    {
    }

    method DropIdle(active: set<RunId>, now: int)
      requires Separate()
      modifies this`runs
      ensures Separate() && State() == DeliverySpec.Gc(old(State()), active, now)
    {
      var rest := runs.Keys;
      ghost var was := State();
      while rest != {}
        invariant rest <= runs.Keys && Separate() && enabled == was.enabled
        invariant State().runs == BusyOr(was.runs, rest, active, now)
      {
        var r :| r in rest;
        BusyStep(was.runs, rest, active, now, r);
        DropIfIdle(r, active, now);
        rest := rest - {r};
      }
      AllBusy(old(State()), active, now);
    }
  }
}
