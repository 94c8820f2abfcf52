/**
 What the pipeline holds of one run's current execution, and what stays true of it. Each step of the
 pipeline is one of the few changes below to what a run sees of it; PipelineInvariant.dfy ties the
 two together.
 */
module PipelineView {
  import opened DeliverySpec
  import opened Options
  import opened Pipeline

  /** Everything of one execution of a run: its events at each place, in order. */
  datatype View = View(
    rs: RunState,
    iss: seq<Event>,        // numbered so far
    front: seq<Event>,      // in the write loop's hand (from the queue) or in carry
    back: seq<Event>,       // queued behind those
    replay: seq<Event>,     // to be replayed on this connection, not written on it yet
    replayAll: seq<Event>,  // the same, with the one whose bookkeeping is still to come
    wire: seq<Event>,       // written on this connection
    recorded: seq<Event>,   // written on it, bookkeeping done
    stale: bool,            // some event of an earlier execution of the run is on its way
    staleFirst: bool,       // none of those is queued behind one of this execution
    up: bool,
    mark: Option<Mark>,
    waiting: bool,          // the run waits for its acks to be asked for
    asks: set<Msg>,         // ack requests written on this connection or being written
    alwaysAck: bool,
    unsendable: set<Event>,
    trimmed: set<Event>,
    skipped: set<Event>)

  ghost function LineOf(v: View): seq<Event> {
    v.front + v.back
  }

  /** How many events have left the line. */
  ghost function Gone(v: View): int {
    |v.iss| - |LineOf(v)|
  }

  /** Numbered 1, 2, 3, ... without a gap or a repetition. */
  ghost predicate Numbered(v: View) {
    |v.iss| == v.rs.nextSeq && forall i :: 0 <= i < |v.iss| ==> v.iss[i].num == i + 1
  }

  /** The line is the events not gone yet, in order; those gone but not recorded were acknowledged. */
  ghost predicate LineOk(v: View) {
    && v.rs.writtenSeq <= Gone(v)
    && LineOf(v) == v.iss[Gone(v)..]
    && (Gone(v) == v.rs.writtenSeq || Gone(v) <= v.rs.ackedSeq)
    && |v.front| <= 1
  }

  ghost predicate SkippedOk(v: View) {
    forall k :: v.rs.writtenSeq <= k < |v.iss| ==> (v.iss[k] in v.skipped <==> k < Gone(v))
  }

  ghost predicate LogOk(v: View) {
    && Ascending(v.rs.unacked)
    && |v.rs.unacked| <= MAX_UNACKED
    && forall e :: e in v.rs.unacked ==> e in v.iss && v.rs.ackedSeq < e.num <= v.rs.writtenSeq
  }

  ghost predicate LossOk(v: View) {
    v.alwaysAck ==>
      forall k :: 0 <= k < v.rs.writtenSeq <= |v.iss| && v.iss[k].num > v.rs.ackedSeq ==>
        v.iss[k] in v.rs.unacked || v.iss[k] in v.unsendable || v.iss[k] in v.trimmed
  }

  ghost predicate KeptOrAcked(v: View, e: Event) {
    e.num <= v.rs.ackedSeq || e in v.rs.unacked
  }

  ghost predicate WireOk(v: View) {
    && Ascending(v.wire + v.replay)
    && (forall e :: e in v.replayAll ==> e.num <= v.rs.writtenSeq && KeptOrAcked(v, e))
    && (forall e :: e in v.recorded ==> e.num <= v.rs.writtenSeq)
  }

  ghost predicate StaleOk(v: View) {
    v.staleFirst && (v.stale ==> v.rs.writtenSeq == 0 && v.front == [])
  }

  ghost predicate Covered(v: View, e: Event) {
    exists m :: m in v.asks && m.AskAck? && m.run == e.run && m.exec == e.exec && m.num >= e.num
  }

  /** Everything written on this connection is within the run's mark, and what of it is still kept is
      waiting to be asked for or was asked for. */
  ghost predicate MarkOk(v: View) {
    v.up ==>
      forall e :: e in v.recorded ==>
        && v.mark.Some? && v.mark.value.exec == v.rs.exec && v.mark.value.num >= e.num
        && (e in v.rs.unacked ==> v.waiting || Covered(v, e))
  }

  ghost predicate Issued(v: View) {
    && (forall e :: e in v.iss ==> e.exec == v.rs.exec)
    && (forall e :: e in v.wire ==> e in v.iss)
    && (forall e :: e in v.recorded ==> e in v.wire)
    && (forall e :: e in v.replayAll ==> e in v.iss)
  }

  /** On this connection everything kept was written, or is still to be replayed, but for what no message
      can carry. */
  ghost predicate ReplayOk(v: View) {
    v.up ==> forall e :: e in v.rs.unacked ==> e in v.wire || e in v.replay || e in v.unsendable
  }

  ghost predicate ViewInv(v: View) {
    Numbered(v) && LineOk(v) && SkippedOk(v) && LogOk(v) && LossOk(v) && WireOk(v) && StaleOk(v) &&
    MarkOk(v) && Issued(v) && ReplayOk(v)
  }

  /** An execution nothing has happened in. */
  ghost predicate Untouched(v: View) {
    && v.rs.nextSeq == v.rs.writtenSeq == v.rs.ackedSeq == 0 && v.rs.unacked == []
    && v.iss == v.front == v.back == v.replay == v.replayAll == v.wire == v.recorded == []
    && v.staleFirst
  }

  lemma UntouchedInv(v: View)
    requires Untouched(v)
    ensures ViewInv(v)
  {
  }

  /** Some other run was recorded or asked about, or the run's stale events moved on. */
  ghost predicate Elsewhere(v: View, w: View) {
    && w == v.(stale := w.stale, staleFirst := w.staleFirst, waiting := w.waiting, mark := w.mark, asks := w.asks,
               unsendable := w.unsendable, trimmed := w.trimmed, skipped := w.skipped)
    && (w.stale ==> v.stale) && w.staleFirst
    && (v.recorded == [] || (w.mark == v.mark && w.waiting == v.waiting && v.asks <= w.asks))
    && v.unsendable <= w.unsendable && v.trimmed <= w.trimmed
    && (forall e :: e in v.iss ==> (e in v.skipped <==> e in w.skipped))
  }

  lemma ElsewhereInv(v: View, w: View)
    requires ViewInv(v) && Elsewhere(v, w)
    ensures ViewInv(w)
  {
    forall e | e in v.recorded && e in v.rs.unacked && v.up
      ensures w.waiting || Covered(w, e)
    {
      if !v.waiting {
        assert Covered(v, e);
      }
    }
    assert forall k :: 0 <= k < |v.iss| ==> v.iss[k] in v.iss;
  }

  /** One more event is numbered and queued. */
  lemma NumberedInv(v: View, w: View, e: Event)
    requires ViewInv(v)
    requires e.num == v.rs.nextSeq + 1 && e.exec == v.rs.exec && e !in v.skipped
    requires w == v.(rs := w.rs, iss := v.iss + [e], back := v.back + [e], stale := w.stale)
    requires w.stale ==> v.stale
    requires w.rs == v.rs.(nextSeq := e.num, touched := w.rs.touched)
    ensures ViewInv(w)
  {
    assert LineOf(w) == LineOf(v) + [e];
    assert w.iss[Gone(w)..] == v.iss[Gone(v)..] + [e];
  }

  lemma AckedInv(v: View, w: View, n: nat)
    requires ViewInv(v)
    requires w == v.(rs := w.rs, stale := w.stale) && w.rs == AckedRun(v.rs, n, w.rs.touched)
    requires w.stale ==> v.stale
    ensures ViewInv(w)
  {
    AboveFacts(v.rs.unacked, n);
    AckedKept(v, w, n);
  }

  /** What an ack takes out of the log is acknowledged. */
  lemma AckedKept(v: View, w: View, n: nat)
    requires LogOk(v) && LossOk(v) && WireOk(v) && MarkOk(v) && ReplayOk(v)
    requires w == v.(rs := w.rs, stale := w.stale) && w.rs == AckedRun(v.rs, n, w.rs.touched)
    ensures LogOk(w) && LossOk(w) && WireOk(w) && MarkOk(w) && ReplayOk(w)
  {
    AboveFacts(v.rs.unacked, n);
    assert forall e :: Covered(v, e) ==> Covered(w, e);
  }

  /** A new connection: nothing is written on it yet; without acks nothing stays kept. */
  lemma ConnectedInv(v: View, w: View, acks: bool)
    requires ViewInv(v)
    requires w == v.(rs := w.rs, replay := [], replayAll := [], wire := [], recorded := [], up := false,
                     stale := w.stale, mark := w.mark, waiting := w.waiting, asks := w.asks,
                     alwaysAck := v.alwaysAck && acks)
    requires w.stale ==> v.stale
    requires w.rs == if acks then v.rs else v.rs.(unacked := [])
    ensures ViewInv(w)
  {
  }

  /** The connection is gone; what it had still to replay stays kept. */
  lemma EndedInv(v: View, w: View)
    requires ViewInv(v)
    requires w == v.(replay := [], replayAll := [], up := false, recorded := v.wire, stale := w.stale,
                     mark := w.mark, waiting := w.waiting, asks := w.asks)
    requires forall e :: e in v.wire ==> e in v.recorded || e in v.replayAll
    requires w.stale ==> v.stale
    ensures ViewInv(w)
  {
    assert forall i, j :: 0 <= i < j < |v.wire| ==>
      (v.wire + v.replay)[i] == v.wire[i] && (v.wire + v.replay)[j] == v.wire[j];
  }

  /** The replay starts: all that is kept, nothing written on this connection yet. */
  lemma StartedInv(v: View, w: View)
    requires ViewInv(v) && v.wire == [] && v.recorded == []
    requires w == v.(replay := v.rs.unacked, replayAll := v.rs.unacked, up := true, stale := w.stale,
                     mark := w.mark, waiting := w.waiting, asks := w.asks)
    requires w.stale ==> v.stale
    ensures ViewInv(w)
  {
    assert v.wire + w.replay == v.rs.unacked;
  }

  /** The queue's next event goes into the write loop's hand. */
  lemma TakenInv(v: View, w: View, e: Event)
    requires ViewInv(v) && v.front == [] && v.back != [] && e == v.back[0] && !w.stale
    requires w == v.(front := [e], back := v.back[1..], stale := false)
    ensures ViewInv(w)
  {
    assert LineOf(w) == LineOf(v);
  }

  /** A replayed event is on the wire. */
  lemma ReplayWrittenInv(v: View, w: View, e: Event)
    requires ViewInv(v) && v.replay != [] && e == v.replay[0] && e in v.iss
    requires w == v.(wire := v.wire + [e], replay := v.replay[1..], stale := w.stale)
    requires w.stale ==> v.stale
    ensures ViewInv(w)
  {
    assert w.wire + w.replay == v.wire + v.replay;
  }

  /** The first event of the line. */
  lemma HeadOfLine(v: View, e: Event)
    requires ViewInv(v) && v.front == [e]
    ensures Gone(v) < |v.iss| && e == v.iss[Gone(v)] && e.num == Gone(v) + 1
    ensures v.rs.writtenSeq < e.num && e !in v.rs.unacked && !v.stale
    ensures v.back == v.iss[Gone(v) + 1..]
  {
    assert LineOf(v)[0] == e;
    assert LineOf(v)[1..] == v.back;
  }

  /** A queued event is on the wire. */
  lemma QueueWrittenInv(v: View, w: View, e: Event)
    requires ViewInv(v) && v.front == [e] && v.replay == [] && v.recorded == v.wire
    requires w == v.(wire := v.wire + [e], stale := w.stale)
    requires w.stale ==> v.stale
    ensures ViewInv(w)
  {
    HeadOfLine(v, e);
    assert v.wire + v.replay == v.wire;
    assert w.wire + w.replay == w.wire;
  }

  /** The bookkeeping of a replayed event changes nothing of what is kept. */
  lemma ReplayRecordedRun(v: View, e: Event, enabled: bool, sent: bool, now: int)
    requires ViewInv(v) && e in v.replayAll
    ensures WrittenRun(v.rs, e, enabled, sent, now) ==
            v.rs.(touched := now, dropped := WrittenRun(v.rs, e, enabled, sent, now).dropped)
  {
    if e.num > v.rs.ackedSeq {
      assert e in v.rs.unacked;
      assert HasNum(v.rs.unacked, e.num);
    }
  }

  /** A replayed event left the loop's hand. */
  lemma ReplayDoneInv(v: View, w: View, e: Event)
    requires ViewInv(v) && e in v.replayAll && e.exec == v.rs.exec
    requires w == v.(rs := w.rs, replayAll := w.replayAll, replay := w.replay, recorded := w.recorded,
                     unsendable := w.unsendable, trimmed := w.trimmed, mark := w.mark, waiting := w.waiting,
                     stale := w.stale)
    requires w.rs == v.rs.(touched := w.rs.touched, dropped := w.rs.dropped)
    requires v.replayAll == [e] + w.replayAll
    requires w.replay == w.replayAll && (v.replay == w.replay || (v.replay == v.replayAll && e in w.unsendable))
    requires w.stale ==> v.stale
    requires v.unsendable <= w.unsendable && v.trimmed <= w.trimmed
    requires NotRecorded(v, w) || RecordedNow(v, w, e)
    ensures ViewInv(w)
  {
    if v.replay == v.replayAll {
      AscendingWithout(v.wire, e, w.replay);
      assert v.wire + v.replay == v.wire + [e] + w.replay;
    }
    MarkAdvances(v, w, e);
  }

  lemma AscendingWithout(a: seq<Event>, e: Event, b: seq<Event>)
    ensures Ascending(a + [e] + b) ==> Ascending(a + b)
  {
    var s, t := a + [e] + b, a + b;
    assert forall k :: 0 <= k < |t| ==> t[k] == s[if k < |a| then k else k + 1];
  }

  /** The mark after `e`. */
  ghost function Advanced(m: Option<Mark>, e: Event): Mark {
    if m.None? || m.value.exec != e.exec || e.num > m.value.num then Mark(e.exec, e.num) else m.value
  }

  ghost predicate NotRecorded(v: View, w: View) {
    w.recorded == v.recorded && w.waiting == v.waiting && w.mark == v.mark
  }

  /** The bookkeeping of `e`, which is on the wire. */
  ghost predicate RecordedNow(v: View, w: View, e: Event) {
    && (forall x :: x in w.recorded <==> x in v.recorded || x == e)
    && e in v.wire && w.waiting && w.mark.Some? && w.mark.value == Advanced(v.mark, e)
  }

  lemma MarkAdvances(v: View, w: View, e: Event)
    requires MarkOk(v) && e.exec == v.rs.exec && w.rs.exec == v.rs.exec
    requires w.up == v.up && w.asks == v.asks
    requires forall x :: x in v.recorded && x in w.rs.unacked ==> x in v.rs.unacked
    requires NotRecorded(v, w) || RecordedNow(v, w, e)
    ensures MarkOk(w)
  {
    assert forall x :: Covered(v, x) ==> Covered(w, x);
  }

  /** The head of the line is recorded as written: kept until it is acknowledged. */
  lemma QueueRecordedInv(v: View, w: View, e: Event, enabled: bool)
    requires ViewInv(v) && v.front == [e] && v.replay == v.replayAll == [] && e in v.iss
    requires v.alwaysAck ==> enabled
    requires w == v.(rs := w.rs, front := [], recorded := w.recorded, trimmed := w.trimmed,
                     mark := w.mark, waiting := w.waiting, stale := w.stale)
    requires w.stale ==> v.stale
    requires w.rs == WrittenRun(v.rs, e, enabled, true, w.rs.touched)
    requires v.trimmed <= w.trimmed
    requires forall x :: x in v.rs.unacked && x !in w.rs.unacked ==> x in w.trimmed
    requires enabled && e.num > v.rs.ackedSeq && e !in w.rs.unacked ==> e in w.trimmed
    requires RecordedNow(v, w, e)
    ensures ViewInv(w)
  {
    HeadOfLine(v, e);
    RecordedRun(v, e, enabled, w.rs.touched);
    assert LineOf(w) == v.back;
    MarkAdvances(v, w, e);
    QueueGoneLoss(v, w, e);
    assert w.wire + w.replay == v.wire + v.replay;
  }

  /** The log after the head of the line is recorded. */
  lemma RecordedRun(v: View, e: Event, enabled: bool, now: int)
    requires ViewInv(v) && v.front == [e] && e in v.iss
    ensures
      var rs := WrittenRun(v.rs, e, enabled, true, now);
      && rs.writtenSeq == e.num
      && LogOk(v.(rs := rs))
      && (forall x :: x in rs.unacked ==> x in v.rs.unacked || (x == e && e.num > v.rs.ackedSeq))
  {
    HeadOfLine(v, e);
    InsertedFacts(v.rs.unacked, e);
  }

  /** What is lost of the log by then, if anything, is accounted for. */
  lemma QueueGoneLoss(v: View, w: View, e: Event)
    requires ViewInv(v) && v.front == [e]
    requires w.iss == v.iss && w.alwaysAck == v.alwaysAck && w.rs.ackedSeq == v.rs.ackedSeq
    requires w.rs.writtenSeq == e.num
    requires v.unsendable <= w.unsendable && v.trimmed <= w.trimmed
    requires forall x :: x in v.rs.unacked && x !in w.rs.unacked ==> x in w.trimmed
    requires v.alwaysAck && e.num > v.rs.ackedSeq ==> e in w.rs.unacked || e in w.unsendable || e in w.trimmed
    ensures LossOk(w)
  {
    HeadOfLine(v, e);
    forall k | 0 <= k < w.rs.writtenSeq <= |w.iss| && w.iss[k].num > w.rs.ackedSeq && w.alwaysAck
      ensures w.iss[k] in w.rs.unacked || w.iss[k] in w.unsendable || w.iss[k] in w.trimmed
    {
      if k < v.rs.writtenSeq {
        assert v.iss[k] in v.rs.unacked || v.iss[k] in v.unsendable || v.iss[k] in v.trimmed;
      } else {
        assert k == Gone(v);
      }
    }
  }

  /** The head of the line is given up on. */
  lemma QueueGivenUpInv(v: View, w: View, e: Event)
    requires ViewInv(v) && v.front == [e] && e in v.iss && e in w.unsendable && v.unsendable <= w.unsendable
    requires w == v.(rs := w.rs, front := [], unsendable := w.unsendable, stale := w.stale)
    requires w.stale ==> v.stale
    requires w.rs == v.rs.(writtenSeq := Max(v.rs.writtenSeq, e.num), touched := w.rs.touched)
    ensures ViewInv(w)
  {
    HeadOfLine(v, e);
    assert LineOf(w) == v.back;
    QueueGoneLoss(v, w, e);
    assert forall x :: Covered(v, x) ==> Covered(w, x);
  }

  /** The head of the line failed to be written, but is acknowledged already: it is let go. */
  lemma QueueSkippedInv(v: View, w: View, e: Event)
    requires ViewInv(v) && v.front == [e] && KeptOrAcked(v, e) && e in v.iss
    requires w == v.(front := [], skipped := w.skipped, stale := w.stale)
    requires w.stale ==> v.stale
    requires forall x :: x in w.skipped <==> x in v.skipped || x == e
    ensures ViewInv(w)
  {
    HeadOfLine(v, e);
    assert LineOf(w) == v.back;
    SkippedNext(v, w, e);
    OnlyLineChanged(v, w);
  }

  /** What does not speak of the line stays true when only the line changes. */
  lemma OnlyLineChanged(v: View, w: View)
    requires ViewInv(v) && w == v.(front := w.front, skipped := w.skipped, stale := w.stale)
    ensures Numbered(w) && LogOk(w) && LossOk(w) && WireOk(w) && MarkOk(w) && Issued(w) && ReplayOk(w)
  {
    assert forall x :: Covered(v, x) ==> Covered(w, x);
  }

  lemma SkippedNext(v: View, w: View, e: Event)
    requires Numbered(v) && SkippedOk(v) && 0 <= Gone(v) < |v.iss| && e == v.iss[Gone(v)]
    requires w.iss == v.iss && w.rs == v.rs && Gone(w) == Gone(v) + 1
    requires forall x :: x in w.skipped <==> x in v.skipped || x == e
    ensures SkippedOk(w)
  {
    forall k | w.rs.writtenSeq <= k < |w.iss|
      ensures w.iss[k] in w.skipped <==> k < Gone(w)
    {
      assert w.iss[k] == e <==> k == Gone(v);
    }
  }

  /** The run's acks are asked for: up to its mark, if anything that low is still kept. */
  lemma AskedInv(v: View, w: View, r: RunId)
    requires ViewInv(v) && v.up
    requires forall e :: e in v.iss ==> e.run == r
    requires w == v.(waiting := false, asks := w.asks, stale := w.stale) && v.asks <= w.asks
    requires w.stale ==> v.stale
    requires
      v.mark.Some? && v.mark.value.exec == v.rs.exec &&
      (exists e :: e in v.rs.unacked && e.num <= v.mark.value.num) ==>
        AskAck(r, v.rs.exec, v.mark.value.num) in w.asks
    ensures ViewInv(w)
  {
    forall e | e in v.recorded && e in v.rs.unacked
      ensures Covered(w, e)
    {
      assert e in v.iss;
      var m := AskAck(r, v.rs.exec, v.mark.value.num);
      assert m in w.asks;
    }
  }
}
