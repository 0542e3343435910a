/** The inductive invariant of the audit writer, part by part. */
module AsyncInvariant {
  import opened Machines
  import opened AsyncModel

  // ---------- the parts ----------

  /** Past the closed check and not yet done with the channel. */
  predicate PastCheck(p: Writer) {
    p.Open? || p.Full? || p.Blocking? || p.Sent?
  }

  predicate Both(p: Closer, q: Closer) {
    HoldsWrite(p) && HoldsWrite(q)
  }

  /** The read-write lock excludes what it should. */
  ghost predicate MutexInv(s: State) {
    && (forall w, k :: w in s.writers && k in s.closers && HoldsWrite(s.closers[k]) ==> !HoldsRead(s.writers[w]))
    && (forall k, l :: k in s.closers && l in s.closers && Both(s.closers[k], s.closers[l]) ==> k == l)
  }

  predicate PastStop(p: Closer) {
    p.Unlocking? || p.Waiting? || p.Closed?
  }

  /** What `closed` and the two channels mean for the calls in flight. */
  ghost predicate CloseInv(s: State) {
    && (s.stopClosed ==> s.closed)
    && (forall k :: k in s.closers && s.closers[k].Marked? ==> s.closed && !s.stopClosed)
    && (forall k :: k in s.closers && PastStop(s.closers[k]) ==> s.stopClosed)
    && (s.closed && !s.stopClosed ==> exists k :: k in s.closers && s.closers[k].Marked?)
    && (s.closed ==> forall w :: w in s.writers ==> !PastCheck(s.writers[w]))
    && (forall k :: k in s.closers && s.closers[k] == Closed(true) ==> s.doneClosed)
  }

  /** The write loop has stored the batch, which is still in the buffer. */
  predicate BatchStored(s: State) {
    s.worker.CountingFlushed? || s.worker.CountingBatch? || s.worker.Resetting?
  }

  predicate InFlush(s: State) {
    s.worker.Attempting? || BatchStored(s)
  }

  /** How many accepted entries belong to earlier batches. */
  function Base(s: State): int {
    |s.accepted| - |s.batch| - |s.queue|
  }

  /** How many accepted entries the worker has finished writing. */
  function Persisted(s: State): int {
    Base(s) + if BatchStored(s) then |s.batch| else 0
  }

  /** Conservation: what was accepted is earlier batches, then the batch, then the queue. */
  ghost predicate FlowInv(c: Config, s: State) {
    && |s.queue| <= c.queueSize
    && 0 <= Base(s)
    && s.accepted == s.accepted[..Base(s)] + s.batch + s.queue
  }

  ghost predicate WorkerInv(c: Config, s: State) {
    && (s.worker.Selecting? || s.worker.Draining? ==> |s.batch| < c.batchSize)
    && (InFlush(s) ==> 0 < |s.batch| <= c.batchSize)
    && (s.worker.Attempting? ==> s.worker.next <= |s.batch| && (c.batchWriter ==> s.worker.next == 0))
    && (s.worker.Draining? ==> s.stopClosed)
    && (InFlush(s) && s.worker.caller != Main ==> s.stopClosed)
    && (InFlush(s) && s.worker.caller == Exit ==> s.queue == [])
    && (s.worker.Exiting? || s.worker.Exited? ==> s.stopClosed && s.queue == [] && s.batch == [])
    && (s.doneClosed <==> s.worker.Exited?)
  }

  /** The entry of this call is in the channel or beyond. */
  predicate HasEntered(p: Writer) {
    p.Sent? || (p.Deferred? && p.result == Accepted) || (p.Returned? && p.result == Accepted)
  }

  /** The history holds exactly the entries of the calls that entered, once each. */
  ghost predicate CallInv(s: State) {
    && (forall i, j :: 0 <= i < j < |s.accepted| ==> s.accepted[i].call != s.accepted[j].call)
    && (forall x :: x in s.accepted ==>
          x.call in s.writers && HasEntered(s.writers[x.call]) && s.writers[x.call].event == x.event)
    && (forall w :: w in s.writers && HasEntered(s.writers[w]) ==> Entry(w, s.writers[w].event) in s.accepted)
  }

  /** The calls between the channel send and the counter increment. */
  function Uncounted(s: State): set<nat> {
    set w | w in s.writers && s.writers[w].Sent?
  }

  ghost predicate CountInv(s: State) {
    && s.enqueued + |Uncounted(s)| == |s.accepted|
    && s.flushed == Base(s) + if s.worker.CountingBatch? || s.worker.Resetting? then |s.batch| else 0
  }

  /** The sequence of first occurrences in `s`. */
  function FirstOccurrences(s: seq<Entry>): (r: seq<Entry>)
    decreases |s|
  {
    if |s| == 0 then []
    else
      var init := s[..|s| - 1];
      var d := FirstOccurrences(init);
      if s[|s| - 1] in init then d else d + [s[|s| - 1]]
  }

  /** No failed attempt can leave part of a batch behind. */
  predicate AllOrNothing(c: Config) {
    c.honestErrors && (c.batchWriter || c.batchSize == 1)
  }

  /** How many accepted entries the worker has written, the current attempt included. */
  function Written(s: State): int {
    Persisted(s) + if s.worker.Attempting? then s.worker.next else 0
  }

  /** The sink holds, up to repetition, a prefix of the accepted entries that reaches at least
      as far as the written ones and never beyond the current batch. When attempts are
      all-or-nothing it holds exactly the written prefix. */
  ghost predicate SinkInv(c: Config, s: State) {
    && var d := FirstOccurrences(s.sink);
    && d <= s.accepted
    && Written(s) <= |d| <= Base(s) + |s.batch|
    && (AllOrNothing(c) ==> 0 <= Written(s) <= |s.accepted| && s.sink == s.accepted[..Written(s)])
  }

  /** A segment of the accepted entries that begins no later than the sink's first missing entry
      and ends within the current batch. */
  ghost predicate SegmentAt(s: State, x: seq<Entry>, lo: nat) {
    && lo <= |FirstOccurrences(s.sink)| && lo + |x| <= Base(s) + |s.batch| && lo + |x| <= |s.accepted|
    && x == s.accepted[lo..lo + |x|]
  }

  ghost predicate Segment(s: State, x: seq<Entry>) {
    exists lo: nat :: SegmentAt(s, x, lo)
  }

  /** What may yet reach the sink are such segments, and nothing if errors are honest. */
  ghost predicate LateInv(c: Config, s: State) {
    && (c.honestErrors ==> s.late == [])
    && forall x :: x in s.late ==> Segment(s, x)
  }

  ghost predicate Inv(c: Config, s: State) {
    && MutexInv(s) && CloseInv(s) && FlowInv(c, s) && WorkerInv(c, s) && CallInv(s) && CountInv(s)
    && SinkInv(c, s) && LateInv(c, s)
  }

  // ---------- first occurrences ----------

  lemma FirstOccurrencesSnoc(s: seq<Entry>, e: Entry)
    ensures FirstOccurrences(s + [e]) == if e in s then FirstOccurrences(s) else FirstOccurrences(s) + [e]
  {
    assert (s + [e])[..|s|] == s;
  }

  /** The same elements, none of them twice. */
  lemma {:induction false} FirstOccurrencesElements(s: seq<Entry>)
    ensures forall e :: e in FirstOccurrences(s) <==> e in s
    ensures forall i, j :: 0 <= i < j < |FirstOccurrences(s)| ==> FirstOccurrences(s)[i] != FirstOccurrences(s)[j]
    decreases |s|
  {
    if |s| == 0 {
    } else {
      var n := |s| - 1;
      FirstOccurrencesElements(s[..n]);
      assert s == s[..n] + [s[n]];
    }
  }

  /** Writing the accepted entry at `at` again, or for the first time in its turn. */
  lemma SinkAppend(sink: seq<Entry>, accepted: seq<Entry>, e: Entry, at: nat)
    requires forall i, j :: 0 <= i < j < |accepted| ==> accepted[i].call != accepted[j].call
    requires FirstOccurrences(sink) <= accepted
    requires at < |accepted| && at <= |FirstOccurrences(sink)| && e == accepted[at]
    ensures FirstOccurrences(sink + [e]) <= accepted
    ensures |FirstOccurrences(sink + [e])| ==
            if at == |FirstOccurrences(sink)| then at + 1 else |FirstOccurrences(sink)|
  {
    var d := FirstOccurrences(sink);
    FirstOccurrencesElements(sink);
    FirstOccurrencesSnoc(sink, e);
    if at < |d| {
      assert e == d[at];
    } else {
      assert forall i :: 0 <= i < |d| ==> d[i].call != e.call;
    }
  }

  function Max(a: nat, b: nat): nat {
    if a < b then b else a
  }

  /** The same for a whole segment, as a batch call stores it, in its turn or late. */
  lemma {:induction false} SinkAppendSegment(sink: seq<Entry>, accepted: seq<Entry>, x: seq<Entry>, lo: nat)
    requires forall i, j :: 0 <= i < j < |accepted| ==> accepted[i].call != accepted[j].call
    requires FirstOccurrences(sink) <= accepted && lo <= |FirstOccurrences(sink)|
    requires lo + |x| <= |accepted| && x == accepted[lo..lo + |x|]
    ensures FirstOccurrences(sink + x) <= accepted
    ensures |FirstOccurrences(sink + x)| == Max(lo + |x|, |FirstOccurrences(sink)|)
    decreases |x|
  {
    if |x| == 0 {
      assert sink + x == sink;
    } else {
      SinkAppend(sink, accepted, x[0], lo);
      assert sink + x == (sink + [x[0]]) + x[1..];
      SinkAppendSegment(sink + [x[0]], accepted, x[1..], lo + 1);
    }
  }

  lemma {:induction false} FirstOccurrencesGrow(s: seq<Entry>, x: seq<Entry>)
    ensures |FirstOccurrences(s)| <= |FirstOccurrences(s + x)|
    decreases |x|
  {
    if |x| == 0 {
      assert s + x == s;
    } else {
      var n := |x| - 1;
      assert s + x == (s + x[..n]) + [x[n]];
      FirstOccurrencesSnoc(s + x[..n], x[n]);
      FirstOccurrencesGrow(s, x[..n]);
    }
  }

  // ---------- preservation, part by part ----------

  /** A read lock is taken only while nobody holds the write lock. */
  lemma WriterLocks(c: Config, s: State, w: nat, act: WriterAct)
    requires WriterStep(c, s, w, act).Some?
    ensures var t := WriterStep(c, s, w, act).value;
            && t.closers == s.closers && w in t.writers && t.writers == s.writers[w := t.writers[w]]
            && (HoldsRead(t.writers[w]) ==> (w in s.writers && HoldsRead(s.writers[w])) || !WriteLocked(s))
  {
  }

  lemma MutexKeptByWriter(c: Config, s: State, w: nat, act: WriterAct)
    requires MutexInv(s) && WriterStep(c, s, w, act).Some?
    ensures MutexInv(WriterStep(c, s, w, act).value)
  {
    WriterLocks(c, s, w, act);
  }

  /** The write lock is taken only while nobody holds either lock. */
  lemma CloserLocks(s: State, k: nat, act: CloserAct)
    requires CloserStep(s, k, act).Some?
    ensures var t := CloserStep(s, k, act).value;
            && t.writers == s.writers && k in t.closers && t.closers == s.closers[k := t.closers[k]]
            && (HoldsWrite(t.closers[k]) ==>
                  (k in s.closers && HoldsWrite(s.closers[k])) || (!WriteLocked(s) && !ReadLocked(s)))
  {
  }

  lemma MutexKeptByCloser(s: State, k: nat, act: CloserAct)
    requires MutexInv(s) && CloserStep(s, k, act).Some?
    ensures MutexInv(CloserStep(s, k, act).value)
  {
    CloserLocks(s, k, act);
  }

  lemma CloseKeptByWriter(c: Config, s: State, w: nat, act: WriterAct)
    requires CloseInv(s) && WriterStep(c, s, w, act).Some?
    ensures CloseInv(WriterStep(c, s, w, act).value)
  {
    var t := WriterStep(c, s, w, act).value;
    assert t.closers == s.closers && t.closed == s.closed && t.stopClosed == s.stopClosed &&
      t.doneClosed == s.doneClosed;
    assert t.writers == s.writers[w := t.writers[w]];
    assert PastCheck(t.writers[w]) ==> !s.closed;
  }

  lemma CloseKeptByCloser(s: State, k: nat, act: CloserAct)
    requires MutexInv(s) && CloseInv(s) && CloserStep(s, k, act).Some?
    ensures CloseInv(CloserStep(s, k, act).value)
  {
    var t := CloserStep(s, k, act).value;
    assert t.closers == s.closers[k := t.closers[k]];
    if t.closed && !t.stopClosed {
      if !s.closed {
        assert t.closers[k].Marked?;
      } else {
        var l :| l in s.closers && s.closers[l].Marked?;
        assert t.closers[l].Marked?;
      }
    }
  }

  predicate SinkCall(act: WorkerAct) {
    act.SinkBatch? || act.SinkWrite?
  }

  /** What a receive changes. */
  lemma ReceiveTouches(c: Config, s: State)
    requires WorkerStep(c, s, Receive).Some?
    ensures |s.queue| > 0 && (s.worker.Selecting? || s.worker.Draining?)
    ensures var t := WorkerStep(c, s, Receive).value;
            && t == s.(queue := s.queue[1..], batch := s.batch + [s.queue[0]], worker := t.worker)
            && t.worker == if |s.batch| + 1 < c.batchSize then s.worker
                           else Attempting(0, if s.worker.Selecting? then Main else Drain)
  {
  }

  /** What a call of the sink changes. */
  lemma SinkCallTouches(c: Config, s: State, act: WorkerAct)
    requires SinkCall(act) && WorkerStep(c, s, act).Some?
    ensures var t := WorkerStep(c, s, act).value;
            && s.worker.Attempting? && Possible(c, act.stored, act.ok)
            && t == s.(sink := t.sink, late := t.late, worker := t.worker)
            && (if act.ok && act.SinkBatch? then t.worker == CountingFlushed(s.worker.caller)
                else t.worker == Attempting(if act.ok then s.worker.next + 1 else 0, s.worker.caller))
            && (act.SinkWrite? ==> !c.batchWriter && s.worker.next < |s.batch|) && (act.SinkBatch? ==> c.batchWriter)
  {
  }

  /** What a sink call is given. */
  function Given(s: State, act: WorkerAct): seq<Entry>
    requires SinkCall(act) && s.worker.Attempting? && (act.SinkWrite? ==> s.worker.next < |s.batch|)
  {
    if act.SinkBatch? then s.batch else [s.batch[s.worker.next]]
  }

  /** It is stored, or it may land later, or it never will. */
  lemma SinkCallHands(c: Config, s: State, act: WorkerAct)
    requires SinkCall(act) && WorkerStep(c, s, act).Some? && s.worker.Attempting?
    requires act.SinkWrite? ==> s.worker.next < |s.batch|
    ensures var t := WorkerStep(c, s, act).value;
            && t.sink == (if act.stored then s.sink + Given(s, act) else s.sink)
            && t.late == (if act.stored || c.honestErrors then s.late else s.late + [Given(s, act)])
  {
  }

  /** What the worker's other steps change. */
  lemma MoveTouches(c: Config, s: State, act: WorkerAct)
    requires WorkerStep(c, s, act).Some? && !SinkCall(act) && !act.Receive?
    ensures var t := WorkerStep(c, s, act).value;
            && t == s.(batch := t.batch, flushed := t.flushed, batchesWritten := t.batchesWritten,
                       doneClosed := t.doneClosed, worker := t.worker)
            && t.batch == (if act.ResetBatch? then [] else s.batch)
            && t.flushed == s.flushed + (if act.AddFlushed? then |s.batch| else 0)
            && (s.doneClosed ==> t.doneClosed)
  {
  }

  /** The worker leaves the calls, the history and the close flag alone. */
  lemma WorkerTouches(c: Config, s: State, act: WorkerAct)
    requires WorkerStep(c, s, act).Some?
    ensures var t := WorkerStep(c, s, act).value;
            t.writers == s.writers && t.closers == s.closers && t.accepted == s.accepted &&
            t.closed == s.closed && t.stopClosed == s.stopClosed && t.enqueued == s.enqueued &&
            (s.doneClosed ==> t.doneClosed)
  {
    if act.Receive? {
      ReceiveTouches(c, s);
    } else if SinkCall(act) {
      SinkCallTouches(c, s, act);
    } else {
      MoveTouches(c, s, act);
    }
  }

  lemma CloseKeptElsewhere(s: State, t: State)
    requires CloseInv(s) && t.closers == s.closers && t.writers == s.writers
    requires t.closed == s.closed && t.stopClosed == s.stopClosed && (s.doneClosed ==> t.doneClosed)
    ensures CloseInv(t)
  {
  }

  lemma CloseKeptByWorker(c: Config, s: State, act: WorkerAct)
    requires CloseInv(s) && WorkerStep(c, s, act).Some?
    ensures CloseInv(WorkerStep(c, s, act).value)
  {
    WorkerTouches(c, s, act);
    CloseKeptElsewhere(s, WorkerStep(c, s, act).value);
  }

  /** The three ways in which accepted, batch and queue change together: a send appends to
      two of them, a receive moves one entry, a reset turns the batch into persisted prefix. */
  lemma FlowKeptBySend(c: Config, s: State, t: State, e: Entry)
    requires FlowInv(c, s) && |s.queue| < c.queueSize
    requires t.accepted == s.accepted + [e] && t.queue == s.queue + [e] && t.batch == s.batch
    ensures FlowInv(c, t)
  {
    assert t.accepted[..Base(t)] == s.accepted[..Base(s)];
  }

  lemma FlowKeptByReceive(c: Config, s: State, t: State)
    requires FlowInv(c, s) && |s.queue| > 0
    requires t.accepted == s.accepted && t.queue == s.queue[1..] && t.batch == s.batch + [s.queue[0]]
    ensures FlowInv(c, t)
  {
    assert s.queue == [s.queue[0]] + s.queue[1..];
    assert t.accepted[..Base(t)] == s.accepted[..Base(s)];
  }

  lemma FlowKeptByReset(c: Config, s: State, t: State)
    requires FlowInv(c, s)
    requires t.accepted == s.accepted && t.queue == s.queue && t.batch == []
    ensures FlowInv(c, t)
  {
    assert t.accepted[..Base(t)] == s.accepted[..Base(s)] + s.batch;
  }

  lemma FlowKeptByWriter(c: Config, s: State, w: nat, act: WriterAct)
    requires FlowInv(c, s) && WriterStep(c, s, w, act).Some?
    ensures FlowInv(c, WriterStep(c, s, w, act).value)
  {
    var t := WriterStep(c, s, w, act).value;
    if act.FastSend? || act.SlowSend? {
      FlowKeptBySend(c, s, t, Entry(w, s.writers[w].event));
    }
  }

  lemma FlowKeptByWorker(c: Config, s: State, act: WorkerAct)
    requires FlowInv(c, s) && WorkerStep(c, s, act).Some?
    ensures FlowInv(c, WorkerStep(c, s, act).value)
  {
    var t := WorkerStep(c, s, act).value;
    if act.Receive? {
      ReceiveTouches(c, s);
      FlowKeptByReceive(c, s, t);
    } else if SinkCall(act) {
      SinkCallTouches(c, s, act);
      FlowKeptElsewhere(c, s, t);
    } else {
      MoveTouches(c, s, act);
      if act.ResetBatch? {
        FlowKeptByReset(c, s, t);
      } else {
        FlowKeptElsewhere(c, s, t);
      }
    }
  }

  lemma FlowKeptElsewhere(c: Config, s: State, t: State)
    requires FlowInv(c, s) && t.accepted == s.accepted && t.queue == s.queue && t.batch == s.batch
    ensures FlowInv(c, t)
  {
  }

  lemma WorkerKeptByWriter(c: Config, s: State, w: nat, act: WriterAct)
    requires WorkerInv(c, s) && CloseInv(s) && WriterStep(c, s, w, act).Some?
    ensures WorkerInv(c, WriterStep(c, s, w, act).value)
  {
    var t := WriterStep(c, s, w, act).value;
    if act.FastSend? || act.SlowSend? {
      assert PastCheck(s.writers[w]);
    } else {
      assert t.queue == s.queue;
    }
  }

  lemma WorkerKeptByWorker(c: Config, s: State, act: WorkerAct)
    requires ValidConfig(c) && WorkerInv(c, s) && WorkerStep(c, s, act).Some?
    ensures WorkerInv(c, WorkerStep(c, s, act).value)
  {
    if act.Receive? {
      ReceiveTouches(c, s);
    } else if SinkCall(act) {
      SinkCallTouches(c, s, act);
    } else {
      WorkerKeptByMove(c, s, act);
    }
  }

  lemma WorkerKeptByMove(c: Config, s: State, act: WorkerAct)
    requires ValidConfig(c) && WorkerInv(c, s) && WorkerStep(c, s, act).Some? && !SinkCall(act) && !act.Receive?
    ensures WorkerInv(c, WorkerStep(c, s, act).value)
  {
  }

  lemma CallKeptBySend(s: State, t: State, w: nat, e: Event)
    requires CallInv(s)
    requires w in s.writers && !HasEntered(s.writers[w])
    requires t.writers == s.writers[w := Sent(e)] && t.accepted == s.accepted + [Entry(w, e)]
    ensures CallInv(t)
  {
    assert t.accepted[|s.accepted|] == Entry(w, e);
    assert forall x :: x in s.accepted ==> x in t.accepted;
  }

  lemma CallKeptByMove(s: State, t: State, w: nat)
    requires CallInv(s) && t.accepted == s.accepted && w in t.writers
    requires t.writers == s.writers[w := t.writers[w]]
    requires HasEntered(t.writers[w]) <==> w in s.writers && HasEntered(s.writers[w])
    requires w in s.writers ==> t.writers[w].event == s.writers[w].event
    ensures CallInv(t)
  {
  }

  lemma CallKeptByWriter(c: Config, s: State, w: nat, act: WriterAct)
    requires CallInv(s) && WriterStep(c, s, w, act).Some?
    ensures CallInv(WriterStep(c, s, w, act).value)
  {
    var t := WriterStep(c, s, w, act).value;
    if act.FastSend? || act.SlowSend? {
      CallKeptBySend(s, t, w, s.writers[w].event);
    } else {
      CallKeptByMove(s, t, w);
    }
  }

  lemma CountKeptByWriter(c: Config, s: State, w: nat, act: WriterAct)
    requires CountInv(s) && WriterStep(c, s, w, act).Some?
    ensures CountInv(WriterStep(c, s, w, act).value)
  {
    var t := WriterStep(c, s, w, act).value;
    WriterCounts(c, s, w, act);
    if act.FastSend? || act.SlowSend? {
      assert Uncounted(t) == Uncounted(s) + {w};
    } else if act.CountEnqueued? {
      assert Uncounted(s) == Uncounted(t) + {w};
    } else {
      assert Uncounted(t) == Uncounted(s);
    }
  }

  /** A writer's step in terms of the counts. */
  lemma WriterCounts(c: Config, s: State, w: nat, act: WriterAct)
    requires WriterStep(c, s, w, act).Some?
    ensures var t, sends := WriterStep(c, s, w, act).value, act.FastSend? || act.SlowSend?;
            && w in t.writers && t.writers == s.writers[w := t.writers[w]]
            && (t.writers[w].Sent? <==> sends) && (act.CountEnqueued? <==> w in s.writers && s.writers[w].Sent?)
            && |t.accepted| == |s.accepted| + (if sends then 1 else 0) && Base(t) == Base(s)
            && t.enqueued == s.enqueued + (if act.CountEnqueued? then 1 else 0)
            && t.flushed == s.flushed && t.worker == s.worker && t.batch == s.batch
  {
  }

  /** The part of the batch that is counted already. */
  function Counted(s: State): nat {
    if s.worker.CountingBatch? || s.worker.Resetting? then |s.batch| else 0
  }

  lemma CountKeptElsewhere(s: State, t: State)
    requires CountInv(s) && t.writers == s.writers && t.enqueued == s.enqueued && t.accepted == s.accepted
    requires t.flushed - Base(t) - Counted(t) == s.flushed - Base(s) - Counted(s)
    ensures CountInv(t)
  {
    assert Uncounted(t) == Uncounted(s);
  }

  lemma CountKeptByWorker(c: Config, s: State, act: WorkerAct)
    requires CountInv(s) && WorkerStep(c, s, act).Some?
    ensures CountInv(WorkerStep(c, s, act).value)
  {
    WorkerTouches(c, s, act);
    WorkerCounts(c, s, act);
    CountKeptElsewhere(s, WorkerStep(c, s, act).value);
  }

  lemma WorkerCounts(c: Config, s: State, act: WorkerAct)
    requires WorkerStep(c, s, act).Some?
    ensures var t := WorkerStep(c, s, act).value;
            t.flushed - Base(t) - Counted(t) == s.flushed - Base(s) - Counted(s)
  {
    if act.Receive? {
      ReceiveTouches(c, s);
    } else if SinkCall(act) {
      SinkCallTouches(c, s, act);
    } else {
      MoveTouches(c, s, act);
    }
  }

  lemma MutexAndCallsKeptElsewhere(s: State, t: State)
    requires MutexInv(s) && CallInv(s)
    requires t.writers == s.writers && t.closers == s.closers && t.accepted == s.accepted
    ensures MutexInv(t) && CallInv(t)
  {
  }

  /** Persisting the batch in one call. */
  lemma SinkKeptByBatch(c: Config, s: State, t: State, ok: bool)
    requires FlowInv(c, s) && WorkerInv(c, s) && CallInv(s) && SinkInv(c, s) && s.worker.Attempting? && c.batchWriter
    requires t == s.(sink := s.sink + s.batch, late := t.late, worker := t.worker)
    requires ok ==> t.worker == CountingFlushed(s.worker.caller)
    requires !ok ==> !c.honestErrors && t.worker == Attempting(0, s.worker.caller)
    ensures SinkInv(c, t)
  {
    var base := Base(s);
    SinkAppendSegment(s.sink, s.accepted, s.batch, base);
    assert s.accepted[..base] + s.batch == s.accepted[..base + |s.batch|];
  }

  /** One event of the fallback loop is stored. */
  ghost predicate StoresOne(c: Config, s: State, t: State, ok: bool) {
    && s.worker.Attempting? && s.worker.next < |s.batch| && !c.batchWriter && (c.honestErrors ==> ok)
    && t == s.(sink := s.sink + [s.batch[s.worker.next]], late := t.late,
               worker := Attempting(if ok then s.worker.next + 1 else 0, s.worker.caller))
  }

  lemma SinkKeptByWrite(c: Config, s: State, t: State, ok: bool)
    requires FlowInv(c, s) && CallInv(s) && SinkInv(c, s) && StoresOne(c, s, t, ok)
    ensures SinkInv(c, t)
  {
    OccurrencesAfterWrite(c, s, t, ok);
    if AllOrNothing(c) {
      ExactAfterWrite(c, s, t, ok);
    }
  }

  lemma OccurrencesAfterWrite(c: Config, s: State, t: State, ok: bool)
    requires FlowInv(c, s) && CallInv(s) && SinkInv(c, s) && StoresOne(c, s, t, ok)
    ensures var d := FirstOccurrences(t.sink); d <= t.accepted && Written(t) <= |d| <= Base(t) + |t.batch|
  {
    BatchedEntry(c, s, s.worker.next);
    WrittenByWrite(c, s, t, ok);
    SinkAppend(s.sink, s.accepted, s.batch[s.worker.next], Base(s) + s.worker.next);
  }

  lemma ExactAfterWrite(c: Config, s: State, t: State, ok: bool)
    requires FlowInv(c, s) && SinkInv(c, s) && StoresOne(c, s, t, ok) && AllOrNothing(c)
    ensures 0 <= Written(t) <= |t.accepted| && t.sink == t.accepted[..Written(t)]
  {
    var at := Base(s) + s.worker.next;
    BatchedEntry(c, s, s.worker.next);
    WrittenByWrite(c, s, t, ok);
    assert s.accepted[..at] + [s.accepted[at]] == s.accepted[..at + 1];
  }

  lemma WrittenByWrite(c: Config, s: State, t: State, ok: bool)
    requires s.worker.Attempting?
    requires t == s.(sink := t.sink, late := t.late,
            worker := Attempting(if ok then s.worker.next + 1 else 0, s.worker.caller))
    ensures Written(s) == Base(s) + s.worker.next
    ensures Written(t) == (if ok then Written(s) + 1 else Base(s)) && Base(t) == Base(s)
  {
  }

  lemma BatchedEntry(c: Config, s: State, i: nat)
    requires FlowInv(c, s) && i < |s.batch|
    ensures 0 <= Base(s) + i < |s.accepted| && s.batch[i] == s.accepted[Base(s) + i]
  {
  }

  /** Nothing stored: the written prefix can only be forgotten, and not where attempts are all-or-nothing. */
  lemma SinkKeptQuietly(c: Config, s: State, t: State)
    requires SinkInv(c, s) && Quiet(c, s, t)
    ensures SinkInv(c, t)
  {
  }

  /** A step that leaves the sink alone, as `SinkKeptQuietly` needs it. */
  ghost predicate Quiet(c: Config, s: State, t: State) {
    && t.sink == s.sink && t.accepted == s.accepted
    && Written(t) <= Written(s) && (AllOrNothing(c) ==> Written(t) == Written(s))
    && Base(s) + |s.batch| <= Base(t) + |t.batch|
  }

  lemma QuietStep(c: Config, s: State, act: WorkerAct)
    requires WorkerInv(c, s) && WorkerStep(c, s, act).Some? && (SinkCall(act) ==> !act.stored)
    ensures Quiet(c, s, WorkerStep(c, s, act).value)
  {
    if act.Receive? {
      ReceiveTouches(c, s);
    } else if SinkCall(act) {
      SinkCallTouches(c, s, act);
    } else {
      QuietMove(c, s, act);
    }
  }

  lemma QuietMove(c: Config, s: State, act: WorkerAct)
    requires WorkerInv(c, s) && WorkerStep(c, s, act).Some? && !act.Receive? && !SinkCall(act)
    ensures Quiet(c, s, WorkerStep(c, s, act).value)
  {
  }

  lemma SinkKeptByWorker(c: Config, s: State, act: WorkerAct)
    requires FlowInv(c, s) && WorkerInv(c, s) && CallInv(s) && SinkInv(c, s) && WorkerStep(c, s, act).Some?
    ensures SinkInv(c, WorkerStep(c, s, act).value)
  {
    var t := WorkerStep(c, s, act).value;
    if SinkCall(act) && act.stored {
      SinkCallTouches(c, s, act);
      SinkCallHands(c, s, act);
      if act.SinkBatch? {
        SinkKeptByBatch(c, s, t, act.ok);
      } else {
        SinkKeptByWrite(c, s, t, act.ok);
      }
    } else {
      QuietStep(c, s, act);
      SinkKeptQuietly(c, s, t);
    }
  }

  lemma SinkKeptBySend(c: Config, s: State, t: State)
    requires FlowInv(c, s) && SinkInv(c, s) && WorkerInv(c, s)
    requires t.sink == s.sink && t.worker == s.worker && t.batch == s.batch
    requires |t.queue| - |s.queue| == |t.accepted| - |s.accepted| && s.accepted <= t.accepted
    ensures SinkInv(c, t)
  {
    assert Written(t) == Written(s) && Base(t) == Base(s);
    if AllOrNothing(c) {
      PrefixStays(s.accepted, t.accepted, Written(s));
    }
  }

  lemma PrefixStays(short: seq<Entry>, long: seq<Entry>, n: nat)
    requires short <= long && n <= |short|
    ensures short[..n] == long[..n]
  {
  }

  /** The worker and the sink move on, the late segments stay or become fewer. */
  ghost predicate Onward(s: State, t: State) {
    && s.accepted <= t.accepted && |FirstOccurrences(s.sink)| <= |FirstOccurrences(t.sink)|
    && Base(s) + |s.batch| <= Base(t) + |t.batch|
  }

  lemma SegmentKept(s: State, t: State, x: seq<Entry>)
    requires Segment(s, x) && Onward(s, t)
    ensures Segment(t, x)
  {
    var lo: nat :| SegmentAt(s, x, lo);
    assert SegmentAt(t, x, lo);
  }

  lemma LateKeptElsewhere(c: Config, s: State, t: State)
    requires LateInv(c, s) && Onward(s, t)
    requires forall x :: x in t.late ==> x in s.late || (!c.honestErrors && Segment(t, x))
    requires c.honestErrors ==> t.late == s.late
    ensures LateInv(c, t)
  {
    forall x | x in t.late
      ensures Segment(t, x)
    {
      if x in s.late {
        SegmentKept(s, t, x);
      }
    }
  }

  /** It is a slice of the history. */
  lemma GivenIsSlice(c: Config, s: State, act: WorkerAct)
    requires FlowInv(c, s) && SinkCall(act) && s.worker.Attempting? && (act.SinkWrite? ==> s.worker.next < |s.batch|)
    ensures var lo, x := Base(s) + (if act.SinkBatch? then 0 else s.worker.next), Given(s, act);
            lo + |x| <= Base(s) + |s.batch| <= |s.accepted| && x == s.accepted[lo..lo + |x|]
  {
  }

  lemma GivenIsSegment(c: Config, s: State, t: State, act: WorkerAct)
    requires FlowInv(c, s) && WorkerInv(c, s) && SinkInv(c, s) && Onward(s, t) && t.accepted == s.accepted
    requires SinkCall(act) && s.worker.Attempting? && (act.SinkWrite? ==> s.worker.next < |s.batch|)
    ensures Segment(t, Given(s, act))
  {
    GivenIsSlice(c, s, act);
    assert SegmentAt(t, Given(s, act), Base(s) + if act.SinkBatch? then 0 else s.worker.next);
  }

  lemma LateKeptBySinkCall(c: Config, s: State, act: WorkerAct)
    requires FlowInv(c, s) && WorkerInv(c, s) && SinkInv(c, s) && LateInv(c, s)
    requires SinkCall(act) && WorkerStep(c, s, act).Some?
    ensures LateInv(c, WorkerStep(c, s, act).value)
  {
    SinkCallTouches(c, s, act);
    SinkCallHands(c, s, act);
    FirstOccurrencesGrow(s.sink, Given(s, act));
    LateAfterCall(c, s, WorkerStep(c, s, act).value, act);
  }

  lemma LateAfterCall(c: Config, s: State, t: State, act: WorkerAct)
    requires FlowInv(c, s) && WorkerInv(c, s) && SinkInv(c, s) && LateInv(c, s)
    requires SinkCall(act) && s.worker.Attempting? && (act.SinkWrite? ==> s.worker.next < |s.batch|)
    requires t == s.(sink := t.sink, late := t.late, worker := t.worker)
    requires |FirstOccurrences(s.sink)| <= |FirstOccurrences(t.sink)|
    requires t.late == if act.stored || c.honestErrors then s.late else s.late + [Given(s, act)]
    ensures LateInv(c, t)
  {
    GivenIsSegment(c, s, t, act);
    LateKeptElsewhere(c, s, t);
  }

  lemma LateKeptByWorker(c: Config, s: State, act: WorkerAct)
    requires FlowInv(c, s) && WorkerInv(c, s) && SinkInv(c, s) && LateInv(c, s) && WorkerStep(c, s, act).Some?
    ensures LateInv(c, WorkerStep(c, s, act).value)
  {
    var t := WorkerStep(c, s, act).value;
    if act.Receive? {
      ReceiveTouches(c, s);
      LateKeptElsewhere(c, s, t);
    } else if SinkCall(act) {
      LateKeptBySinkCall(c, s, act);
    } else {
      MoveTouches(c, s, act);
      LateKeptElsewhere(c, s, t);
    }
  }

  // ---------- a late segment lands ----------

  /** First occurrences stay in order, and as far as they reached. */
  lemma SegmentLands(s: State, x: seq<Entry>)
    requires CallInv(s) && FirstOccurrences(s.sink) <= s.accepted && Segment(s, x)
    requires |FirstOccurrences(s.sink)| <= Base(s) + |s.batch|
    ensures var d := FirstOccurrences(s.sink + x);
            d <= s.accepted && |FirstOccurrences(s.sink)| <= |d| <= Base(s) + |s.batch|
  {
    var lo: nat :| SegmentAt(s, x, lo);
    SinkAppendSegment(s.sink, s.accepted, x, lo);
  }

  lemma SinkKeptByLand(c: Config, s: State, t: State, i: nat)
    requires CallInv(s) && SinkInv(c, s) && LateInv(c, s) && LandStep(s, i) == Some(t)
    ensures SinkInv(c, t)
  {
    assert s.late[i] in s.late;
    SegmentLands(s, s.late[i]);
    assert Written(t) == Written(s) && Base(t) == Base(s);
  }

  lemma LateKeptByLand(c: Config, s: State, t: State, i: nat)
    requires LateInv(c, s) && LandStep(s, i) == Some(t)
    ensures LateInv(c, t)
  {
    FirstOccurrencesGrow(s.sink, s.late[i]);
    LateKeptElsewhere(c, s, t);
  }

  lemma OthersKeptByLand(c: Config, s: State, t: State)
    requires MutexInv(s) && CloseInv(s) && FlowInv(c, s) && WorkerInv(c, s) && CallInv(s) && CountInv(s)
    requires t == s.(sink := t.sink, late := t.late)
    ensures MutexInv(t) && CloseInv(t) && FlowInv(c, t) && WorkerInv(c, t) && CallInv(t) && CountInv(t)
  {
    MutexAndCallsKeptElsewhere(s, t);
    CloseKeptElsewhere(s, t);
    FlowKeptElsewhere(c, s, t);
    CountKeptElsewhere(s, t);
  }

  lemma InvKeptByLand(c: Config, s: State, i: nat)
    requires Inv(c, s) && LandStep(s, i).Some?
    ensures Inv(c, LandStep(s, i).value)
  {
    var t := LandStep(s, i).value;
    OthersKeptByLand(c, s, t);
    SinkKeptByLand(c, s, t, i);
    LateKeptByLand(c, s, t, i);
  }

  lemma InvInit(c: Config)
    requires ValidConfig(c)
    ensures Inv(c, Init())
  {
    var s := Init();
    assert Uncounted(s) == {};
    assert SinkInv(c, s) by {
      assert FirstOccurrences(s.sink) == [] && s.accepted[..Written(s)] == [];
    }
    assert FlowInv(c, s) && WorkerInv(c, s);
    assert MutexInv(s) && CloseInv(s) && CallInv(s);
  }

  lemma WriterTouches(c: Config, s: State, w: nat, act: WriterAct)
    requires WriterStep(c, s, w, act).Some?
    ensures var t := WriterStep(c, s, w, act).value;
            && t.sink == s.sink && t.late == s.late && t.worker == s.worker && t.batch == s.batch
            && |t.queue| - |s.queue| == |t.accepted| - |s.accepted| && s.accepted <= t.accepted
  {
  }

  lemma InvKeptByWriter(c: Config, s: State, w: nat, act: WriterAct)
    requires Inv(c, s) && WriterStep(c, s, w, act).Some?
    ensures Inv(c, WriterStep(c, s, w, act).value)
  {
    MutexKeptByWriter(c, s, w, act);
    CloseKeptByWriter(c, s, w, act);
    FlowKeptByWriter(c, s, w, act);
    WorkerKeptByWriter(c, s, w, act);
    CallKeptByWriter(c, s, w, act);
    CountKeptByWriter(c, s, w, act);
    WriterTouches(c, s, w, act);
    SinkKeptBySend(c, s, WriterStep(c, s, w, act).value);
    LateKeptElsewhere(c, s, WriterStep(c, s, w, act).value);
  }

  lemma CloserTouches(s: State, k: nat, act: CloserAct)
    requires CloserStep(s, k, act).Some?
    ensures var t := CloserStep(s, k, act).value;
            && t == s.(closers := t.closers, closed := t.closed, stopClosed := t.stopClosed)
            && (s.stopClosed ==> t.stopClosed)
  {
  }

  lemma OthersKeptByCloser(c: Config, s: State, t: State)
    requires FlowInv(c, s) && WorkerInv(c, s) && CallInv(s) && CountInv(s) && SinkInv(c, s) && LateInv(c, s)
    requires t == s.(closers := t.closers, closed := t.closed, stopClosed := t.stopClosed)
    requires s.stopClosed ==> t.stopClosed
    ensures FlowInv(c, t) && WorkerInv(c, t) && CallInv(t) && CountInv(t) && SinkInv(c, t) && LateInv(c, t)
  {
    CountKeptElsewhere(s, t);
    SinkKeptBySend(c, s, t);
    LateKeptElsewhere(c, s, t);
  }

  lemma InvKeptByCloser(c: Config, s: State, k: nat, act: CloserAct)
    requires Inv(c, s) && CloserStep(s, k, act).Some?
    ensures Inv(c, CloserStep(s, k, act).value)
  {
    var t := CloserStep(s, k, act).value;
    MutexKeptByCloser(s, k, act);
    CloseKeptByCloser(s, k, act);
    CloserTouches(s, k, act);
    OthersKeptByCloser(c, s, t);
  }

  lemma InvKeptByWorker(c: Config, s: State, act: WorkerAct)
    requires ValidConfig(c) && Inv(c, s) && WorkerStep(c, s, act).Some?
    ensures Inv(c, WorkerStep(c, s, act).value)
  {
    WorkerTouches(c, s, act);
    MutexAndCallsKeptElsewhere(s, WorkerStep(c, s, act).value);
    CloseKeptByWorker(c, s, act);
    FlowKeptByWorker(c, s, act);
    WorkerKeptByWorker(c, s, act);
    CountKeptByWorker(c, s, act);
    SinkKeptByWorker(c, s, act);
    LateKeptByWorker(c, s, act);
  }

  lemma InvKept(c: Config, s: State, a: Action)
    requires ValidConfig(c) && Inv(c, s) && Step(c, s, a).Some?
    ensures Inv(c, Step(c, s, a).value)
  {
    match a {
      case Write(w, act) => InvKeptByWriter(c, s, w, act);
      case Close(k, act) => InvKeptByCloser(c, s, k, act);
      case Work(act) => InvKeptByWorker(c, s, act);
      case Land(i) => InvKeptByLand(c, s, i);
    }
  }

  /** Every reachable state satisfies the invariant. */
  lemma InvReached(c: Config, s: State, actions: seq<Action>)
    requires ValidConfig(c) && Inv(c, s) && Run(Machine(c), s, actions).Some?
    ensures Inv(c, Run(Machine(c), s, actions).value)
  {
    forall t, a | Inv(c, t) && Machine(c)(t, a).Some?
      ensures Inv(c, Machine(c)(t, a).value)
    {
      InvKept(c, t, a);
    }
    RunKeeps(Machine(c), t => Inv(c, t), s, actions);
  }
}
