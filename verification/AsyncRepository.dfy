/** The repository object itself, one goroutine at a time: its fields, its batch buffer and its
    loops, each method proved to be a run of the transition system. */
module AsyncRepository {
  import opened Machines
  import opened AsyncModel
  import opened AsyncInvariant
  import Theorems = AsyncTheorems

  const INITIAL_DELAY_MS := 25
  const MAX_DELAY_MS := 1000

  /** What the sink does with one write attempt. A failing attempt of the fallback loop fails at
      event `at` (the last one if the batch is shorter); `stored` says that a call which
      reported an error had taken effect, which only a sink without honest errors does. */
  datatype Outcome = Succeeds | Fails(at: nat, stored: bool)

  /** What one attempt leaves in the sink. */
  function Left(c: Config, batch: seq<Entry>, outcome: Outcome): seq<Entry>
    requires |batch| > 0
  {
    if outcome.Succeeds? then batch
    else
      var kept := outcome.stored && !c.honestErrors;
      if c.batchWriter then if kept then batch else []
      else batch[..FailingAt(|batch|, outcome) + if kept then 1 else 0]
  }

  /** The event at which a failing attempt of the fallback loop over `n` events stops. */
  function FailingAt(n: nat, outcome: Outcome): (i: nat)
    requires n > 0 && outcome.Fails?
    ensures i < n
  {
    if outcome.at < n then outcome.at else n - 1
  }

  /** What a series of attempts leaves in the sink, one after the other. */
  function LeftByAll(c: Config, batch: seq<Entry>, outcomes: seq<Outcome>): seq<Entry>
    requires |batch| > 0
  {
    if |outcomes| == 0 then []
    else LeftByAll(c, batch, outcomes[..|outcomes| - 1]) + Left(c, batch, outcomes[|outcomes| - 1])
  }

  /** The pauses of the retry loop: 25 ms, doubling up to one second. */
  function Pauses(n: nat): (p: seq<int>)
    ensures |p| == n
  {
    seq(n, i requires 0 <= i < n => Pause(i))
  }

  function Pause(i: nat): int {
    if INITIAL_DELAY_MS * Power(i) < MAX_DELAY_MS then INITIAL_DELAY_MS * Power(i) else MAX_DELAY_MS
  }

  function Power(i: nat): (p: nat)
    ensures p >= 1
  {
    if i == 0 then 1 else 2 * Power(i - 1)
  }

  lemma LeftBySnoc(c: Config, start: seq<Entry>, batch: seq<Entry>, outcomes: seq<Outcome>, n: nat)
    requires |batch| > 0 && n < |outcomes|
    ensures start + LeftByAll(c, batch, outcomes[..n]) + Left(c, batch, outcomes[n])
         == start + LeftByAll(c, batch, outcomes[..n + 1])
  {
    assert outcomes[..n + 1][..n] == outcomes[..n];
  }

  lemma Grow(start: seq<Entry>, batch: seq<Entry>, i: nat)
    requires i < |batch|
    ensures start + batch[..i] + [batch[i]] == start + batch[..i + 1]
  {
  }

  /** The closed form of the pauses is the loop's doubling and capping. */
  lemma NextPause(n: nat)
    ensures Pause(n + 1) == if Pause(n) >= MAX_DELAY_MS then Pause(n)
                            else if Pause(n) * 2 > MAX_DELAY_MS then MAX_DELAY_MS else Pause(n) * 2
    ensures Pauses(n) + [Pause(n)] == Pauses(n + 1)
  {
    assert Power(n + 1) == 2 * Power(n);
  }

  // ---------- short runs ----------

  lemma Then(c: Config, s: State, actions: seq<Action>, t: State, a: Action, u: State)
    requires Run(Machine(c), s, actions) == Some(t) && Step(c, t, a) == Some(u)
    ensures Run(Machine(c), s, actions + [a]) == Some(u)
  {
    RunSnoc(Machine(c), s, actions, a);
  }

  /** The state after a `Write` call that meets no other call and does not wait. */
  function AfterWrite(c: Config, s: State, w: nat, e: Event): State {
    if s.closed then AtWriter(s, w, Returned(e, ErrAsyncClosed)) else Sends(s, w, e)
  }

  /** Up to the closed check. */
  lemma WriteStarts(c: Config, s: State, w: nat, e: Event) returns (acts: seq<Action>)
    requires w !in s.writers && !WriteLocked(s)
    ensures Run(Machine(c), s, acts) == Some(AtWriter(s, w, if s.closed then Deferred(e, ErrAsyncClosed) else Open(e)))
  {
    acts := WriteLocks(c, s, w, e);
    var s2 := AtWriter(s, w, RLocked(e));
    var p := if s.closed then Deferred(e, ErrAsyncClosed) else Open(e);
    AtWriterTwice(s, w, RLocked(e), p);
    Then(c, s, acts, s2, Write(w, CheckClosed), AtWriter(s, w, p));
    acts := acts + [Write(w, CheckClosed)];
  }

  lemma AtWriterTwice(s: State, w: nat, p: Writer, q: Writer)
    ensures AtWriter(AtWriter(s, w, p), w, q) == AtWriter(s, w, q)
  {
    assert s.writers[w := p][w := q] == s.writers[w := q];
  }

  lemma BeginAndLock(c: Config, s: State, w: nat, e: Event)
    requires w !in s.writers && !WriteLocked(s)
    ensures WriterStep(c, s, w, Begin(e)) == Some(AtWriter(s, w, WantsRLock(e)))
    ensures WriterStep(c, AtWriter(s, w, WantsRLock(e)), w, RLock) == Some(AtWriter(s, w, RLocked(e)))
  {
    AtWriterTwice(s, w, WantsRLock(e), RLocked(e));
    assert WriteLocked(AtWriter(s, w, WantsRLock(e))) == WriteLocked(s);
  }

  lemma WriteLocks(c: Config, s: State, w: nat, e: Event) returns (acts: seq<Action>)
    requires w !in s.writers && !WriteLocked(s)
    ensures Run(Machine(c), s, acts) == Some(AtWriter(s, w, RLocked(e)))
  {
    BeginAndLock(c, s, w, e);
    var s1, s2 := AtWriter(s, w, WantsRLock(e)), AtWriter(s, w, RLocked(e));
    Then(c, s, [], s, Write(w, Begin(e)), s1);
    acts := [] + [Write(w, Begin(e))];
    Then(c, s, acts, s1, Write(w, RLock), s2);
    acts := acts + [Write(w, RLock)];
  }

  lemma WriteAccepted(c: Config, s: State, w: nat, e: Event, acts: seq<Action>, s3: State) returns (more: seq<Action>)
    requires s3 == AtWriter(s, w, Open(e)) && Run(Machine(c), s, acts) == Some(s3)
    requires !s.closed && |s.queue| < c.queueSize
    ensures Run(Machine(c), s, more) == Some(AfterWrite(c, s, w, e))
  {
    var s4 := Send(s3, w, e);
    Then(c, s, acts, s3, Write(w, FastSend), s4);
    var s5 := AtWriter(s4, w, Deferred(e, Accepted)).(enqueued := s.enqueued + 1);
    Then(c, s, acts + [Write(w, FastSend)], s4, Write(w, CountEnqueued), s5);
    assert AtWriter(s5, w, Returned(e, Accepted)) == AfterWrite(c, s, w, e);
    more := acts + [Write(w, FastSend)] + [Write(w, CountEnqueued)];
    Then(c, s, more, s5, Write(w, RUnlock), AfterWrite(c, s, w, e));
    more := more + [Write(w, RUnlock)];
  }

  /** A call that has found the queue full. */
  function Stalled(s: State, w: nat, e: Event): State {
    AtWriter(s, w, Blocking(e)).(saturated := s.saturated + 1)
  }

  lemma StallRuns(c: Config, s: State, w: nat, e: Event) returns (acts: seq<Action>)
    requires w !in s.writers && !WriteLocked(s) && !s.closed && |s.queue| >= c.queueSize
    ensures Run(Machine(c), s, acts) == Some(Stalled(s, w, e))
  {
    acts := WriteStarts(c, s, w, e);
    var s3, s4 := AtWriter(s, w, Open(e)), AtWriter(s, w, Full(e));
    FullSteps(c, s, w, e);
    Then(c, s, acts, s3, Write(w, FastFull), s4);
    acts := acts + [Write(w, FastFull)];
    Then(c, s, acts, s4, Write(w, CountSaturated), Stalled(s, w, e));
    acts := acts + [Write(w, CountSaturated)];
  }

  lemma FullSteps(c: Config, s: State, w: nat, e: Event)
    requires |s.queue| >= c.queueSize
    ensures WriterStep(c, AtWriter(s, w, Open(e)), w, FastFull) == Some(AtWriter(s, w, Full(e)))
    ensures WriterStep(c, AtWriter(s, w, Full(e)), w, CountSaturated) == Some(Stalled(s, w, e))
  {
    AtWriterTwice(s, w, Open(e), Full(e));
    AtWriterTwice(s, w, Full(e), Blocking(e));
  }

  /** A waiting call that gets its event in and returns. */
  function Sends(s: State, w: nat, e: Event): State {
    var entry := Entry(w, e);
    AtWriter(s, w, Returned(e, Accepted)).(
      queue := s.queue + [entry], accepted := s.accepted + [entry], enqueued := s.enqueued + 1)
  }

  lemma SlowSteps(c: Config, s: State, w: nat, e: Event)
    requires w in s.writers && s.writers[w] == Blocking(e) && |s.queue| < c.queueSize
    ensures WriterStep(c, s, w, SlowSend) == Some(Send(s, w, e))
    ensures var t := AtWriter(Send(s, w, e), w, Deferred(e, Accepted)).(enqueued := s.enqueued + 1);
            WriterStep(c, Send(s, w, e), w, CountEnqueued) == Some(t) &&
              WriterStep(c, t, w, RUnlock) == Some(Sends(s, w, e))
  {
    AtWriterTwice(s, w, Sent(e), Deferred(e, Accepted));
    AtWriterTwice(s, w, Deferred(e, Accepted), Returned(e, Accepted));
  }

  lemma SlowRuns(c: Config, s: State, w: nat, e: Event) returns (acts: seq<Action>)
    requires w in s.writers && s.writers[w] == Blocking(e) && |s.queue| < c.queueSize
    ensures Run(Machine(c), s, acts) == Some(Sends(s, w, e))
  {
    var s1 := Send(s, w, e);
    var s2 := AtWriter(s1, w, Deferred(e, Accepted)).(enqueued := s.enqueued + 1);
    SlowSteps(c, s, w, e);
    Then(c, s, [], s, Write(w, SlowSend), s1);
    acts := [] + [Write(w, SlowSend)];
    Then(c, s, acts, s1, Write(w, CountEnqueued), s2);
    acts := acts + [Write(w, CountEnqueued)];
    Then(c, s, acts, s2, Write(w, RUnlock), Sends(s, w, e));
    acts := acts + [Write(w, RUnlock)];
  }

  lemma GiveUpSteps(c: Config, s: State, w: nat, e: Event)
    requires w in s.writers && s.writers[w] == Blocking(e)
    ensures WriterStep(c, s, w, ContextDone) == Some(AtWriter(s, w, Deferred(e, ErrContext)))
    ensures WriterStep(c, AtWriter(s, w, Deferred(e, ErrContext)), w, RUnlock) ==
            Some(AtWriter(s, w, Returned(e, ErrContext)))
  {
    AtWriterTwice(s, w, Deferred(e, ErrContext), Returned(e, ErrContext));
  }

  lemma GiveUpRuns(c: Config, s: State, w: nat, e: Event) returns (acts: seq<Action>)
    requires w in s.writers && s.writers[w] == Blocking(e)
    ensures Run(Machine(c), s, acts) == Some(AtWriter(s, w, Returned(e, ErrContext)))
  {
    var s1 := AtWriter(s, w, Deferred(e, ErrContext));
    GiveUpSteps(c, s, w, e);
    Then(c, s, [], s, Write(w, ContextDone), s1);
    acts := [] + [Write(w, ContextDone)];
    Then(c, s, acts, s1, Write(w, RUnlock), AtWriter(s, w, Returned(e, ErrContext)));
    acts := acts + [Write(w, RUnlock)];
  }

  lemma WriteRuns(c: Config, s: State, w: nat, e: Event) returns (acts: seq<Action>)
    requires w !in s.writers && !WriteLocked(s) && (s.closed || |s.queue| < c.queueSize)
    ensures Run(Machine(c), s, acts) == Some(AfterWrite(c, s, w, e))
  {
    acts := WriteStarts(c, s, w, e);
    if s.closed {
      var s3 := AtWriter(s, w, Deferred(e, ErrAsyncClosed));
      assert AtWriter(s3, w, Returned(e, ErrAsyncClosed)) == AfterWrite(c, s, w, e);
      Then(c, s, acts, s3, Write(w, RUnlock), AfterWrite(c, s, w, e));
      acts := acts + [Write(w, RUnlock)];
    } else {
      acts := WriteAccepted(c, s, w, e, acts, AtWriter(s, w, Open(e)));
    }
  }

  /** A `Close` call that meets no other call, up to its final select. */
  lemma CloseRuns(c: Config, s: State, k: nat) returns (acts: seq<Action>)
    requires k !in s.closers && !WriteLocked(s) && !ReadLocked(s) && (s.closed ==> s.stopClosed)
    ensures Run(Machine(c), s, acts) == Some(AtCloser(s, k, Waiting).(closed := true, stopClosed := true))
  {
    var s2 := AtCloser(s, k, Locked);
    acts := CloseStarts(c, s, k, s2);
    var s4 := AtCloser(s, k, Unlocking).(closed := true, stopClosed := true);
    acts := CloseMarks(c, s, k, acts, s2, s4);
    assert AtCloser(s4, k, Waiting) == AtCloser(s, k, Waiting).(closed := true, stopClosed := true);
    Then(c, s, acts, s4, Close(k, Unlock), AtCloser(s4, k, Waiting));
    acts := acts + [Close(k, Unlock)];
  }

  lemma BeginAndLockClose(s: State, k: nat)
    requires k !in s.closers && !WriteLocked(s) && !ReadLocked(s)
    ensures CloserStep(s, k, BeginClose) == Some(AtCloser(s, k, WantsLock))
    ensures CloserStep(AtCloser(s, k, WantsLock), k, Lock) == Some(AtCloser(s, k, Locked))
  {
    var s1 := AtCloser(s, k, WantsLock);
    assert !WriteLocked(s1) && ReadLocked(s1) == ReadLocked(s);
    assert s.closers[k := WantsLock][k := Locked] == s.closers[k := Locked];
  }

  lemma CloseStarts(c: Config, s: State, k: nat, s2: State) returns (acts: seq<Action>)
    requires k !in s.closers && !WriteLocked(s) && !ReadLocked(s) && s2 == AtCloser(s, k, Locked)
    ensures Run(Machine(c), s, acts) == Some(s2)
  {
    var s1 := AtCloser(s, k, WantsLock);
    BeginAndLockClose(s, k);
    Then(c, s, [], s, Close(k, BeginClose), s1);
    acts := [] + [Close(k, BeginClose)];
    Then(c, s, acts, s1, Close(k, Lock), s2);
    acts := acts + [Close(k, Lock)];
  }

  lemma CloseMarks(c: Config, s: State, k: nat, acts: seq<Action>, s2: State, s4: State) returns (more: seq<Action>)
    requires s2 == AtCloser(s, k, Locked) && Run(Machine(c), s, acts) == Some(s2)
    requires s.closed ==> s.stopClosed
    requires s4 == AtCloser(s, k, Unlocking).(closed := true, stopClosed := true)
    ensures Run(Machine(c), s, more) == Some(s4)
  {
    more := acts + [Close(k, MarkClosed)];
    if s.closed {
      assert AtCloser(s2, k, Unlocking) == s4;
      Then(c, s, acts, s2, Close(k, MarkClosed), s4);
    } else {
      var s3 := AtCloser(s2, k, Marked).(closed := true);
      Then(c, s, acts, s2, Close(k, MarkClosed), s3);
      assert AtCloser(s3, k, Unlocking).(stopClosed := true) == s4;
      Then(c, s, more, s3, Close(k, CloseStop), s4);
      more := more + [Close(k, CloseStop)];
    }
  }

  /** One worker action, as a one-action run. */
  lemma WorkRuns(c: Config, s: State, act: WorkerAct)
    requires WorkerStep(c, s, act).Some?
    ensures Run(Machine(c), s, [Work(act)]) == WorkerStep(c, s, act)
  {
    Then(c, s, [], s, Work(act), WorkerStep(c, s, act).value);
    assert [] + [Work(act)] == [Work(act)];
  }

  /** The flushed batch is emptied. */
  lemma ResetRuns(c: Config, s: State, caller: Caller)
    requires s.worker == Resetting(caller)
    ensures Run(Machine(c), s, [Work(ResetBatch)]) == Some(s.(batch := [], worker := Resume(caller)))
  {
    WorkRuns(c, s, ResetBatch);
  }

  /** Receiving: the state after it. */
  function AfterReceive(c: Config, s: State, caller: Caller): State
    requires |s.queue| > 0
  {
    s.(queue := s.queue[1..], batch := s.batch + [s.queue[0]],
       worker := if |s.batch| + 1 >= c.batchSize then Attempting(0, caller) else s.worker)
  }

  lemma ReceiveRuns(c: Config, s: State, caller: Caller)
    requires |s.queue| > 0 && s.worker == Resume(caller) && caller != Exit
    ensures Run(Machine(c), s, [Work(Receive)]) == Some(AfterReceive(c, s, caller))
  {
    WorkRuns(c, s, Receive);
  }

  lemma DrainedRuns(c: Config, s: State)
    requires s.worker.Draining? && s.queue == []
    ensures Run(Machine(c), s, [Work(QueueEmpty)]) == Some(Flush(s, Exit))
  {
    WorkRuns(c, s, QueueEmpty);
  }

  lemma DoneRuns(c: Config, s: State)
    requires s.worker.Exiting?
    ensures Run(Machine(c), s, [Work(CloseDone)]) == Some(s.(doneClosed := true, worker := Exited))
  {
    WorkRuns(c, s, CloseDone);
  }

  /** Persisting is counted. */
  lemma CountRuns(c: Config, s: State, caller: Caller)
    requires s.worker == CountingFlushed(caller)
    ensures Run(Machine(c), s, [Work(AddFlushed)] + [Work(AddBatch)]) ==
            Some(s.(flushed := s.flushed + |s.batch|, batchesWritten := s.batchesWritten + 1,
              worker := Resetting(caller)))
  {
    var t := s.(flushed := s.flushed + |s.batch|, worker := CountingBatch(caller));
    WorkRuns(c, s, AddFlushed);
    assert WorkerStep(c, s, AddFlushed) == Some(t);
    Then(c, s, [Work(AddFlushed)], t, Work(AddBatch),
         t.(batchesWritten := s.batchesWritten + 1, worker := Resetting(caller)));
  }

  /** The fallback loop writes one more event. */
  lemma FallbackExtends(c: Config, s: State, acts: seq<Action>, t: State) returns (more: seq<Action>)
    requires Run(Machine(c), s, acts) == Some(t) && t.worker.Attempting? && !c.batchWriter
    requires t.worker.next < |t.batch|
    ensures Run(Machine(c), s, more) ==
            Some(t.(sink := t.sink + [t.batch[t.worker.next]],
                    worker := Attempting(t.worker.next + 1, t.worker.caller)))
  {
    Then(c, s, acts, t, Work(SinkWrite(true, true)), WorkerStep(c, t, SinkWrite(true, true)).value);
    more := acts + [Work(SinkWrite(true, true))];
  }

  /** The fallback loop has written the first `n` events. */
  function AfterFallback(s: State, n: nat): State
    requires s.worker.Attempting? && n <= |s.batch|
  {
    s.(sink := s.sink + s.batch[..n], worker := Attempting(n, s.worker.caller))
  }

  lemma {:induction false} FallbackRuns(c: Config, s: State, n: nat) returns (acts: seq<Action>)
    requires s.worker.Attempting? && s.worker.next == 0 && !c.batchWriter && n <= |s.batch|
    ensures Run(Machine(c), s, acts) == Some(AfterFallback(s, n))
    decreases n
  {
    if n == 0 {
      acts := [];
      assert s.sink + s.batch[..0] == s.sink;
    } else {
      var before := FallbackRuns(c, s, n - 1);
      acts := FallbackExtends(c, s, before, AfterFallback(s, n - 1));
      Grow(s.sink, s.batch, n - 1);
    }
  }

  datatype Branch = OnEvent | OnTick

  class AsyncRepository {
    const config: Config
    var queue: seq<Entry>
    var closed: bool
    var stopClosed: bool
    var doneClosed: bool
    var enqueued: nat
    var flushed: nat
    var saturated: nat
    var batchesWritten: nat
    var buffer: array<Entry>
    var length: nat
    var sink: seq<Entry>

    /** The run so far and the state it reached. */
    ghost var trace: seq<Action>
    ghost var machine: State

    ghost predicate Valid()
      reads this, buffer
    {
      && ValidConfig(config)
      && Reached(config, trace) == Some(machine)
      && Matches()
    }

    /** The fields are the fields of the abstract state. */
    ghost predicate Matches()
      reads this, buffer
    {
      && buffer.Length == config.batchSize && length <= buffer.Length
      && machine.queue == queue && machine.batch == buffer[..length] && machine.sink == sink
      && machine.closed == closed && machine.stopClosed == stopClosed && machine.doneClosed == doneClosed
      && machine.enqueued == enqueued && machine.flushed == flushed
      && machine.saturated == saturated && machine.batchesWritten == batchesWritten
    }

    constructor (config: Config)
      requires ValidConfig(config)
      ensures Valid() && this.config == config && machine == Init() && fresh(buffer)
    {
      this.config := config;
      queue, sink, closed, stopClosed, doneClosed := [], [], false, false, false;
      enqueued, flushed, saturated, batchesWritten := 0, 0, 0, 0;
      buffer := new Entry[config.batchSize](_ => Entry(0, Event("", "", 0)));
      length := 0;
      trace, machine := [], Init();
    }

    /** Account for what the fields have done as a run of the machine. */
    ghost method Commit(acts: seq<Action>, t: State)
      requires Reached(config, trace) == Some(machine) && Run(Machine(config), machine, acts) == Some(t)
      modifies `trace, `machine
      ensures Reached(config, trace) == Some(machine) && machine == t
      ensures trace == old(trace) + acts
    {
      RunConcat(Machine(config), Init(), trace, acts);
      machine := t;
      trace := trace + acts;
    }

    /** Account for one worker action. */
    ghost method Do(act: WorkerAct)
      requires Reached(config, trace) == Some(machine) && WorkerStep(config, machine, act).Some?
      modifies `trace, `machine
      ensures Reached(config, trace) == Some(machine) && Some(machine) == WorkerStep(config, old(machine), act)
      ensures trace == old(trace) + [Work(act)]
    {
      WorkRuns(config, machine, act);
      Commit([Work(act)], WorkerStep(config, machine, act).value);
    }

    /** A `Write` that meets no other call: refused when closed, accepted when there is room. With a
        full queue it waits: if the worker receives meanwhile (`relief`) its event goes in by the
        second select, otherwise its context ends it. */
    method Write(call: nat, event: Event, relief: bool, failures: seq<Outcome>) returns (result: WriteResult)
      requires Valid() && call !in machine.writers && !WriteLocked(machine)
      requires relief ==> machine.worker.Selecting? && length < config.batchSize
      requires forall f :: f in failures ==> f.Fails?
      modifies this, buffer
      ensures Valid() && old(trace) <= trace && buffer == old(buffer) && unchanged(`closed, `stopClosed, `doneClosed)
      ensures result == if closed then ErrAsyncClosed
                        else if |old(queue)| < config.queueSize || relief then Accepted else ErrContext
      ensures result == Accepted ==>
        enqueued == old(enqueued) + 1 && machine.accepted == old(machine.accepted) + [Entry(call, event)]
      ensures result == Accepted ==>
        queue == (if |old(queue)| < config.queueSize then old(queue) else old(queue)[1..]) + [Entry(call, event)]
      ensures result != Accepted ==>
        queue == old(queue) && enqueued == old(enqueued) && sink == old(sink) &&
          machine.accepted == old(machine.accepted)
      ensures saturated == old(saturated) + if !closed && |old(queue)| >= config.queueSize then 1 else 0
      ensures machine.writers == old(machine.writers)[call := Returned(event, result)]
    {
      if !closed && |queue| >= config.queueSize {
        result := Wait(call, event, relief, failures);
      } else {
        result := WriteAtOnce(call, event);
      }
    }

    method WriteAtOnce(call: nat, event: Event) returns (result: WriteResult)
      requires Valid() && call !in machine.writers && !WriteLocked(machine) && (closed || |queue| < config.queueSize)
      modifies `queue, `enqueued, `trace, `machine
      ensures Valid() && old(trace) <= trace && machine == AfterWrite(config, old(machine), call, event)
      ensures if closed then result == ErrAsyncClosed && queue == old(queue) && enqueued == old(enqueued)
              else result == Accepted && queue == old(queue) + [Entry(call, event)] && enqueued == old(enqueued) + 1
    {
      ghost var acts := WriteRuns(config, machine, call, event);
      if closed {
        result := ErrAsyncClosed;
      } else {
        queue := queue + [Entry(call, event)];
        enqueued := enqueued + 1;
        result := Accepted;
      }
      Commit(acts, AfterWrite(config, machine, call, event));
    }

    /** The way of a call that finds the queue full. */
    method Wait(call: nat, event: Event, relief: bool, failures: seq<Outcome>) returns (result: WriteResult)
      requires Valid() && call !in machine.writers && !WriteLocked(machine) && !closed && |queue| >= config.queueSize
      requires relief ==> machine.worker.Selecting? && length < config.batchSize
      requires forall f :: f in failures ==> f.Fails?
      modifies this, buffer
      ensures Valid() && old(trace) <= trace && buffer == old(buffer) && unchanged(`closed, `stopClosed, `doneClosed)
      ensures saturated == old(saturated) + 1 && result == if relief then Accepted else ErrContext
      ensures machine.writers == old(machine.writers)[call := Returned(event, result)]
      ensures relief ==> machine.accepted == old(machine.accepted) + [Entry(call, event)]
      ensures relief ==> queue == old(queue)[1..] + [Entry(call, event)] && enqueued == old(enqueued) + 1
      ensures !relief ==> queue == old(queue) && enqueued == old(enqueued) && sink == old(sink)
      ensures !relief ==> machine.accepted == old(machine.accepted)
    {
      ghost var m := machine;
      QueueFits();
      Saturate(call, event);
      result := if relief then Accepted else ErrContext;
      AtWriterTwice(m, call, Blocking(event), Returned(event, result));
      if relief {
        TakeEvent(failures, Main);
        SlowSend(call, event);
      } else {
        GiveUp(call, event);
      }
    }

    /** The default case of the first select. */
    method Saturate(ghost call: nat, ghost event: Event)
      requires Valid() && call !in machine.writers && !WriteLocked(machine) && !closed && |queue| >= config.queueSize
      modifies `saturated, `trace, `machine
      ensures Valid() && old(trace) <= trace && saturated == old(saturated) + 1
      ensures machine == Stalled(old(machine), call, event)
    {
      ghost var acts := StallRuns(config, machine, call, event);
      saturated := saturated + 1;
      Commit(acts, Stalled(machine, call, event));
    }

    /** The send of the second select. */
    method SlowSend(call: nat, event: Event)
      requires Valid() && call in machine.writers && machine.writers[call] == Blocking(event)
      requires |queue| < config.queueSize
      modifies `queue, `enqueued, `trace, `machine
      ensures Valid() && old(trace) <= trace
      ensures queue == old(queue) + [Entry(call, event)] && enqueued == old(enqueued) + 1
      ensures machine == Sends(old(machine), call, event)
    {
      ghost var acts := SlowRuns(config, machine, call, event);
      queue := queue + [Entry(call, event)];
      enqueued := enqueued + 1;
      Commit(acts, Sends(machine, call, event));
    }

    /** The context ends a `Write` that waits for room. */
    ghost method GiveUp(call: nat, event: Event)
      requires Valid() && call in machine.writers && machine.writers[call] == Blocking(event)
      modifies `trace, `machine
      ensures Valid() && old(trace) <= trace && machine == AtWriter(old(machine), call, Returned(event, ErrContext))
    {
      var acts := GiveUpRuns(config, machine, call, event);
      Commit(acts, AtWriter(machine, call, Returned(event, ErrContext)));
    }

    /** `Close` up to its final select: closing twice closes the stop channel once. */
    method Close(call: nat)
      requires Valid() && call !in machine.closers && !WriteLocked(machine) && !ReadLocked(machine)
      modifies `closed, `stopClosed, `trace, `machine
      ensures Valid() && old(trace) <= trace && closed && stopClosed
      ensures machine == AtCloser(old(machine), call, Waiting).(closed := true, stopClosed := true)
    {
      StopFollowsClosed();
      ghost var acts := CloseRuns(config, machine, call);
      if !closed {
        closed := true;
        stopClosed := true;
      }
      Commit(acts, AtCloser(machine, call, Waiting).(closed := true, stopClosed := true));
    }

    lemma StopFollowsClosed()
      requires Valid() && !WriteLocked(machine)
      ensures closed ==> stopClosed
    {
      Theorems.Reaches(config, trace);
    }

    /** One write attempt: the sink's own batch call, or the loop over single writes. */
    method WriteBatch(outcome: Outcome) returns (ok: bool)
      requires Valid() && length > 0
      requires machine.worker.Attempting? && machine.worker.next == 0
      modifies `sink, `trace, `machine
      ensures Valid() && old(trace) <= trace
      ensures ok == outcome.Succeeds?
      ensures sink == old(sink) + Left(config, buffer[..length], outcome)
      ensures machine == old(machine).(sink := sink, late := machine.late, worker :=
                if ok then CountingFlushed(old(machine).worker.caller) else old(machine).worker)
    {
      ok := outcome.Succeeds?;
      if config.batchWriter {
        var kept := outcome.Fails? && outcome.stored && !config.honestErrors;
        sink := if ok || kept then sink + buffer[..length] else sink;
        Do(SinkBatch(ok || kept, ok));
      } else {
        ok := WriteOneByOne(outcome);
      }
    }

    method WriteOneByOne(outcome: Outcome) returns (ok: bool)
      requires Valid() && length > 0 && !config.batchWriter
      requires machine.worker.Attempting? && machine.worker.next == 0
      modifies `sink, `trace, `machine
      ensures Valid() && old(trace) <= trace
      ensures ok == outcome.Succeeds?
      ensures sink == old(sink) + Left(config, buffer[..length], outcome)
      ensures machine == old(machine).(sink := sink, late := machine.late, worker :=
                if ok then CountingFlushed(old(machine).worker.caller) else old(machine).worker)
    {
      ok := outcome.Succeeds?;
      if ok {
        WriteFirst(length);
        Do(LoopDone);
      } else {
        FailAt(FailingAt(length, outcome), outcome.stored && !config.honestErrors);
      }
    }

    /** The loop over single writes stops at event `stop`, which the sink has `kept` or not. */
    method FailAt(stop: nat, kept: bool)
      requires Valid() && stop < length && !config.batchWriter && (kept ==> !config.honestErrors)
      requires machine.worker.Attempting? && machine.worker.next == 0
      modifies `sink, `trace, `machine
      ensures Valid() && old(trace) <= trace
      ensures sink == old(sink) + buffer[..stop + if kept then 1 else 0]
      ensures machine == old(machine).(sink := sink, late := machine.late)
    {
      ghost var start := sink;
      WriteFirst(stop);
      Grow(start, buffer[..length], stop);
      sink := if kept then sink + [buffer[stop]] else sink;
      Do(SinkWrite(kept, false));
    }

    /** The loop over single writes, up to event `n`. */
    method WriteFirst(n: nat)
      requires Valid() && n <= length && !config.batchWriter
      requires machine.worker.Attempting? && machine.worker.next == 0
      modifies `sink, `trace, `machine
      ensures Valid() && old(trace) <= trace
      ensures sink == old(sink) + buffer[..n]
      ensures machine == old(machine).(sink := sink, worker := Attempting(n, old(machine).worker.caller))
    {
      ghost var batch, start := buffer[..length], sink;
      ghost var acts := FallbackRuns(config, machine, n);
      for i := 0 to n
        invariant machine == old(machine) && trace == old(trace)
        invariant sink == start + batch[..i]
      {
        Grow(start, batch, i);
        sink := sink + [buffer[i]];
      }
      assert batch[..n] == buffer[..n];
      Commit(acts, AfterFallback(machine, n));
    }

    /** The failing rounds of the retry loop, with their pauses. */
    method FailingAttempts(failures: seq<Outcome>) returns (pauses: seq<int>)
      requires Valid() && length > 0
      requires machine.worker.Attempting? && machine.worker.next == 0
      requires forall f :: f in failures ==> f.Fails?
      modifies `sink, `trace, `machine
      ensures Valid() && old(trace) <= trace
      ensures sink == old(sink) + LeftByAll(config, buffer[..length], failures)
      ensures machine == old(machine).(sink := sink, late := machine.late)
      ensures pauses == Pauses(|failures|)
    {
      ghost var batch, start, m := buffer[..length], sink, machine;
      var delay := INITIAL_DELAY_MS;
      pauses := [];
      for n := 0 to |failures|
        invariant Valid() && old(trace) <= trace
        invariant sink == start + LeftByAll(config, batch, failures[..n])
        invariant machine == m.(sink := sink, late := machine.late)
        invariant delay == Pause(n) && pauses == Pauses(n)
      {
        assert failures[n] in failures;
        LeftBySnoc(config, start, batch, failures, n);
        var ok := WriteBatch(failures[n]);
        NextPause(n);
        pauses := pauses + [delay];
        if delay < MAX_DELAY_MS {
          delay := delay * 2;
          if delay > MAX_DELAY_MS {
            delay := MAX_DELAY_MS;
          }
        }
      }
      assert failures[..|failures|] == failures;
    }

    /** Retry until the sink takes the batch: the failed attempts leave what they leave, then
        the whole batch follows. */
    method PersistWithRetry(failures: seq<Outcome>) returns (pauses: seq<int>)
      requires Valid() && length > 0
      requires machine.worker.Attempting? && machine.worker.next == 0
      requires forall f :: f in failures ==> f.Fails?
      modifies `sink, `flushed, `batchesWritten, `trace, `machine
      ensures Valid() && old(trace) <= trace
      ensures sink == old(sink) + LeftByAll(config, buffer[..length], failures) + buffer[..length]
      ensures pauses == Pauses(|failures|)
      ensures flushed == old(flushed) + length && batchesWritten == old(batchesWritten) + 1
      ensures machine == old(machine).(sink := sink, late := machine.late, flushed := flushed,
                batchesWritten := batchesWritten, worker := Resetting(old(machine).worker.caller))
    {
      pauses := FailingAttempts(failures);
      var ok := WriteBatch(Succeeds);
      CountBatch();
    }

    /** The counters after a successful attempt. */
    method CountBatch()
      requires Valid() && machine.worker.CountingFlushed?
      modifies `flushed, `batchesWritten, `trace, `machine
      ensures Valid() && old(trace) <= trace
      ensures flushed == old(flushed) + length && batchesWritten == old(batchesWritten) + 1
      ensures machine == old(machine).(flushed := flushed, batchesWritten := batchesWritten,
                worker := Resetting(old(machine).worker.caller))
    {
      flushed := flushed + length;
      batchesWritten := batchesWritten + 1;
      CountRuns(config, machine, machine.worker.caller);
      Commit([Work(AddFlushed)] + [Work(AddBatch)],
             machine.(flushed := flushed, batchesWritten := batchesWritten,
               worker := Resetting(machine.worker.caller)));
    }

    /** What `flush` appends to the sink. */
    ghost function Flushed(failures: seq<Outcome>): seq<Entry>
      reads this, buffer
      requires length <= buffer.Length
    {
      if length == 0 then [] else LeftByAll(config, buffer[..length], failures) + buffer[..length]
    }

    /** The body of `flush` once the worker has decided to flush for `caller`. */
    method FinishFlush(failures: seq<Outcome>, ghost caller: Caller)
      requires Valid() && forall f :: f in failures ==> f.Fails?
      requires machine.worker == if length == 0 then Resume(caller) else Attempting(0, caller)
      modifies `sink, `flushed, `batchesWritten, `length, `trace, `machine
      ensures Valid() && old(trace) <= trace && length == 0
      ensures sink == old(sink) + old(Flushed(failures))
      ensures machine.worker == Resume(caller) && machine.accepted == old(machine.accepted)
      ensures machine.writers == old(machine.writers) && machine.closers == old(machine.closers)
    {
      if length == 0 {
        assert sink == sink + [];
        return;
      }
      FlushBatch(failures, caller);
    }

    /** What `flush` does with a batch that is not empty. */
    method FlushBatch(failures: seq<Outcome>, ghost caller: Caller)
      requires Valid() && length > 0 && forall f :: f in failures ==> f.Fails?
      requires machine.worker == Attempting(0, caller)
      modifies `sink, `flushed, `batchesWritten, `length, `trace, `machine
      ensures Valid() && old(trace) <= trace && length == 0
      ensures sink == old(sink) + old(Flushed(failures))
      ensures machine.worker == Resume(caller) && machine.accepted == old(machine.accepted)
      ensures machine.writers == old(machine.writers) && machine.closers == old(machine.closers)
    {
      ghost var left := Flushed(failures);
      assert sink + left == sink + LeftByAll(config, buffer[..length], failures) + buffer[..length];
      var pauses := PersistWithRetry(failures);
      length := 0;
      ResetRuns(config, machine, caller);
      Commit([Work(ResetBatch)], machine.(batch := [], worker := Resume(caller)));
    }

    /** One event from the channel into the buffer, flushed when full. */
    method TakeEvent(failures: seq<Outcome>, ghost caller: Caller)
      requires Valid() && forall f :: f in failures ==> f.Fails?
      requires |queue| > 0 && length < config.batchSize
      requires machine.worker == Resume(caller) && caller != Exit
      modifies this, buffer
      ensures Valid() && old(trace) <= trace && buffer == old(buffer)
      ensures queue == old(queue)[1..] && length < config.batchSize
      ensures unchanged(`closed, `stopClosed, `doneClosed, `enqueued, `saturated)
      ensures machine.worker == Resume(caller) && machine.accepted == old(machine.accepted)
      ensures machine.writers == old(machine.writers) && machine.closers == old(machine.closers)
    {
      buffer[length] := queue[0];
      length := length + 1;
      assert buffer[..length] == old(buffer[..length]) + [old(queue[0])];
      queue := queue[1..];
      ReceiveRuns(config, machine, caller);
      Commit([Work(Receive)], AfterReceive(config, machine, caller));
      if length >= config.batchSize {
        FinishFlush(failures, caller);
      }
    }

    /** A tick: flush what is there. */
    method OnTimer(failures: seq<Outcome>)
      requires Valid() && machine.worker.Selecting? && forall f :: f in failures ==> f.Fails?
      modifies `sink, `flushed, `batchesWritten, `length, `trace, `machine
      ensures Valid() && old(trace) <= trace && length == 0
      ensures machine.worker.Selecting? && machine.accepted == old(machine.accepted)
      ensures sink == old(sink) + old(Flushed(failures))
    {
      Do(Tick);
      FinishFlush(failures, Main);
    }

    /** The main select, for as long as the scheduler picks the channel or the ticker. */
    method SelectLoop(selects: seq<Branch>, failures: nat -> seq<Outcome>) returns (flushes: nat)
      requires Valid() && machine.worker.Selecting? && length < config.batchSize
      requires forall n, f :: f in failures(n) ==> f.Fails?
      modifies this, buffer
      ensures Valid() && old(trace) <= trace && buffer == old(buffer)
      ensures machine.worker.Selecting? && length < config.batchSize && machine.accepted == old(machine.accepted)
      ensures unchanged(`closed, `stopClosed, `doneClosed, `enqueued, `saturated)
    {
      flushes := 0;
      for i := 0 to |selects|
        invariant Valid() && old(trace) <= trace && buffer == old(buffer)
        invariant machine.worker.Selecting? && length < config.batchSize && machine.accepted == old(machine.accepted)
        invariant unchanged(`closed, `stopClosed, `doneClosed, `enqueued, `saturated)
      {
        if selects[i].OnTick? {
          OnTimer(failures(flushes));
        } else if |queue| > 0 {
          TakeEvent(failures(flushes), Main);
        }
        flushes := flushes + 1;
      }
    }

    /** The inner select after `stop`: receive until the channel is empty. */
    method DrainLoop(failures: nat -> seq<Outcome>, first: nat) returns (flushes: nat)
      requires Valid() && machine.worker.Draining? && length < config.batchSize
      requires forall n, f :: f in failures(n) ==> f.Fails?
      modifies this, buffer
      ensures Valid() && old(trace) <= trace && buffer == old(buffer) && queue == []
      ensures machine.worker.Draining? && machine.accepted == old(machine.accepted)
      ensures unchanged(`closed, `stopClosed, `doneClosed, `enqueued, `saturated)
    {
      flushes := first;
      while |queue| > 0
        invariant Valid() && old(trace) <= trace && buffer == old(buffer)
        invariant machine.worker.Draining? && length < config.batchSize && machine.accepted == old(machine.accepted)
        invariant unchanged(`closed, `stopClosed, `doneClosed, `enqueued, `saturated)
        decreases |queue|
      {
        TakeEvent(failures(flushes), Drain);
        flushes := flushes + 1;
      }
    }

    /** The worker: any series of receives and ticks, then, once `stop` is closed, the drain.
        `failures` tells how often and how each flush's write attempts fail. When it ends,
        everything accepted is in the sink in order, once or, with partial attempts, at least once. */
    method RunWorker(selects: seq<Branch>, failures: nat -> seq<Outcome>)
      requires Valid() && machine.worker.Selecting?
      requires forall n, f :: f in failures(n) ==> f.Fails?
      modifies this, buffer
      ensures Valid() && old(trace) <= trace && buffer == old(buffer)
      ensures machine.accepted == old(machine.accepted)
      ensures unchanged(`closed, `stopClosed, `enqueued, `saturated)
      ensures doneClosed == old(stopClosed)
      ensures doneClosed ==> Delivered()
    {
      WhileSelecting();
      var flushes := SelectLoop(selects, failures);
      if stopClosed {
        Do(SeeStop);
        flushes := DrainLoop(failures, flushes);
        Finish(failures(flushes));
      }
    }

    /** The last flush, and `done`. */
    method Finish(failures: seq<Outcome>)
      requires Valid() && machine.worker.Draining? && queue == []
      requires forall f :: f in failures ==> f.Fails?
      modifies `sink, `flushed, `batchesWritten, `length, `doneClosed, `trace, `machine
      ensures Valid() && old(trace) <= trace && doneClosed && Delivered()
      ensures machine.accepted == old(machine.accepted)
    {
      DrainedRuns(config, machine);
      Commit([Work(QueueEmpty)], Flush(machine, Exit));
      FinishFlush(failures, Exit);
      doneClosed := true;
      DoneRuns(config, machine);
      Commit([Work(CloseDone)], machine.(doneClosed := true, worker := Exited));
      AfterDone();
    }

    /** Nothing is left on the way, and the sink has what was accepted. */
    ghost predicate Delivered()
      reads this
    {
      && queue == [] && length == 0
      && FirstOccurrences(sink) == machine.accepted
      && (AllOrNothing(config) ==> sink == machine.accepted)
      && enqueued == flushed == |machine.accepted|
    }

    lemma QueueFits()
      requires Valid()
      ensures |queue| <= config.queueSize
    {
      Theorems.Reaches(config, trace);
    }

    lemma WhileSelecting()
      requires Valid() && machine.worker.Selecting?
      ensures !doneClosed && length < config.batchSize
    {
      Theorems.Reaches(config, trace);
    }

    lemma AfterDone()
      requires Valid() && doneClosed
      ensures Delivered()
    {
      Theorems.CloseDrains(config, trace);
    }
  }
}
