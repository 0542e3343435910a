/** What the audit writer promises, over every run. */
module AsyncTheorems {
  import opened Machines
  import opened AsyncModel
  import opened AsyncInvariant

  lemma Reaches(c: Config, actions: seq<Action>)
    requires ValidConfig(c) && Reached(c, actions).Some?
    ensures Inv(c, Reached(c, actions).value)
  {
    InvInit(c);
    InvReached(c, Init(), actions);
    var t := Reached(c, actions).value;
    assert Inv(c, t);
  }

  // ---------- nothing lost, duplicated or reordered ----------

  /** The entries of the batch that the sink has not been handed successfully. */
  function Unwritten(s: State): seq<Entry> {
    if BatchStored(s) then []
    else if s.worker.Attempting? && s.worker.next <= |s.batch| then s.batch[s.worker.next..]
    else s.batch
  }

  /** With all-or-nothing attempts, sink, batch and queue are together exactly the accepted
      entries in send order, and the unpersisted part is bounded by the configuration. */
  lemma ExactlyOnceInOrder(c: Config, actions: seq<Action>)
    requires ValidConfig(c) && AllOrNothing(c) && Reached(c, actions).Some?
    ensures var s := Reached(c, actions).value;
            && s.sink + Unwritten(s) + s.queue == s.accepted
            && |s.accepted| - |s.sink| <= c.queueSize + c.batchSize
  {
    Reaches(c, actions);
    var s := Reached(c, actions).value;
    var n := if BatchStored(s) then |s.batch| else if s.worker.Attempting? then s.worker.next else 0;
    assert Unwritten(s) == s.batch[n..] && Written(s) == Base(s) + n;
    Pieces(s.accepted, Base(s), s.batch, s.queue, n);
  }

  lemma Pieces(accepted: seq<Entry>, base: nat, batch: seq<Entry>, queue: seq<Entry>, n: nat)
    requires base <= |accepted| && n <= |batch| && accepted == accepted[..base] + batch + queue
    ensures base + n <= |accepted| && accepted[..base + n] + batch[n..] + queue == accepted
  {
    assert accepted[..base + n] == accepted[..base] + batch[..n];
    assert batch == batch[..n] + batch[n..];
  }

  /** With any sink, delivery is at least once: the first occurrences in the sink are a prefix
      of the accepted entries, reaching past everything outside queue and batch. */
  lemma AtLeastOnceInOrder(c: Config, actions: seq<Action>)
    requires ValidConfig(c) && Reached(c, actions).Some?
    ensures var s := Reached(c, actions).value;
            && FirstOccurrences(s.sink) <= s.accepted
            && |s.accepted| - |FirstOccurrences(s.sink)| <= c.queueSize + c.batchSize
            && (forall e :: e in s.accepted ==> e in s.sink || e in s.batch || e in s.queue)
  {
    Reaches(c, actions);
    var s := Reached(c, actions).value;
    var d := FirstOccurrences(s.sink);
    FirstOccurrencesElements(s.sink);
    forall e | e in s.accepted
      ensures e in s.sink || e in s.batch || e in s.queue
    {
      if e in s.accepted[..Base(s)] {
        assert s.accepted[..Base(s)] == d[..Base(s)];
      }
    }
  }

  /** What a `Write` call's result means: success is one accepted entry, an error is none, nor
      anything that may yet reach the sink. */
  lemma WriteOutcome(c: Config, actions: seq<Action>, w: nat)
    requires ValidConfig(c) && Reached(c, actions).Some?
    requires var s := Reached(c, actions).value; w in s.writers && s.writers[w].Returned?
    ensures var s := Reached(c, actions).value;
            if s.writers[w].result == Accepted then
              multiset(s.accepted)[Entry(w, s.writers[w].event)] == 1
            else
              && (forall e :: e in s.accepted || e in s.sink || e in s.batch || e in s.queue ==> e.call != w)
              && (forall x, e :: x in s.late && e in x ==> e.call != w)
  {
    Reaches(c, actions);
    var s := Reached(c, actions).value;
    if s.writers[w].result == Accepted {
      EnteredOnce(s, w);
    } else {
      EverywhereAccepted(c, s);
    }
  }

  lemma EnteredOnce(s: State, w: nat)
    requires CallInv(s) && w in s.writers && HasEntered(s.writers[w])
    ensures multiset(s.accepted)[Entry(w, s.writers[w].event)] == 1
  {
    var i :| 0 <= i < |s.accepted| && s.accepted[i] == Entry(w, s.writers[w].event);
    CountsOnce(s.accepted, i);
  }

  /** Whatever the repository or the sink has was accepted. */
  lemma EverywhereAccepted(c: Config, s: State)
    requires FlowInv(c, s) && SinkInv(c, s) && LateInv(c, s)
    ensures forall e :: e in s.sink || e in s.batch || e in s.queue ==> e in s.accepted
    ensures forall x, e :: x in s.late && e in x ==> e in s.accepted
  {
    FirstOccurrencesElements(s.sink);
    forall x, e | x in s.late && e in x
      ensures e in s.accepted
    {
      var lo: nat :| SegmentAt(s, x, lo);
    }
  }

  lemma {:induction false} CountsOnce(s: seq<Entry>, i: nat)
    requires i < |s| && forall j, k :: 0 <= j < k < |s| ==> s[j].call != s[k].call
    ensures multiset(s)[s[i]] == 1
  {
    assert s == s[..i] + [s[i]] + s[i + 1..];
    assert s[i] !in s[..i] && s[i] !in s[i + 1..];
  }

  lemma AcceptedStep(c: Config, s: State, a: Action)
    requires Step(c, s, a).Some?
    ensures s.accepted <= Step(c, s, a).value.accepted
    ensures !a.Write? ==> Step(c, s, a).value.accepted == s.accepted
    ensures a.Write? && (a.w in s.writers ==> !PastCheck(s.writers[a.w])) ==>
              Step(c, s, a).value.accepted == s.accepted && Step(c, s, a).value.queue == s.queue
  {
    match a {
      case Write(w, act) =>
        WriterTouches(c, s, w, act);
        if w in s.writers ==> !PastCheck(s.writers[w]) {
          OnlyPastCheckSends(c, s, w, act);
        }
      case Close(k, act) => CloserTouches(s, k, act);
      case Work(act) => WorkerTouches(c, s, act);
      case Land(i) => assert LandStep(s, i).value.accepted == s.accepted;
    }
  }

  lemma OnlyPastCheckSends(c: Config, s: State, w: nat, act: WriterAct)
    requires WriterStep(c, s, w, act).Some? && (w in s.writers ==> !PastCheck(s.writers[w]))
    ensures var t := WriterStep(c, s, w, act).value; t.accepted == s.accepted && t.queue == s.queue
  {
  }

  /** A run only extends the history. */
  lemma AcceptedGrows(c: Config, s: State, actions: seq<Action>)
    requires Run(Machine(c), s, actions).Some?
    ensures s.accepted <= Run(Machine(c), s, actions).value.accepted
  {
    forall t: State, a | s.accepted <= t.accepted && Machine(c)(t, a).Some?
      ensures s.accepted <= Machine(c)(t, a).value.accepted
    {
      AcceptedStep(c, t, a);
    }
    RunKeeps(Machine(c), (t: State) => s.accepted <= t.accepted, s, actions);
  }

  /** A call that returned before another began comes first in the history. */
  lemma RealTimeOrder(c: Config, before: seq<Action>, after: seq<Action>, w1: nat, w2: nat)
    requires ValidConfig(c) && Reached(c, before).Some? && Reached(c, before + after).Some?
    requires var s := Reached(c, before).value;
             w1 in s.writers && HasEntered(s.writers[w1]) && w2 !in s.writers
    requires var t := Reached(c, before + after).value; w2 in t.writers && HasEntered(t.writers[w2])
    ensures var t := Reached(c, before + after).value;
            exists i, j :: 0 <= i < j < |t.accepted| && t.accepted[i].call == w1 && t.accepted[j].call == w2
  {
    Reaches(c, before);
    Reaches(c, before + after);
    RunConcat(Machine(c), Init(), before, after);
    AcceptedGrows(c, Reached(c, before).value, after);
    EarlierFirst(Reached(c, before).value, Reached(c, before + after).value, w1, w2);
  }

  lemma EarlierFirst(s: State, t: State, w1: nat, w2: nat)
    requires CallInv(s) && CallInv(t) && s.accepted <= t.accepted
    requires w1 in s.writers && HasEntered(s.writers[w1]) && w2 !in s.writers
    requires w2 in t.writers && HasEntered(t.writers[w2])
    ensures exists i, j :: 0 <= i < j < |t.accepted| && t.accepted[i].call == w1 && t.accepted[j].call == w2
  {
    var i :| 0 <= i < |s.accepted| && s.accepted[i] == Entry(w1, s.writers[w1].event);
    var j :| 0 <= j < |t.accepted| && t.accepted[j] == Entry(w2, t.writers[w2].event);
    assert forall n :: 0 <= n < |s.accepted| ==> s.accepted[n] in s.accepted && s.accepted[n].call != w2;
    assert t.accepted[i].call == w1 && t.accepted[j].call == w2;
  }

  // ---------- when delivery is exactly once ----------

  ghost predicate NoRepeats(s: seq<Entry>) {
    forall i, j :: 0 <= i < j < |s| ==> s[i] != s[j]
  }

  ghost predicate NeverRepeats(c: Config) {
    forall actions :: Reached(c, actions).Some? ==> NoRepeats(Reached(c, actions).value.sink)
  }

  /** Exactly the configurations whose failed attempts store nothing never repeat an entry:
      the one-event fallback repeats as soon as a batch can hold two events. */
  lemma ExactlyOnceIff(c: Config)
    requires ValidConfig(c)
    ensures NeverRepeats(c) <==> AllOrNothing(c)
  {
    if AllOrNothing(c) {
      forall actions | Reached(c, actions).Some?
        ensures NoRepeats(Reached(c, actions).value.sink)
      {
        Reaches(c, actions);
      }
    } else {
      var actions := RepeatingRun(c);
      assert !NoRepeats(Reached(c, actions).value.sink);
    }
  }

  lemma Extend(c: Config, actions: seq<Action>, s: State, a: Action)
    requires Reached(c, actions) == Some(s) && Step(c, s, a).Some?
    ensures Reached(c, actions + [a]) == Some(Step(c, s, a).value)
  {
    RunSnoc(Machine(c), Init(), actions, a);
  }

  /** One call sends its event while the repository is open. */
  lemma SendOne(c: Config, actions: seq<Action>, s: State, w: nat, e: Event) returns (more: seq<Action>, t: State)
    requires ValidConfig(c) && Reached(c, actions) == Some(s)
    requires w !in s.writers && s.closers == map[] && !s.closed && s.queue == []
    ensures Reached(c, more) == Some(t) && t.writers == s.writers[w := Sent(e)]
    ensures t == s.(writers := t.writers, queue := [Entry(w, e)], accepted := t.accepted)
  {
    Extend(c, actions, s, Write(w, Begin(e)));
    var m1, s1 := actions + [Write(w, Begin(e))], AtWriter(s, w, WantsRLock(e));
    Extend(c, m1, s1, Write(w, RLock));
    var m2, s2 := m1 + [Write(w, RLock)], AtWriter(s1, w, RLocked(e));
    Extend(c, m2, s2, Write(w, CheckClosed));
    var m3, s3 := m2 + [Write(w, CheckClosed)], AtWriter(s2, w, Open(e));
    Extend(c, m3, s3, Write(w, FastSend));
    more, t := m3 + [Write(w, FastSend)], Send(s3, w, e);
    assert t.writers == s.writers[w := Sent(e)];
  }

  /** And the worker takes it. */
  lemma SendAndTake(c: Config, actions: seq<Action>, s: State, w: nat, e: Event) returns (more: seq<Action>, t: State)
    requires ValidConfig(c) && Reached(c, actions) == Some(s)
    requires w !in s.writers && s.closers == map[] && !s.closed && s.queue == [] && s.worker.Selecting?
    ensures Reached(c, more) == Some(t)
    ensures t.batch == s.batch + [Entry(w, e)] && t.sink == s.sink && t.queue == []
    ensures t.closers == map[] && !t.closed && t.writers == s.writers[w := Sent(e)]
    ensures t.worker == if |t.batch| >= c.batchSize then Attempting(0, Main) else Selecting
  {
    var m, u := SendOne(c, actions, s, w, e);
    assert u.queue[1..] == [];
    Extend(c, m, u, Work(Receive));
    more, t := m + [Work(Receive)], Take(c, u, Main);
  }

  lemma StartFlush(c: Config, actions: seq<Action>, s: State) returns (more: seq<Action>, t: State)
    requires Reached(c, actions) == Some(s) && |s.batch| > 0
    requires s.worker == Selecting || s.worker == Attempting(0, Main)
    ensures Reached(c, more) == Some(t) && t == s.(worker := Attempting(0, Main))
  {
    if s.worker == Selecting {
      Extend(c, actions, s, Work(Tick));
      more, t := actions + [Work(Tick)], Flush(s, Main);
    } else {
      more, t := actions, s;
    }
  }

  /** A run whose sink holds one entry twice. */
  lemma RepeatingRun(c: Config) returns (actions: seq<Action>)
    requires ValidConfig(c) && !AllOrNothing(c)
    ensures Reached(c, actions).Some? && !NoRepeats(Reached(c, actions).value.sink)
  {
    var event := Event("", "", 0);
    var m, s := SendAndTake(c, [], Init(), 0, event);
    if c.honestErrors {
      m, s := SendAndTake(c, m, s, 1, event);
    }
    m, s := StartFlush(c, m, s);
    if c.honestErrors {
      m, s := Attempt(c, m, s, SinkWrite(true, true));
      m, s := Attempt(c, m, s, SinkWrite(false, false));
      m, s := Attempt(c, m, s, SinkWrite(true, true));
    } else {
      var act := if c.batchWriter then SinkBatch(true, false) else SinkWrite(true, false);
      m, s := Attempt(c, m, s, act);
      m, s := Attempt(c, m, s, act);
    }
    assert s.sink[0] == s.sink[1];
    actions := m;
  }

  /** One sink call of a write attempt. */
  lemma Attempt(c: Config, actions: seq<Action>, s: State, act: WorkerAct) returns (more: seq<Action>, t: State)
    requires Reached(c, actions) == Some(s) && s.worker.Attempting?
    requires act.SinkBatch? || act.SinkWrite?
    requires WorkerStep(c, s, act).Some?
    ensures Reached(c, more) == Some(t) && t == WorkerStep(c, s, act).value
    ensures t.batch == s.batch
    ensures !act.stored ==> t.sink == s.sink
    ensures act.stored && act.SinkWrite? ==> s.worker.next < |s.batch| && t.sink == s.sink + [s.batch[s.worker.next]]
    ensures act.stored && act.SinkBatch? ==> t.sink == s.sink + s.batch
    ensures !act.ok ==> t.worker == Attempting(0, s.worker.caller)
    ensures act.ok && act.SinkWrite? ==> t.worker == Attempting(s.worker.next + 1, s.worker.caller)
  {
    Extend(c, actions, s, Work(act));
    more, t := actions + [Work(act)], WorkerStep(c, s, act).value;
  }

  // ---------- counters ----------

  /** Conservation of the counters: what is enqueued, with the sends not yet counted, is what
      is flushed, batched or queued, a stored batch being batched until it is counted. */
  lemma CountersBalance(c: Config, actions: seq<Action>)
    requires ValidConfig(c) && Reached(c, actions).Some?
    ensures var s := Reached(c, actions).value;
            && var batched := if s.worker.CountingBatch? || s.worker.Resetting? then 0 else |s.batch|;
            && s.enqueued + |Uncounted(s)| == |s.accepted| == s.flushed + batched + |s.queue|
            && |s.queue| <= c.queueSize && |s.batch| <= c.batchSize
  {
    Reaches(c, actions);
  }

  // ---------- shutdown ----------

  /** `close` is never called twice on either channel. */
  lemma NoDoubleClose(c: Config, actions: seq<Action>)
    requires ValidConfig(c) && Reached(c, actions).Some?
    ensures var s := Reached(c, actions).value;
            && (forall k :: CloserStep(s, k, CloseStop).Some? ==> !s.stopClosed)
            && (WorkerStep(c, s, CloseDone).Some? ==> !s.doneClosed)
  {
    Reaches(c, actions);
  }

  ghost predicate Frozen(c: Config, s: State, t: State) {
    Inv(c, t) && t.stopClosed && t.accepted == s.accepted && |t.queue| <= |s.queue|
  }

  lemma FrozenKept(c: Config, s: State, t: State, a: Action)
    requires ValidConfig(c) && Frozen(c, s, t) && Step(c, t, a).Some?
    ensures Frozen(c, s, Step(c, t, a).value)
  {
    InvKept(c, t, a);
    AcceptedStep(c, t, a);
    StopStays(c, t, a);
    if a.Write? {
      assert a.w in t.writers ==> !PastCheck(t.writers[a.w]);
    }
  }

  lemma StopStays(c: Config, s: State, a: Action)
    requires s.stopClosed && Step(c, s, a).Some?
    ensures Step(c, s, a).value.stopClosed
    ensures !a.Write? ==> |Step(c, s, a).value.queue| <= |s.queue|
  {
    match a {
      case Write(w, act) => assert WriterStep(c, s, w, act).value.stopClosed;
      case Close(k, act) => CloserTouches(s, k, act);
      case Work(act) =>
        WorkerTouches(c, s, act);
        QueueShrinks(c, s, act);
      case Land(i) => assert LandStep(s, i).value.stopClosed;
    }
  }

  lemma QueueShrinks(c: Config, s: State, act: WorkerAct)
    requires WorkerStep(c, s, act).Some?
    ensures |WorkerStep(c, s, act).value.queue| <= |s.queue|
  {
    if act.Receive? {
      ReceiveTouches(c, s);
    } else if SinkCall(act) {
      SinkCallTouches(c, s, act);
    } else {
      MoveTouches(c, s, act);
    }
  }

  /** Once `stop` is closed no call is past the closed check and nothing is accepted any more:
      in every continuation the queue is a suffix of what it was. */
  lemma StopFreezesQueue(c: Config, before: seq<Action>, after: seq<Action>)
    requires ValidConfig(c) && Reached(c, before).Some? && Reached(c, before + after).Some?
    requires Reached(c, before).value.stopClosed
    ensures var s, t := Reached(c, before).value, Reached(c, before + after).value;
            && (forall w :: w in t.writers ==> !PastCheck(t.writers[w]))
            && t.accepted == s.accepted
            && |t.queue| <= |s.queue| && t.queue == s.queue[|s.queue| - |t.queue|..]
  {
    Reaches(c, before);
    RunConcat(Machine(c), Init(), before, after);
    var s := Reached(c, before).value;
    forall t, a | Frozen(c, s, t) && Machine(c)(t, a).Some?
      ensures Frozen(c, s, Machine(c)(t, a).value)
    {
      FrozenKept(c, s, t, a);
    }
    RunKeeps(Machine(c), t => Frozen(c, s, t), s, after);
    var t := Reached(c, before + after).value;
    assert s.queue == s.accepted[|s.accepted| - |s.queue|..];
    assert t.queue == t.accepted[|t.accepted| - |t.queue|..];
  }

  /** A `Close` that returns nil has drained: nothing is left anywhere, the counters agree, and
      every event whose `Write` returned nil is in the sink. */
  lemma CloseDrains(c: Config, actions: seq<Action>)
    requires ValidConfig(c) && Reached(c, actions).Some?
    ensures var s := Reached(c, actions).value;
            && ((exists k :: k in s.closers && s.closers[k] == Closed(true)) ==> s.doneClosed)
            && (s.doneClosed ==>
                  && s.queue == [] && s.batch == []
                  && s.enqueued == s.flushed == |s.accepted|
                  && FirstOccurrences(s.sink) == s.accepted
                  && (AllOrNothing(c) ==> s.sink == s.accepted)
                  && forall w :: w in s.writers && s.writers[w].Returned? && s.writers[w].result == Accepted ==>
                       Entry(w, s.writers[w].event) in s.sink)
  {
    Reaches(c, actions);
    var s := Reached(c, actions).value;
    if s.doneClosed {
      assert Uncounted(s) == {};
      FirstOccurrencesElements(s.sink);
      assert FirstOccurrences(s.sink) == s.accepted;
    }
  }

  // ---------- the drain ends ----------

  function CallerRank(caller: Caller): nat {
    match caller
    case Main => 3
    case Drain => 2
    case Exit => 1
  }

  /** An upper bound on the worker's remaining actions, idle ticks and failed sink calls apart. */
  function Remaining(s: State): int {
    match s.worker
    case Selecting => 8 * |s.queue| + 7 * |s.batch| + 3
    case Draining => 8 * |s.queue| + 7 * |s.batch| + 2
    case Attempting(next, caller) => 8 * |s.queue| + 7 * |s.batch| - 1 - next + CallerRank(caller)
    case CountingFlushed(caller) => 8 * |s.queue| + 3 + CallerRank(caller)
    case CountingBatch(caller) => 8 * |s.queue| + 2 + CallerRank(caller)
    case Resetting(caller) => 8 * |s.queue| + 1 + CallerRank(caller)
    case Exiting => 1
    case Exited => 0
  }

  predicate FailedCall(a: Action) {
    a.Work? && SinkCall(a.act) && !a.act.ok
  }

  predicate Progress(a: Action) {
    a.Work? && !a.act.Tick? && !FailedCall(a)
  }

  function Count(p: Action -> bool, actions: seq<Action>): nat {
    if |actions| == 0 then 0
    else Count(p, actions[..|actions| - 1]) + if p(actions[|actions| - 1]) then 1 else 0
  }

  /** What an action can add to `Remaining`. */
  function Cost(c: Config): Action -> int {
    a => (if FailedCall(a) then c.batchSize else 0) - (if Progress(a) then 1 else 0)
  }

  lemma {:induction false} TotalCost(c: Config, actions: seq<Action>)
    ensures Total(Cost(c), actions) == c.batchSize * Count(FailedCall, actions) - Count(Progress, actions)
    decreases |actions|
  {
    if |actions| == 0 {
    } else {
      var n := |actions| - 1;
      TotalCost(c, actions[..n]);
      Distribute(c.batchSize, Count(FailedCall, actions[..n]), if FailedCall(actions[n]) then 1 else 0);
    }
  }

  lemma Distribute(a: nat, m: nat, n: nat)
    ensures a * (m + n) == a * m + a * n
  {
  }

  lemma RemainingWorkerStep(c: Config, s: State, act: WorkerAct)
    requires WorkerInv(c, s) && WorkerStep(c, s, act).Some?
    ensures Remaining(WorkerStep(c, s, act).value) <= Remaining(s) + Cost(c)(Work(act))
  {
    if act.Receive? {
      ReceiveTouches(c, s);
    } else if SinkCall(act) {
      SinkCallTouches(c, s, act);
    } else {
      RemainingMove(c, s, act);
    }
  }

  lemma RemainingMove(c: Config, s: State, act: WorkerAct)
    requires WorkerInv(c, s) && WorkerStep(c, s, act).Some? && !act.Receive? && !SinkCall(act)
    ensures Remaining(WorkerStep(c, s, act).value) <= Remaining(s) + Cost(c)(Work(act))
  {
  }

  lemma RemainingElsewhere(s: State, t: State)
    requires t.queue == s.queue && t.batch == s.batch && t.worker == s.worker
    ensures Remaining(t) == Remaining(s)
  {
  }

  lemma RemainingStep(c: Config, s: State, a: Action)
    requires WorkerInv(c, s) && CloseInv(s) && s.stopClosed && Step(c, s, a).Some?
    ensures Remaining(Step(c, s, a).value) <= Remaining(s) + Cost(c)(a)
  {
    match a {
      case Write(w, act) =>
        OnlyPastCheckSends(c, s, w, act);
        WriterTouches(c, s, w, act);
        RemainingElsewhere(s, WriterStep(c, s, w, act).value);
      case Close(k, act) =>
        CloserTouches(s, k, act);
        RemainingElsewhere(s, CloserStep(s, k, act).value);
      case Work(act) =>
        RemainingWorkerStep(c, s, act);
      case Land(i) =>
        RemainingElsewhere(s, LandStep(s, i).value);
    }
  }

  lemma RemainingIsNat(c: Config, s: State)
    requires WorkerInv(c, s)
    ensures Remaining(s) >= 0
    ensures Remaining(s) == 0 ==> s.doneClosed
  {
  }

  ghost predicate Stopping(c: Config, s: State) {
    Inv(c, s) && s.stopClosed
  }

  lemma StoppingStep(c: Config, s: State, a: Action)
    requires ValidConfig(c) && Stopping(c, s) && Step(c, s, a).Some?
    ensures var t := Step(c, s, a).value;
            && Stopping(c, t) && Remaining(t) >= 0
            && Remaining(t) <= Remaining(s) + Cost(c)(a)
  {
    InvKept(c, s, a);
    StopStays(c, s, a);
    RemainingStep(c, s, a);
    RemainingIsNat(c, Step(c, s, a).value);
  }

  /** After `stop` is closed the worker's progress is bounded: each failed sink call can cost at
      most one batch of repeated writes, and nothing any other call does adds work. */
  lemma DrainBound(c: Config, s: State, actions: seq<Action>)
    requires ValidConfig(c) && Stopping(c, s) && Run(Machine(c), s, actions).Some?
    ensures var t := Run(Machine(c), s, actions).value;
            && Stopping(c, t) && Remaining(t) >= 0
            && Count(Progress, actions) + Remaining(t) <= Remaining(s) + c.batchSize * Count(FailedCall, actions)
  {
    forall t, a | Stopping(c, t) && Machine(c)(t, a).Some?
      ensures Stopping(c, Machine(c)(t, a).value)
      ensures Remaining(Machine(c)(t, a).value) <= Remaining(t) + Cost(c)(a)
    {
      StoppingStep(c, t, a);
    }
    RunPotential(Machine(c), t => Stopping(c, t), Remaining, Cost(c), s, actions);
    TotalCost(c, actions);
    RemainingIsNat(c, Run(Machine(c), s, actions).value);
  }

  /** The worker action that brings the drain forward. */
  function NextAct(c: Config, s: State): WorkerAct {
    match s.worker
    case Selecting => SeeStop
    case Draining => if |s.queue| > 0 then Receive else QueueEmpty
    case Attempting(next, _) =>
      if c.batchWriter then SinkBatch(true, true)
      else if next < |s.batch| then SinkWrite(true, true) else LoopDone
    case CountingFlushed(_) => AddFlushed
    case CountingBatch(_) => AddBatch
    case Resetting(_) => ResetBatch
    case _ => CloseDone
  }

  lemma NextActEnabled(c: Config, s: State)
    requires Stopping(c, s) && !s.doneClosed
    ensures WorkerStep(c, s, NextAct(c, s)).Some? && Progress(Work(NextAct(c, s)))
  {
  }

  /** The drain advances by one action. */
  lemma DrainAdvances(c: Config, s: State) returns (a: Action, t: State)
    requires ValidConfig(c) && Stopping(c, s) && !s.doneClosed
    ensures Run(Machine(c), s, [a]) == Some(t) && Progress(a)
    ensures Stopping(c, t) && 0 <= Remaining(t) < Remaining(s)
  {
    NextActEnabled(c, s);
    a := Work(NextAct(c, s));
    t := Step(c, s, a).value;
    StoppingStep(c, s, a);
    RunSnoc(Machine(c), s, [], a);
    assert [] + [a] == [a];
  }

  /** No deadlock on shutdown: from any reachable state with `stop` closed the worker, given a
      sink that answers, closes `done` by its own actions alone, within the bound. */
  lemma {:induction false} DrainCompletes(c: Config, s: State) returns (actions: seq<Action>)
    requires ValidConfig(c) && Stopping(c, s)
    ensures Run(Machine(c), s, actions).Some? && Run(Machine(c), s, actions).value.doneClosed
    ensures |actions| <= Remaining(s) && forall a :: a in actions ==> Progress(a)
    decreases Remaining(s)
  {
    RemainingIsNat(c, s);
    if s.doneClosed {
      actions := [];
    } else {
      var a, t := DrainAdvances(c, s);
      var rest := DrainCompletes(c, t);
      RunConcat(Machine(c), s, [a], rest);
      actions := [a] + rest;
    }
  }
}
