/** The asynchronous audit repository as a transition system: any number of `Write`
    and `Close` calls, and the one worker goroutine, interleaved action by action. */
module AsyncModel {
  import opened Machines

  datatype Event = Event(requestID: string, decision: string, riskScore: int)

  /** An event in the channel, the batch or the sink. `call` names the `Write` call that
      carries the event, so equal events of different calls stay apart. */
  datatype Entry = Entry(call: nat, event: Event)

  /** `batchWriter`: the repository has its own WriteBatch, which stores all or nothing;
      otherwise writeBatch falls back to one Write per event.
      `honestErrors`: a sink call that reports an error has stored nothing and never will. */
  datatype Config = Config(queueSize: nat, batchSize: nat, batchWriter: bool, honestErrors: bool)

  predicate ValidConfig(c: Config) {
    c.queueSize > 0 && c.batchSize > 0
  }

  datatype WriteResult = Accepted | ErrAsyncClosed | ErrContext

  /** Where a `Write` call stands. The call holds the read lock from `RLocked` up to and
      including `Deferred`. */
  datatype Writer =
    | WantsRLock(event: Event)
    | RLocked(event: Event)                        // before the closed check
    | Open(event: Event)                           // before the non-blocking select
    | Full(event: Event)                           // default case taken, before saturated.Add
    | Blocking(event: Event)                       // in the second select
    | Sent(event: Event)                           // in the channel, before enqueued.Add
    | Deferred(event: Event, result: WriteResult)  // before the deferred RUnlock
    | Returned(event: Event, result: WriteResult)

  /** Where a `Close` call stands. It holds the write lock in `Locked`, `Marked` and `Unlocking`. */
  datatype Closer = WantsLock | Locked | Marked | Unlocking | Waiting | Closed(drained: bool)

  /** Where `flush` returns to. */
  datatype Caller = Main | Drain | Exit

  /** Where the worker stands. In `Attempting` it is inside `writeBatch`, and the
      fallback loop has written `next` events of the batch in this attempt. */
  datatype Worker =
    | Selecting
    | Draining
    | Attempting(next: nat, caller: Caller)
    | CountingFlushed(caller: Caller)
    | CountingBatch(caller: Caller)
    | Resetting(caller: Caller)
    | Exiting
    | Exited

  /** `late` are the segments that sink calls were given which reported an error, had stored nothing
      by then, and may yet store it. `accepted` is history: every entry that entered the channel, in
      send order. */
  datatype State = State(
    queue: seq<Entry>, batch: seq<Entry>, sink: seq<Entry>, late: seq<seq<Entry>>,
    closed: bool, stopClosed: bool, doneClosed: bool,
    enqueued: nat, flushed: nat, saturated: nat, batchesWritten: nat,
    writers: map<nat, Writer>, closers: map<nat, Closer>, worker: Worker,
    accepted: seq<Entry>)

  function Init(): State {
    State([], [], [], [], false, false, false, 0, 0, 0, 0, map[], map[], Selecting, [])
  }

  datatype WriterAct =
    | Begin(event: Event) | RLock | CheckClosed | FastSend | FastFull | CountSaturated
    | SlowSend | ContextDone | CountEnqueued | RUnlock

  datatype CloserAct = BeginClose | Lock | MarkClosed | CloseStop | Unlock | SeeDone | GiveUp

  /** `SinkBatch` is one call of the sink's own WriteBatch, `SinkWrite` one Write of the
      fallback loop; `stored` says whether the sink kept the data, `ok` what it reported. */
  datatype WorkerAct =
    | Receive | Tick | SeeStop | QueueEmpty
    | SinkBatch(stored: bool, ok: bool) | SinkWrite(stored: bool, ok: bool) | LoopDone
    | AddFlushed | AddBatch | ResetBatch | CloseDone

  datatype Action =
    | Write(w: nat, wact: WriterAct)
    | Close(k: nat, kact: CloserAct)
    | Work(act: WorkerAct)
    | Land(i: nat)  // the sink takes in a late segment

  predicate HoldsRead(p: Writer) {
    !p.WantsRLock? && !p.Returned?
  }

  predicate HoldsWrite(p: Closer) {
    p.Locked? || p.Marked? || p.Unlocking?
  }

  predicate WriteLocked(s: State) {
    exists k :: k in s.closers && HoldsWrite(s.closers[k])
  }

  predicate ReadLocked(s: State) {
    exists w :: w in s.writers && HoldsRead(s.writers[w])
  }

  function AtWriter(s: State, w: nat, p: Writer): State {
    s.(writers := s.writers[w := p])
  }

  function AtCloser(s: State, k: nat, p: Closer): State {
    s.(closers := s.closers[k := p])
  }

  /** The channel send: the entry joins the queue and the history. */
  function Send(s: State, w: nat, e: Event): State {
    var entry := Entry(w, e);
    AtWriter(s, w, Sent(e)).(queue := s.queue + [entry], accepted := s.accepted + [entry])
  }

  function WriterStep(c: Config, s: State, w: nat, a: WriterAct): Option<State> {
    if w !in s.writers then
      if a.Begin? then Some(AtWriter(s, w, WantsRLock(a.event))) else None
    else
      var p := s.writers[w];
      match a
      case Begin(_) => None
      case RLock =>
        if p.WantsRLock? && !WriteLocked(s) then Some(AtWriter(s, w, RLocked(p.event))) else None
      case CheckClosed =>
        if !p.RLocked? then None
        else Some(AtWriter(s, w, if s.closed then Deferred(p.event, ErrAsyncClosed) else Open(p.event)))
      case FastSend =>
        if p.Open? && |s.queue| < c.queueSize then Some(Send(s, w, p.event)) else None
      case FastFull =>
        if p.Open? && |s.queue| >= c.queueSize then Some(AtWriter(s, w, Full(p.event))) else None
      case CountSaturated =>
        if p.Full? then Some(AtWriter(s, w, Blocking(p.event)).(saturated := s.saturated + 1)) else None
      case SlowSend =>
        if p.Blocking? && |s.queue| < c.queueSize then Some(Send(s, w, p.event)) else None
      case ContextDone =>
        if p.Blocking? then Some(AtWriter(s, w, Deferred(p.event, ErrContext))) else None
      case CountEnqueued =>
        if p.Sent? then Some(AtWriter(s, w, Deferred(p.event, Accepted)).(enqueued := s.enqueued + 1)) else None
      case RUnlock =>
        if p.Deferred? then Some(AtWriter(s, w, Returned(p.event, p.result))) else None
  }

  function CloserStep(s: State, k: nat, a: CloserAct): Option<State> {
    if k !in s.closers then
      if a.BeginClose? then Some(AtCloser(s, k, WantsLock)) else None
    else
      match (s.closers[k], a)
      case (WantsLock, Lock) =>
        if WriteLocked(s) || ReadLocked(s) then None else Some(AtCloser(s, k, Locked))
      case (Locked, MarkClosed) =>
        if s.closed then Some(AtCloser(s, k, Unlocking))
        else Some(AtCloser(s, k, Marked).(closed := true))
      case (Marked, CloseStop) =>
        Some(AtCloser(s, k, Unlocking).(stopClosed := true))
      case (Unlocking, Unlock) =>
        Some(AtCloser(s, k, Waiting))
      case (Waiting, SeeDone) =>
        if s.doneClosed then Some(AtCloser(s, k, Closed(true))) else None
      case (Waiting, GiveUp) =>
        Some(AtCloser(s, k, Closed(false)))
      case _ => None
  }

  function Resume(caller: Caller): Worker {
    match caller
    case Main => Selecting
    case Drain => Draining
    case Exit => Exiting
  }

  /** `flush()`: nothing to do on an empty batch, otherwise the first write attempt. */
  function Flush(s: State, caller: Caller): State {
    s.(worker := if |s.batch| == 0 then Resume(caller) else Attempting(0, caller))
  }

  /** A sink call's effect on what it was given: stored at once, or possibly later, or never. */
  function Hand(c: Config, s: State, segment: seq<Entry>, stored: bool): State {
    if stored then s.(sink := s.sink + segment)
    else if c.honestErrors then s
    else s.(late := s.late + [segment])
  }

  /** One event moves from the channel to the batch; a full batch is flushed at once. */
  function Take(c: Config, s: State, caller: Caller): State
    requires |s.queue| > 0
  {
    var t := s.(queue := s.queue[1..], batch := s.batch + [s.queue[0]]);
    if |t.batch| >= c.batchSize then Flush(t, caller) else t
  }

  /** Whether a sink call can have this outcome. */
  predicate Possible(c: Config, stored: bool, ok: bool) {
    (ok ==> stored) && (c.honestErrors && stored ==> ok)
  }

  /** One call of the sink's own WriteBatch. */
  function BatchCall(c: Config, s: State, stored: bool, ok: bool): Option<State>
    requires s.worker.Attempting?
  {
    if !c.batchWriter || !Possible(c, stored, ok) then None
    else
      var caller := s.worker.caller;
      Some(Hand(c, s, s.batch, stored).(worker := if ok then CountingFlushed(caller) else Attempting(0, caller)))
  }

  /** One Write of the fallback loop: a failure ends the attempt. */
  function OneCall(c: Config, s: State, stored: bool, ok: bool): Option<State>
    requires s.worker.Attempting?
  {
    var next := s.worker.next;
    if c.batchWriter || next >= |s.batch| || !Possible(c, stored, ok) then None
    else
      Some(Hand(c, s, [s.batch[next]], stored).(worker := Attempting(if ok then next + 1 else 0, s.worker.caller)))
  }

  function WorkerStep(c: Config, s: State, a: WorkerAct): Option<State> {
    match a
    case Receive =>
      if |s.queue| == 0 then None
      else if s.worker.Selecting? then Some(Take(c, s, Main))
      else if s.worker.Draining? then Some(Take(c, s, Drain))
      else None
    case Tick =>
      if s.worker.Selecting? then Some(Flush(s, Main)) else None
    case SeeStop =>
      if s.worker.Selecting? && s.stopClosed then Some(s.(worker := Draining)) else None
    case QueueEmpty =>
      if s.worker.Draining? && |s.queue| == 0 then Some(Flush(s, Exit)) else None
    case SinkBatch(stored, ok) =>
      if s.worker.Attempting? then BatchCall(c, s, stored, ok) else None
    case SinkWrite(stored, ok) =>
      if s.worker.Attempting? then OneCall(c, s, stored, ok) else None
    case LoopDone =>
      if s.worker.Attempting? && !c.batchWriter && s.worker.next >= |s.batch| then
        Some(s.(worker := CountingFlushed(s.worker.caller)))
      else None
    case AddFlushed =>
      if s.worker.CountingFlushed? then
        Some(s.(flushed := s.flushed + |s.batch|, worker := CountingBatch(s.worker.caller)))
      else None
    case AddBatch =>
      if s.worker.CountingBatch? then
        Some(s.(batchesWritten := s.batchesWritten + 1, worker := Resetting(s.worker.caller)))
      else None
    case ResetBatch =>
      if s.worker.Resetting? then Some(s.(batch := [], worker := Resume(s.worker.caller))) else None
    case CloseDone =>
      if s.worker.Exiting? then Some(s.(doneClosed := true, worker := Exited)) else None
  }

  /** A late segment reaches the sink. */
  function LandStep(s: State, i: nat): Option<State> {
    if i < |s.late| then Some(s.(sink := s.sink + s.late[i], late := s.late[..i] + s.late[i + 1..])) else None
  }

  function Step(c: Config, s: State, a: Action): Option<State> {
    match a
    case Write(w, act) => WriterStep(c, s, w, act)
    case Close(k, act) => CloserStep(s, k, act)
    case Work(act) => WorkerStep(c, s, act)
    case Land(i) => LandStep(s, i)
  }

  function Machine(c: Config): (State, Action) -> Option<State> {
    (s, a) => Step(c, s, a)
  }

  /** The state after `actions` from the start. */
  function Reached(c: Config, actions: seq<Action>): Option<State> {
    Run(Machine(c), Init(), actions)
  }
}
