/** What the sink holds, call by call. */
module AsyncShape {
  import opened Machines
  import opened AsyncModel
  import opened AsyncInvariant
  import Theorems = AsyncTheorems

  /** A failed attempt: it stored the first `cut` events of the batch; `kept` says that the call which
      reported the error is among what was stored. */
  datatype Try = Try(cut: nat, kept: bool)

  /** One batch: its failed attempts, after which all of it was written. */
  datatype Round = Round(batch: seq<Entry>, tries: seq<Try>)

  /** A part of the sink: what a call stored before it answered, or a late segment. */
  datatype Piece = OnTime(entries: seq<Entry>) | Late(entries: seq<Entry>)

  /** What a failed attempt can store: any beginning of the batch in the one-by-one loop, all or
      nothing with a batch call; and what reports an error is kept only by a sink without honest errors. */
  predicate PossibleTry(c: Config, n: nat, t: Try) {
    && (c.batchWriter ==> t.cut == if t.kept then n else 0)
    && (!c.batchWriter && t.kept ==> 0 < t.cut <= n)
    && (!c.batchWriter && !t.kept ==> t.cut < n)
    && (c.honestErrors ==> !t.kept)
  }

  ghost predicate Tried(c: Config, batch: seq<Entry>, tries: seq<Try>) {
    forall i :: 0 <= i < |tries| ==> PossibleTry(c, |batch|, tries[i])
  }

  ghost predicate Proper(c: Config, rounds: seq<Round>) {
    forall i :: 0 <= i < |rounds| ==>
      0 < |rounds[i].batch| <= c.batchSize && Tried(c, rounds[i].batch, rounds[i].tries)
  }

  function Leftovers(batch: seq<Entry>, tries: seq<Try>): seq<Entry> {
    if |tries| == 0 then []
    else
      var cut := tries[|tries| - 1].cut;
      Leftovers(batch, tries[..|tries| - 1]) + if cut <= |batch| then batch[..cut] else []
  }

  function Sunk(rounds: seq<Round>): seq<Entry> {
    if |rounds| == 0 then []
    else
      var r := rounds[|rounds| - 1];
      Sunk(rounds[..|rounds| - 1]) + (Leftovers(r.batch, r.tries) + r.batch)
  }

  function Batches(rounds: seq<Round>): seq<Entry> {
    if |rounds| == 0 then [] else Batches(rounds[..|rounds| - 1]) + rounds[|rounds| - 1].batch
  }

  /** What the last call of a failed attempt was given and has not stored: it may land later. */
  function Hanging(c: Config, batch: seq<Entry>, t: Try): seq<seq<Entry>> {
    if t.kept || c.honestErrors then []
    else if c.batchWriter then [batch]
    else if t.cut < |batch| then [[batch[t.cut]]]
    else []
  }

  function AllHanging(c: Config, batch: seq<Entry>, tries: seq<Try>): seq<seq<Entry>> {
    if |tries| == 0 then []
    else AllHanging(c, batch, tries[..|tries| - 1]) + Hanging(c, batch, tries[|tries| - 1])
  }

  function EverHanging(c: Config, rounds: seq<Round>): seq<seq<Entry>> {
    if |rounds| == 0 then []
    else
      var r := rounds[|rounds| - 1];
      EverHanging(c, rounds[..|rounds| - 1]) + AllHanging(c, r.batch, r.tries)
  }

  function Joined(pieces: seq<Piece>): seq<Entry> {
    if |pieces| == 0 then [] else Joined(pieces[..|pieces| - 1]) + pieces[|pieces| - 1].entries
  }

  function OnTimes(pieces: seq<Piece>): seq<Entry> {
    if |pieces| == 0 then []
    else
      var p := pieces[|pieces| - 1];
      OnTimes(pieces[..|pieces| - 1]) + if p.OnTime? then p.entries else []
  }

  function Lates(pieces: seq<Piece>): seq<seq<Entry>> {
    if |pieces| == 0 then []
    else
      var p := pieces[|pieces| - 1];
      Lates(pieces[..|pieces| - 1]) + if p.Late? then [p.entries] else []
  }

  /** What the attempts at the current batch have stored so far. */
  function Current(s: State, tries: seq<Try>): seq<Entry> {
    if s.worker.Attempting? && s.worker.next <= |s.batch| then Leftovers(s.batch, tries) + s.batch[..s.worker.next]
    else []
  }

  /** What was stored on time is round after round, then the leftovers of the current attempts; the
      batches are, one after the other, what has been persisted. */
  ghost predicate InRounds(c: Config, s: State, rounds: seq<Round>, tries: seq<Try>, onTime: seq<Entry>) {
    && Proper(c, rounds) && Tried(c, s.batch, tries) && (!s.worker.Attempting? ==> tries == [])
    && 0 <= Persisted(s) <= |s.accepted| && Batches(rounds) == s.accepted[..Persisted(s)]
    && onTime == Sunk(rounds) + Current(s, tries)
  }

  /** What has landed late and what may yet do so are, each once, what failed calls were given. */
  ghost predicate Accounted(c: Config, s: State, rounds: seq<Round>, tries: seq<Try>, landed: seq<seq<Entry>>) {
    multiset(landed) + multiset(s.late) == multiset(EverHanging(c, rounds)) + multiset(AllHanging(c, s.batch, tries))
  }

  ghost predicate Shape(c: Config, s: State, rounds: seq<Round>, tries: seq<Try>, pieces: seq<Piece>) {
    && s.sink == Joined(pieces)
    && InRounds(c, s, rounds, tries, OnTimes(pieces))
    && Accounted(c, s, rounds, tries, Lates(pieces))
  }

  // ---------- one more ----------

  lemma LeftoversSnoc(c: Config, batch: seq<Entry>, tries: seq<Try>, t: Try)
    requires t.cut <= |batch|
    ensures Leftovers(batch, tries + [t]) == Leftovers(batch, tries) + batch[..t.cut]
    ensures AllHanging(c, batch, tries + [t]) == AllHanging(c, batch, tries) + Hanging(c, batch, t)
  {
    assert (tries + [t])[..|tries|] == tries;
  }

  lemma RoundsSnoc(c: Config, rounds: seq<Round>, r: Round)
    ensures Sunk(rounds + [r]) == Sunk(rounds) + (Leftovers(r.batch, r.tries) + r.batch)
    ensures Batches(rounds + [r]) == Batches(rounds) + r.batch
    ensures EverHanging(c, rounds + [r]) == EverHanging(c, rounds) + AllHanging(c, r.batch, r.tries)
  {
    assert (rounds + [r])[..|rounds|] == rounds;
  }

  lemma PiecesSnoc(pieces: seq<Piece>, p: Piece)
    ensures Joined(pieces + [p]) == Joined(pieces) + p.entries
    ensures OnTimes(pieces + [p]) == if p.OnTime? then OnTimes(pieces) + p.entries else OnTimes(pieces)
    ensures Lates(pieces + [p]) == if p.Late? then Lates(pieces) + [p.entries] else Lates(pieces)
  {
    assert (pieces + [p])[..|pieces|] == pieces;
    assert OnTimes(pieces) + [] == OnTimes(pieces) && Lates(pieces) + [] == Lates(pieces);
  }

  // ---------- the rounds, step by step ----------

  /** A step that stores nothing and finishes no batch. */
  lemma RoundsIdle(c: Config, s: State, t: State, rounds: seq<Round>, tries: seq<Try>, onTime: seq<Entry>)
    requires InRounds(c, s, rounds, tries, onTime) && s.accepted <= t.accepted && Persisted(t) == Persisted(s)
    requires SameAttempt(s, t)
    ensures InRounds(c, t, rounds, tries, onTime)
  {
    assert t.accepted[..Persisted(t)] == s.accepted[..Persisted(s)];
  }

  /** The attempt in progress, if any, stays where it is, or a new one begins. */
  predicate SameAttempt(s: State, t: State) {
    || (t.worker.Attempting? && t.worker == s.worker && t.batch == s.batch)
    || (!s.worker.Attempting? && (t.worker.Attempting? ==> t.worker.next == 0))
  }

  /** A failed attempt. */
  lemma RoundsFailed(c: Config, s: State, t: State, rounds: seq<Round>, tries: seq<Try>, onTime: seq<Entry>,
                     failed: Try)
    requires InRounds(c, s, rounds, tries, onTime) && s.worker.Attempting? && s.worker.next <= failed.cut <= |s.batch|
    requires PossibleTry(c, |s.batch|, failed)
    requires t == s.(sink := t.sink, late := t.late, worker := Attempting(0, s.worker.caller))
    ensures InRounds(c, t, rounds, tries + [failed], onTime + s.batch[s.worker.next..failed.cut])
  {
    LeftoversSnoc(c, s.batch, tries, failed);
    Cut(Sunk(rounds), Leftovers(s.batch, tries), s.batch, s.worker.next, failed.cut);
    assert Persisted(t) == Persisted(s) && Tried(c, t.batch, tries + [failed]);
    assert Current(t, tries + [failed]) == Leftovers(s.batch, tries) + s.batch[..failed.cut] + [];
  }

  lemma Cut(sunk: seq<Entry>, left: seq<Entry>, batch: seq<Entry>, n: nat, cut: nat)
    requires n <= cut <= |batch|
    ensures sunk + (left + batch[..n]) + batch[n..cut] == sunk + (left + batch[..cut] + [])
  {
    assert batch[..n] + batch[n..cut] == batch[..cut];
  }

  /** The batch is written in full. */
  lemma RoundsWritten(c: Config, s: State, t: State, rounds: seq<Round>, tries: seq<Try>, onTime: seq<Entry>)
    requires InRounds(c, s, rounds, tries, onTime) && FlowInv(c, s) && WorkerInv(c, s) && s.worker.Attempting?
    requires t == s.(sink := t.sink, worker := t.worker) && BatchStored(t)
    ensures InRounds(c, t, rounds + [Round(s.batch, tries)], [], onTime + s.batch[s.worker.next..])
  {
    RoundsSnoc(c, rounds, Round(s.batch, tries));
    ProperSnoc(c, rounds, Round(s.batch, tries));
    BatchPersisted(c, s, t);
    Completed(Sunk(rounds), Leftovers(s.batch, tries), s.batch, s.worker.next);
    assert Current(t, []) == [] && Tried(c, t.batch, []);
  }

  lemma ProperSnoc(c: Config, rounds: seq<Round>, r: Round)
    requires Proper(c, rounds) && 0 < |r.batch| <= c.batchSize && Tried(c, r.batch, r.tries)
    ensures Proper(c, rounds + [r])
  {
  }

  lemma BatchPersisted(c: Config, s: State, t: State)
    requires FlowInv(c, s) && s.worker.Attempting? && t == s.(sink := t.sink, worker := t.worker) && BatchStored(t)
    ensures Persisted(s) == Base(s) && Persisted(t) == Base(s) + |s.batch| <= |s.accepted|
    ensures t.accepted[..Persisted(t)] == s.accepted[..Persisted(s)] + s.batch
  {
  }

  lemma Completed(sunk: seq<Entry>, left: seq<Entry>, batch: seq<Entry>, n: nat)
    requires n <= |batch|
    ensures sunk + (left + batch[..n]) + batch[n..] == sunk + (left + batch) + []
  {
    assert batch[..n] + batch[n..] == batch;
  }

  /** One more event of the one-by-one loop. */
  lemma RoundsGrow(c: Config, s: State, t: State, rounds: seq<Round>, tries: seq<Try>, onTime: seq<Entry>)
    requires InRounds(c, s, rounds, tries, onTime) && s.worker.Attempting? && s.worker.next < |s.batch|
    requires t == s.(sink := t.sink, worker := Attempting(s.worker.next + 1, s.worker.caller))
    ensures InRounds(c, t, rounds, tries, onTime + [s.batch[s.worker.next]])
  {
    assert s.batch[..s.worker.next] + [s.batch[s.worker.next]] == s.batch[..s.worker.next + 1];
  }

  // ---------- the late segments, step by step ----------

  lemma FailureAccounted(c: Config, s: State, t: State, rounds: seq<Round>, tries: seq<Try>, landed: seq<seq<Entry>>,
                         failed: Try)
    requires Accounted(c, s, rounds, tries, landed) && failed.cut <= |s.batch|
    requires t.batch == s.batch && t.late == s.late + Hanging(c, s.batch, failed)
    ensures Accounted(c, t, rounds, tries + [failed], landed)
  {
    LeftoversSnoc(c, s.batch, tries, failed);
    MultisetConcat(s.late, Hanging(c, s.batch, failed));
    MultisetConcat(AllHanging(c, s.batch, tries), Hanging(c, s.batch, failed));
    BothGain(multiset(landed), multiset(s.late), multiset(EverHanging(c, rounds)),
             multiset(AllHanging(c, s.batch, tries)), multiset(Hanging(c, s.batch, failed)));
  }

  lemma BothGain(a: multiset<seq<Entry>>, b: multiset<seq<Entry>>, x: multiset<seq<Entry>>, y: multiset<seq<Entry>>,
                 more: multiset<seq<Entry>>)
    requires a + b == x + y
    ensures a + (b + more) == x + (y + more)
  {
    assert a + (b + more) == (a + b) + more;
    assert x + (y + more) == (x + y) + more;
  }

  lemma MultisetConcat(x: seq<seq<Entry>>, y: seq<seq<Entry>>)
    ensures multiset(x + y) == multiset(x) + multiset(y)
  {
  }

  lemma BatchAccounted(c: Config, s: State, t: State, rounds: seq<Round>, tries: seq<Try>, landed: seq<seq<Entry>>)
    requires Accounted(c, s, rounds, tries, landed) && t.late == s.late
    ensures Accounted(c, t, rounds + [Round(s.batch, tries)], [], landed)
  {
    RoundsSnoc(c, rounds, Round(s.batch, tries));
    MultisetConcat(EverHanging(c, rounds), AllHanging(c, s.batch, tries));
  }

  lemma LandingAccounted(c: Config, s: State, t: State, i: nat, rounds: seq<Round>, tries: seq<Try>,
                         landed: seq<seq<Entry>>)
    requires Accounted(c, s, rounds, tries, landed) && LandStep(s, i) == Some(t)
    ensures Accounted(c, t, rounds, tries, landed + [s.late[i]])
  {
    var rest := s.late[..i] + s.late[i + 1..];
    MultisetWithout(s.late, i);
    MultisetConcat(landed, [s.late[i]]);
    assert multiset(landed + [s.late[i]]) + multiset(rest) == multiset(landed) + (multiset(rest) + multiset{s.late[i]});
  }

  lemma MultisetWithout(x: seq<seq<Entry>>, i: nat)
    requires i < |x|
    ensures multiset(x) == multiset(x[..i] + x[i + 1..]) + multiset{x[i]}
  {
    assert x == x[..i] + [x[i]] + x[i + 1..];
  }

  // ---------- steps ----------

  lemma ShapeIdle(c: Config, s: State, t: State, rounds: seq<Round>, tries: seq<Try>, pieces: seq<Piece>)
    requires Shape(c, s, rounds, tries, pieces) && t.sink == s.sink && t.late == s.late
    requires s.accepted <= t.accepted && Persisted(t) == Persisted(s) && SameAttempt(s, t)
    ensures Shape(c, t, rounds, tries, pieces)
  {
    RoundsIdle(c, s, t, rounds, tries, OnTimes(pieces));
  }

  lemma ShapeFailed(c: Config, s: State, t: State, rounds: seq<Round>, tries: seq<Try>, pieces: seq<Piece>, failed: Try)
    requires Shape(c, s, rounds, tries, pieces) && s.worker.Attempting? && s.worker.next <= failed.cut <= |s.batch|
    requires PossibleTry(c, |s.batch|, failed)
    requires t == s.(sink := s.sink + s.batch[s.worker.next..failed.cut],
            late := s.late + Hanging(c, s.batch, failed), worker := Attempting(0, s.worker.caller))
    ensures Shape(c, t, rounds, tries + [failed], pieces + [OnTime(s.batch[s.worker.next..failed.cut])])
  {
    PiecesSnoc(pieces, OnTime(s.batch[s.worker.next..failed.cut]));
    RoundsFailed(c, s, t, rounds, tries, OnTimes(pieces), failed);
    FailureAccounted(c, s, t, rounds, tries, Lates(pieces), failed);
  }

  lemma ShapeWritten(c: Config, s: State, t: State, rounds: seq<Round>, tries: seq<Try>, pieces: seq<Piece>)
    requires Shape(c, s, rounds, tries, pieces) && FlowInv(c, s) && WorkerInv(c, s) && s.worker.Attempting?
    requires t == s.(sink := s.sink + s.batch[s.worker.next..], worker := t.worker) && BatchStored(t)
    ensures Shape(c, t, rounds + [Round(s.batch, tries)], [], pieces + [OnTime(s.batch[s.worker.next..])])
  {
    PiecesSnoc(pieces, OnTime(s.batch[s.worker.next..]));
    RoundsWritten(c, s, t, rounds, tries, OnTimes(pieces));
    BatchAccounted(c, s, t, rounds, tries, Lates(pieces));
  }

  lemma ShapeGrows(c: Config, s: State, t: State, rounds: seq<Round>, tries: seq<Try>, pieces: seq<Piece>)
    requires Shape(c, s, rounds, tries, pieces) && s.worker.Attempting? && s.worker.next < |s.batch|
    requires t == s.(sink := s.sink + [s.batch[s.worker.next]],
            worker := Attempting(s.worker.next + 1, s.worker.caller))
    ensures Shape(c, t, rounds, tries, pieces + [OnTime([s.batch[s.worker.next]])])
  {
    PiecesSnoc(pieces, OnTime([s.batch[s.worker.next]]));
    RoundsGrow(c, s, t, rounds, tries, OnTimes(pieces));
  }

  lemma ShapeLands(c: Config, s: State, t: State, i: nat, rounds: seq<Round>, tries: seq<Try>, pieces: seq<Piece>)
    requires Shape(c, s, rounds, tries, pieces) && LandStep(s, i) == Some(t)
    ensures Shape(c, t, rounds, tries, pieces + [Late(s.late[i])])
  {
    PiecesSnoc(pieces, Late(s.late[i]));
    RoundsIdle(c, s, t, rounds, tries, OnTimes(pieces));
    LandingAccounted(c, s, t, i, rounds, tries, Lates(pieces));
  }

  /** A call of the sink that succeeds. */
  lemma ShapeTaken(c: Config, s: State, act: WorkerAct, rounds: seq<Round>, tries: seq<Try>, pieces: seq<Piece>)
    returns (rounds': seq<Round>, tries': seq<Try>, pieces': seq<Piece>)
    requires FlowInv(c, s) && WorkerInv(c, s) && Shape(c, s, rounds, tries, pieces)
    requires SinkCall(act) && act.ok && WorkerStep(c, s, act).Some?
    ensures Shape(c, WorkerStep(c, s, act).value, rounds', tries', pieces')
  {
    var t := WorkerStep(c, s, act).value;
    SinkCallTouches(c, s, act);
    SinkCallHands(c, s, act);
    if act.SinkBatch? {
      assert s.worker.next == 0 && s.batch[0..] == s.batch;
      ShapeWritten(c, s, t, rounds, tries, pieces);
      rounds', tries', pieces' := rounds + [Round(s.batch, tries)], [], pieces + [OnTime(s.batch[s.worker.next..])];
    } else {
      ShapeGrows(c, s, t, rounds, tries, pieces);
      rounds', tries', pieces' := rounds, tries, pieces + [OnTime([s.batch[s.worker.next]])];
    }
  }

  /** The attempt that a failing call ends. */
  function Failed(s: State, act: WorkerAct): Try
    requires s.worker.Attempting? && SinkCall(act)
  {
    if act.SinkBatch? then Try(if act.stored then |s.batch| else 0, act.stored)
    else Try(s.worker.next + if act.stored then 1 else 0, act.stored)
  }

  /** What it stores and what it leaves to land. */
  lemma FailedCall(c: Config, s: State, act: WorkerAct)
    requires WorkerInv(c, s) && SinkCall(act) && !act.ok && WorkerStep(c, s, act).Some?
    ensures s.worker.Attempting?
    ensures var t, failed := WorkerStep(c, s, act).value, Failed(s, act);
            && s.worker.next <= failed.cut <= |s.batch| && PossibleTry(c, |s.batch|, failed)
            && t == s.(sink := s.sink + s.batch[s.worker.next..failed.cut],
                       late := s.late + Hanging(c, s.batch, failed), worker := Attempting(0, s.worker.caller))
  {
    SinkCallTouches(c, s, act);
    SinkCallHands(c, s, act);
    if act.SinkBatch? {
      BatchFails(c, s, act);
    } else {
      WriteFails(c, s, act);
    }
    assert s.sink + [] == s.sink && s.late + [] == s.late;
  }

  lemma BatchFails(c: Config, s: State, act: WorkerAct)
    requires act.SinkBatch? && !act.ok && Possible(c, act.stored, act.ok)
    requires WorkerInv(c, s) && s.worker.Attempting? && c.batchWriter
    ensures s.worker.next == 0 && PossibleTry(c, |s.batch|, Failed(s, act))
    ensures s.batch[0..Failed(s, act).cut] == if act.stored then Given(s, act) else []
    ensures Hanging(c, s.batch, Failed(s, act)) == if act.stored || c.honestErrors then [] else [Given(s, act)]
  {
  }

  lemma WriteFails(c: Config, s: State, act: WorkerAct)
    requires act.SinkWrite? && !act.ok && Possible(c, act.stored, act.ok)
    requires s.worker.Attempting? && s.worker.next < |s.batch| && !c.batchWriter
    ensures PossibleTry(c, |s.batch|, Failed(s, act)) && s.worker.next <= Failed(s, act).cut <= |s.batch|
    ensures s.batch[s.worker.next..Failed(s, act).cut] == if act.stored then Given(s, act) else []
    ensures Hanging(c, s.batch, Failed(s, act)) == if act.stored || c.honestErrors then [] else [Given(s, act)]
  {
  }

  lemma ShapeSink(c: Config, s: State, act: WorkerAct, rounds: seq<Round>, tries: seq<Try>, pieces: seq<Piece>)
    returns (rounds': seq<Round>, tries': seq<Try>, pieces': seq<Piece>)
    requires FlowInv(c, s) && WorkerInv(c, s) && Shape(c, s, rounds, tries, pieces)
    requires SinkCall(act) && WorkerStep(c, s, act).Some?
    ensures Shape(c, WorkerStep(c, s, act).value, rounds', tries', pieces')
  {
    if act.ok {
      rounds', tries', pieces' := ShapeTaken(c, s, act, rounds, tries, pieces);
    } else {
      FailedCall(c, s, act);
      var failed := Failed(s, act);
      ShapeFailed(c, s, WorkerStep(c, s, act).value, rounds, tries, pieces, failed);
      rounds', tries' := rounds, tries + [failed];
      pieces' := pieces + [OnTime(s.batch[s.worker.next..failed.cut])];
    }
  }

  /** The one-by-one loop ends. */
  lemma LoopDoneTouches(c: Config, s: State)
    requires WorkerInv(c, s) && WorkerStep(c, s, LoopDone).Some?
    ensures var t := WorkerStep(c, s, LoopDone).value;
            && s.worker.Attempting? && BatchStored(t)
            && t == s.(sink := s.sink + s.batch[s.worker.next..], worker := t.worker)
  {
    assert s.batch[s.worker.next..] == [];
    assert s.sink + [] == s.sink;
  }

  lemma IdleWorker(c: Config, s: State, act: WorkerAct)
    requires WorkerInv(c, s) && WorkerStep(c, s, act).Some? && !SinkCall(act) && !act.LoopDone?
    ensures var t := WorkerStep(c, s, act).value;
            && t.sink == s.sink && t.late == s.late && t.accepted == s.accepted && Persisted(t) == Persisted(s)
            && SameAttempt(s, t)
  {
    if act.Receive? {
      ReceiveTouches(c, s);
    } else {
      IdleMove(c, s, act);
    }
  }

  lemma IdleMove(c: Config, s: State, act: WorkerAct)
    requires WorkerStep(c, s, act).Some? && !SinkCall(act) && !act.LoopDone? && !act.Receive?
    ensures var t := WorkerStep(c, s, act).value;
            && t.sink == s.sink && t.late == s.late && t.accepted == s.accepted && Persisted(t) == Persisted(s)
            && SameAttempt(s, t)
  {
  }

  lemma IdleCalls(c: Config, s: State, a: Action)
    requires Step(c, s, a).Some? && (a.Write? || a.Close?)
    ensures var t := Step(c, s, a).value;
            && t.sink == s.sink && t.late == s.late && s.accepted <= t.accepted && Persisted(t) == Persisted(s)
            && t.batch == s.batch && t.worker == s.worker
  {
    match a
    case Write(w, act) => WriterTouches(c, s, w, act);
    case Close(k, act) => CloserTouches(s, k, act);
  }

  lemma ShapeStep(c: Config, s: State, a: Action, rounds: seq<Round>, tries: seq<Try>, pieces: seq<Piece>)
    returns (rounds': seq<Round>, tries': seq<Try>, pieces': seq<Piece>)
    requires FlowInv(c, s) && WorkerInv(c, s) && Shape(c, s, rounds, tries, pieces) && Step(c, s, a).Some?
    ensures Shape(c, Step(c, s, a).value, rounds', tries', pieces')
  {
    var t := Step(c, s, a).value;
    rounds', tries', pieces' := rounds, tries, pieces;
    if a.Land? {
      ShapeLands(c, s, t, a.i, rounds, tries, pieces);
      pieces' := pieces + [Late(s.late[a.i])];
    } else if a.Work? && SinkCall(a.act) {
      rounds', tries', pieces' := ShapeSink(c, s, a.act, rounds, tries, pieces);
    } else if a.Work? && a.act.LoopDone? {
      LoopDoneTouches(c, s);
      ShapeWritten(c, s, t, rounds, tries, pieces);
      rounds', tries', pieces' := rounds + [Round(s.batch, tries)], [], pieces + [OnTime(s.batch[s.worker.next..])];
    } else {
      if a.Work? {
        IdleWorker(c, s, a.act);
      } else {
        IdleCalls(c, s, a);
      }
      ShapeIdle(c, s, t, rounds, tries, pieces);
    }
  }

  /** In every run the sink is an interleaving of what was stored on time and of late segments. What
      was stored on time is a series of rounds: for each batch in turn some beginnings, one for each
      failed attempt, then the whole batch; and at the end what the current attempts have left. The
      batches together are what has been persisted, in send order. The late segments are what calls
      that failed were given, no call's more than once. */
  lemma {:induction false} SinkShape(c: Config, actions: seq<Action>)
    returns (rounds: seq<Round>, tries: seq<Try>, pieces: seq<Piece>)
    requires ValidConfig(c) && Reached(c, actions).Some?
    ensures Shape(c, Reached(c, actions).value, rounds, tries, pieces)
    decreases |actions|
  {
    if |actions| == 0 {
      rounds, tries, pieces := [], [], [];
    } else {
      var before, a := actions[..|actions| - 1], actions[|actions| - 1];
      rounds, tries, pieces := SinkShape(c, before);
      Theorems.Reaches(c, before);
      rounds, tries, pieces := ShapeStep(c, Reached(c, before).value, a, rounds, tries, pieces);
    }
  }
}
