/** What the migration runner promises, over every run of any number of runners. */
module MigrationTheorems {
  import opened Machines
  import opened MigrationModel
  import opened MigrationInvariant

  /** Wherever runners die: the recorded versions are a beginning of the sorted list, each once,
      so no version is recorded before a smaller one; and the bodies whose effects are committed
      are exactly theirs, each once, in that order. */
  lemma RecordedIsPrefix(list: seq<string>, actions: seq<Action>)
    requires Sorted(list) && Reached(list, actions).Some?
    ensures var s := Reached(list, actions).value;
            && s.recorded <= list && s.bodies == s.recorded
            && (forall i, j :: 0 <= i < j < |s.recorded| ==> s.recorded[i] != s.recorded[j])
            && (forall u, v :: u in list && v in s.recorded && Less(u, v) ==> u in s.recorded)
  {
    Reaches(list, actions);
    var s := Reached(list, actions).value;
    forall i, j | 0 <= i < j < |s.recorded| ensures s.recorded[i] != s.recorded[j] {
      if s.recorded[i] == s.recorded[j] {
        SortedIsDistinct(list, i, j);
      }
    }
    forall u, v | u in list && v in s.recorded && Less(u, v) ensures u in s.recorded {
      SmallerIsEarlier(list, u, v, |s.recorded|);
    }
  }

  lemma SortedOrder(list: seq<string>, i: nat, j: nat)
    requires Sorted(list) && i < |list| && j < |list| && Less(list[i], list[j])
    ensures i < j
  {
    LessIsStrict(list[i], list[j]);
  }

  lemma SmallerIsEarlier(list: seq<string>, u: string, v: string, n: nat)
    requires Sorted(list) && n <= |list| && u in list && v in list[..n] && Less(u, v)
    ensures u in list[..n]
  {
    var i :| 0 <= i < |list| && list[i] == u;
    var j :| 0 <= j < n && list[j] == v;
    SortedOrder(list, i, j);
    assert list[..n][i] == u;
  }

  /** A run that returned nil has everything recorded and applied, whoever did it. */
  lemma NilMeansComplete(list: seq<string>, actions: seq<Action>, r: nat)
    requires Sorted(list) && Reached(list, actions).Some?
    requires r in Reached(list, actions).value.runners && Reached(list, actions).value.runners[r] == ReturnedNil
    ensures Reached(list, actions).value.recorded == list && Reached(list, actions).value.bodies == list
  {
    Reaches(list, actions);
    assert PlaceInv(list, Reached(list, actions).value, ReturnedNil);
  }

  /** Nothing recorded is ever taken back. */
  lemma RecordsOnlyGrow(list: seq<string>, actions: seq<Action>, more: seq<Action>)
    requires Reached(list, actions + more).Some?
    ensures Reached(list, actions).Some?
    ensures Reached(list, actions).value.recorded <= Reached(list, actions + more).value.recorded
  {
    RunConcat(Machine(list), Init(), actions, more);
    var s := Reached(list, actions).value;
    RunKeeps(Machine(list), (t: State) => s.recorded <= t.recorded, s, more);
  }

  /** At any time at most one transaction has a record that is not committed, and that record is
      the next version. */
  lemma OneRecordInFlight(list: seq<string>, actions: seq<Action>, q: nat, r: nat)
    requires Sorted(list) && Reached(list, actions).Some?
    requires var s := Reached(list, actions).value;
             q in s.open && r in s.open && s.open[q].inserted.Some? && s.open[r].inserted.Some?
    ensures var s := Reached(list, actions).value;
            q == r && |s.recorded| < |list| && s.open[q].inserted.value == list[|s.recorded|]
  {
    Reaches(list, actions);
    assert TxnInv(list, Reached(list, actions).value, Reached(list, actions).value.open[q]);
  }

  // ---------- which runs can still succeed ----------

  /** The run has failed, was overtaken between its check and its insert, or lost its transaction. */
  ghost predicate Doomed(s: State, r: nat)
    requires r in s.runners
  {
    match s.runners[r]
    case ReturnedError => true
    case Missing(i) => i < |s.recorded|
    case Begun(i) => i < |s.recorded| || r !in s.open
    case Applied(i) => i < |s.recorded| || r !in s.open
    case Recorded(_) => r !in s.open
    case Committing(_) => r !in s.open
    case _ => false
  }

  lemma DoomedStays(list: seq<string>, s: State, r: nat, a: Action)
    requires Sorted(list) && Inv(list, s) && r in s.runners && Doomed(s, r) && Step(list, s, a).Some?
    ensures var t := Step(list, s, a).value; r in t.runners && Doomed(t, r)
  {
    match a
    case Act(q, act) =>
      if q == r {
        if s.runners[r].Applied? {
          RecordedIff(list, s, s.runners[r].i);
        }
        DoomedActs(list, s, r, act);
      }
    case Land(_) =>
    case Abort(_) =>
  }

  lemma DoomedActs(list: seq<string>, s: State, r: nat, a: RunnerAct)
    requires r in s.runners && Doomed(s, r) && RunnerStep(list, s, r, a).Some?
    requires s.runners[r].Applied? ==>
      s.runners[r].i < |list| && (list[s.runners[r].i] in s.recorded <==> s.runners[r].i < |s.recorded|)
    ensures var t := RunnerStep(list, s, r, a).value; r in t.runners && Doomed(t, r)
  {
  }

  function Next(list: seq<string>, s: State, r: nat): Action
    requires r in s.runners
  {
    match s.runners[r]
    case Creating => Act(r, CreateTable(true, true))
    case At(i) => Act(r, if i < |list| then Check(true) else Finish)
    case Missing(_) => Act(r, Begin(true))
    case Begun(_) => Act(r, ExecBody(true))
    case Applied(_) => Act(r, Insert(true))
    case Recorded(_) => Act(r, SendCommit)
    case Committing(_) => Land(r)
    case Landed(_) => Act(r, Answer(true))
    case _ => Act(r, Die)
  }

  function Distance(list: seq<string>, p: Runner): int {
    match p
    case Creating => 8 * (|list| + 1)
    case At(i) => 8 * (|list| - i) + 7
    case Missing(i) => 8 * (|list| - i) + 6
    case Begun(i) => 8 * (|list| - i) + 5
    case Applied(i) => 8 * (|list| - i) + 4
    case Recorded(i) => 8 * (|list| - i) + 3
    case Committing(i) => 8 * (|list| - i) + 2
    case Landed(i) => 8 * (|list| - i) + 1
    case _ => 0
  }

  ghost predicate Alone(s: State, r: nat) {
    forall q :: q in s.open ==> q == r
  }

  ghost predicate OthersStay(s: State, t: State, r: nat) {
    forall q :: q in s.runners && q != r ==> q in t.runners && t.runners[q] == s.runners[q]
  }

  /** Nothing goes wrong: no statement fails and nobody dies. */
  predicate Faultless(a: Action) {
    match a
    case Act(_, CreateTable(_, ok)) => ok
    case Act(_, Check(ok)) => ok
    case Act(_, ReadFails) => false
    case Act(_, Begin(ok)) => ok
    case Act(_, ExecBody(ok)) => ok
    case Act(_, Insert(ok)) => ok
    case Act(_, Answer(ok)) => ok
    case Act(_, Die) => false
    case Abort(_) => false
    case _ => true
  }

  lemma NextIsCloser(list: seq<string>, s: State, r: nat)
    requires Sorted(list) && Inv(list, s) && Alone(s, r) && r in s.runners && !Doomed(s, r)
    requires s.runners[r] != ReturnedNil
    ensures Step(list, s, Next(list, s, r)).Some? && Faultless(Next(list, s, r))
    ensures var t := Step(list, s, Next(list, s, r)).value;
            Inv(list, t) && Alone(t, r) && r in t.runners && !Doomed(t, r) && OthersStay(s, t, r) &&
            0 <= Distance(list, t.runners[r]) < Distance(list, s.runners[r])
  {
    var p := s.runners[r];
    assert PlaceInv(list, s, p);
    if (p.At? || p.Applied?) && p.i < |list| {
      RecordedIff(list, s, p.i);
    }
    if p.Committing? {
      assert PairInv(list, s, r);
    } else {
      NextActs(list, s, r, Next(list, s, r).act);
    }
    InvKept(list, s, Next(list, s, r));
  }

  lemma NextActs(list: seq<string>, s: State, r: nat, a: RunnerAct)
    requires Alone(s, r) && r in s.runners && !Doomed(s, r) && s.runners[r] != ReturnedNil && !s.runners[r].Committing?
    requires PlaceInv(list, s, s.runners[r]) && |s.recorded| <= |list|
    requires (s.runners[r].At? || s.runners[r].Applied?) && s.runners[r].i < |list| ==>
               (list[s.runners[r].i] in s.recorded <==> s.runners[r].i < |s.recorded|)
    requires Next(list, s, r) == Act(r, a)
    ensures RunnerStep(list, s, r, a).Some?
    ensures var t := RunnerStep(list, s, r, a).value;
            Alone(t, r) && r in t.runners && !Doomed(t, r) && OthersStay(s, t, r) &&
            0 <= Distance(list, t.runners[r]) < Distance(list, s.runners[r])
  {
  }

  /** Left alone, a run that is not doomed succeeds. */
  lemma {:induction false} CarryOn(list: seq<string>, s: State, r: nat) returns (more: seq<Action>)
    requires Sorted(list) && Inv(list, s) && Alone(s, r) && r in s.runners && !Doomed(s, r)
    ensures Run(Machine(list), s, more).Some?
    ensures var t := Run(Machine(list), s, more).value;
            Inv(list, t) && r in t.runners && t.runners[r] == ReturnedNil && OthersStay(s, t, r)
    ensures forall a :: a in more ==> Faultless(a)
    decreases Distance(list, s.runners[r])
  {
    if s.runners[r] == ReturnedNil {
      more := [];
    } else {
      NextIsCloser(list, s, r);
      var a := Next(list, s, r);
      var rest := CarryOn(list, Step(list, s, a).value, r);
      RunConcat(Machine(list), s, [a], rest);
      RunSnoc(Machine(list), s, [], a);
      assert [] + [a] == [a];
      more := [a] + rest;
    }
  }

  lemma AbortOne(list: seq<string>, s: State, q: nat, r: nat)
    requires Inv(list, s) && q in s.open && q != r && r in s.runners && !Doomed(s, r)
    ensures AbortStep(s, q).Some?
    ensures var t := AbortStep(s, q).value;
            Inv(list, t) && r in t.runners && !Doomed(t, r) && |t.open.Keys| < |s.open.Keys|
  {
    KeptByAbort(list, s, q);
    assert AbortStep(s, q).value.open.Keys == s.open.Keys - {q};
  }

  /** The other transactions go away when their connections do. */
  lemma {:induction false} AbortOthers(list: seq<string>, s: State, r: nat) returns (aborts: seq<Action>)
    requires Inv(list, s) && r in s.runners && !Doomed(s, r)
    ensures Run(Machine(list), s, aborts).Some?
    ensures var t := Run(Machine(list), s, aborts).value; Inv(list, t) && Alone(t, r) && r in t.runners && !Doomed(t, r)
    decreases |s.open.Keys|
  {
    if Alone(s, r) {
      aborts := [];
    } else {
      var q :| q in s.open && q != r;
      var t := AbortStep(s, q).value;
      AbortOne(list, s, q, r);
      var rest := AbortOthers(list, t, r);
      RunConcat(Machine(list), s, [Abort(q)], rest);
      RunSnoc(Machine(list), s, [], Abort(q));
      assert [] + [Abort(q)] == [Abort(q)];
      aborts := [Abort(q)] + rest;
    }
  }

  /** A RunMigrations call can still return nil exactly when it is not doomed. In particular one
      that is overtaken after its check returns an error, however the run goes on. */
  lemma CanReturnNilIff(list: seq<string>, actions: seq<Action>, r: nat)
    requires Sorted(list) && Reached(list, actions).Some? && r in Reached(list, actions).value.runners
    ensures (exists more :: ReturnsNil(list, actions + more, r)) <==> !Doomed(Reached(list, actions).value, r)
  {
    Reaches(list, actions);
    var s := Reached(list, actions).value;
    if Doomed(s, r) {
      forall more ensures !ReturnsNil(list, actions + more, r) {
        DoomedForEver(list, actions, more, r);
      }
    } else {
      var aborts := AbortOthers(list, s, r);
      var rest := CarryOn(list, Run(Machine(list), s, aborts).value, r);
      RunConcat(Machine(list), s, aborts, rest);
      RunConcat(Machine(list), Init(), actions, aborts + rest);
      assert ReturnsNil(list, actions + (aborts + rest), r);
    }
  }

  ghost predicate ReturnsNil(list: seq<string>, actions: seq<Action>, r: nat) {
    Reached(list, actions).Some? && r in Reached(list, actions).value.runners &&
    Reached(list, actions).value.runners[r] == ReturnedNil
  }

  lemma DoomedForEver(list: seq<string>, actions: seq<Action>, more: seq<Action>, r: nat)
    requires Sorted(list) && Reached(list, actions).Some? && r in Reached(list, actions).value.runners
    requires Doomed(Reached(list, actions).value, r)
    ensures !ReturnsNil(list, actions + more, r)
  {
    Reaches(list, actions);
    forall t: State, a | Inv(list, t) && r in t.runners && Doomed(t, r) && Machine(list)(t, a).Some?
      ensures var u := Machine(list)(t, a).value; Inv(list, u) && r in u.runners && Doomed(u, r)
    {
      InvKept(list, t, a);
      DoomedStays(list, t, r, a);
    }
    var inv := (t: State) => Inv(list, t) && r in t.runners && Doomed(t, r);
    RunKeeps(Machine(list), inv, Reached(list, actions).value, more);
    RunConcat(Machine(list), Init(), actions, more);
  }

  /** However earlier runs ended, a new one can complete the migrations. */
  lemma AlwaysRestartable(list: seq<string>, actions: seq<Action>, r: nat)
    requires Sorted(list) && Reached(list, actions).Some? && r !in Reached(list, actions).value.runners
    ensures exists more :: ReturnsNil(list, actions + [Act(r, Start)] + more, r)
  {
    Reaches(list, actions);
    RunSnoc(Machine(list), Init(), actions, Act(r, Start));
    CanReturnNilIff(list, actions + [Act(r, Start)], r);
  }

  lemma Extend(list: seq<string>, actions: seq<Action>, s: State, a: Action, t: State) returns (more: seq<Action>)
    requires Reached(list, actions) == Some(s) && Step(list, s, a) == Some(t)
    ensures more == actions + [a] && Reached(list, more) == Some(t)
  {
    RunSnoc(Machine(list), Init(), actions, a);
    more := actions + [a];
  }

  /** A run in which nothing goes wrong up to here: runner 1 has found the first version missing,
      and then runner 0 has completed the migrations. */
  lemma Overtaken(list: seq<string>) returns (actions: seq<Action>, s: State)
    requires Sorted(list) && |list| > 0
    ensures Reached(list, actions) == Some(s) && Inv(list, s) && forall a :: a in actions ==> Faultless(a)
    ensures 0 in s.runners && s.runners[0] == ReturnedNil && 1 in s.runners && s.runners[1] == Missing(0)
  {
    var before, start := BothStarted(list);
    Reaches(list, before);
    var rest := CarryOn(list, start, 0);
    RunConcat(Machine(list), Init(), before, rest);
    actions := before + rest;
    s := Run(Machine(list), start, rest).value;
    assert OthersStay(start, s, 0);
  }

  lemma BothStarted(list: seq<string>) returns (actions: seq<Action>, s: State)
    requires |list| > 0
    ensures Reached(list, actions) == Some(s) && forall a :: a in actions ==> Faultless(a)
    ensures s.open == map[] && s.runners == map[1 := Missing(0), 0 := Creating]
  {
    var before, s2 := OneCreated(list);
    var s3 := To(s2, 1, Missing(0));
    actions := Extend(list, before, s2, Act(1, Check(true)), s3);
    s := To(s3, 0, Creating);
    actions := Extend(list, actions, s3, Act(0, Start), s);
  }

  lemma OneCreated(list: seq<string>) returns (actions: seq<Action>, s: State)
    requires |list| > 0
    ensures Reached(list, actions) == Some(s) && forall a :: a in actions ==> Faultless(a)
    ensures s == Init().(table := true, runners := map[1 := At(0)])
  {
    var s1 := To(Init(), 1, Creating);
    actions := Extend(list, [], Init(), Act(1, Start), s1);
    s := To(s1, 1, At(0)).(table := true);
    actions := Extend(list, actions, s1, Act(1, CreateTable(true, true)), s);
    assert s.runners == map[1 := At(0)];
  }

  /** For any nonempty list, two runners that start together: the schema is complete, nothing else
      has gone wrong, and yet one of them must return an error, its insert being refused. */
  lemma CompleteYetError(list: seq<string>) returns (actions: seq<Action>)
    requires Sorted(list) && |list| > 0
    ensures Reached(list, actions).Some?
    ensures var s := Reached(list, actions).value;
            && s.recorded == list && s.bodies == list
            && 0 in s.runners && s.runners[0] == ReturnedNil && 1 in s.runners && s.runners[1] == ReturnedError
    ensures |actions| > 0 && actions[|actions| - 1] == Act(1, Insert(false))
    ensures forall a :: a in actions[..|actions| - 1] ==> Faultless(a)
    ensures !Reached(list, actions[..|actions| - 1] + [Act(1, Insert(true))]).Some?
  {
    var before, s := Overtaken(list);
    assert PlaceInv(list, s, ReturnedNil);
    var s1 := To(s, 1, Begun(0)).(open := s.open[1 := Txn([], None, false)]);
    before := Extend(list, before, s, Act(1, Begin(true)), s1);
    var s2 := To(s1, 1, Applied(0)).(open := s1.open[1 := Txn([list[0]], None, false)]);
    assert [] + [list[0]] == [list[0]];
    before := Extend(list, before, s1, Act(1, ExecBody(true)), s2);
    assert list[0] in s2.recorded;
    RunSnoc(Machine(list), Init(), before, Act(1, Insert(true)));
    actions := Extend(list, before, s2, Act(1, Insert(false)), To(s2, 1, ReturnedError));
    assert actions[..|actions| - 1] == before;
  }
}
