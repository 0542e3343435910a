/** The migration runner as a transition system: any number of gateways run the same embedded
    migrations against one database, each statement may fail, each process may die. */
module MigrationModel {
  import opened Machines

  /** Where one RunMigrations call stands; `i` is its position in the list. */
  datatype Runner =
    | Creating
    | At(i: nat)          // top of the loop
    | Missing(i: nat)     // not recorded when checked
    | Begun(i: nat)
    | Applied(i: nat)     // the body ran inside the transaction
    | Recorded(i: nat)    // so did the insert
    | Committing(i: nat)  // commit sent, no answer yet
    | Landed(i: nat)      // commit took effect, no answer yet
    | ReturnedNil
    | ReturnedError       // or the process died

  /** An open transaction: the bodies it ran, the version it inserted, and whether its commit was sent. */
  datatype Txn = Txn(ran: seq<string>, inserted: Option<string>, sent: bool)

  /** `recorded` is schema_migrations in commit order; `bodies` are the migration bodies whose
      effects are committed, in commit order. */
  datatype State = State(
    table: bool, recorded: seq<string>, bodies: seq<string>,
    open: map<nat, Txn>, runners: map<nat, Runner>)

  function Init(): State {
    State(false, [], [], map[], map[])
  }

  datatype RunnerAct =
    | Start
    | CreateTable(created: bool, ok: bool)
    | Check(ok: bool)
    | ReadFails
    | Begin(ok: bool)
    | ExecBody(ok: bool)
    | Insert(ok: bool)
    | SendCommit
    | Answer(ok: bool)
    | Finish
    | Die

  /** `Land` and `Abort` are the database's: a sent commit takes effect, an open transaction is
      undone, because it was rolled back or its connection was lost. */
  datatype Action =
    | Act(r: nat, act: RunnerAct)
    | Land(r: nat)
    | Abort(r: nat)

  function To(s: State, r: nat, p: Runner): State {
    s.(runners := s.runners[r := p])
  }

  /** The unique index: an insert waits while another transaction holds the same version. */
  predicate Blocked(s: State, r: nat, version: string) {
    exists q :: q in s.open && q != r && s.open[q].inserted == Some(version)
  }

  function RunnerStep(list: seq<string>, s: State, r: nat, a: RunnerAct): Option<State> {
    if r !in s.runners then
      if a == Start && r !in s.open then Some(To(s, r, Creating)) else None
    else if a == Die then Some(To(s, r, ReturnedError))
    else
      match (s.runners[r], a)
      case (Creating, CreateTable(created, ok)) =>
        if ok && !created && !s.table then None
        else Some(To(s, r, if ok then At(0) else ReturnedError).(table := s.table || created))
      case (At(i), Check(ok)) =>
        if i >= |list| then None
        else Some(To(s, r, if !ok then ReturnedError else if list[i] in s.recorded then At(i + 1) else Missing(i)))
      case (At(i), Finish) => if i == |list| then Some(To(s, r, ReturnedNil)) else None
      case (Missing(_), ReadFails) => Some(To(s, r, ReturnedError))
      case (Missing(i), Begin(ok)) =>
        if !ok then Some(To(s, r, ReturnedError))
        else Some(To(s, r, Begun(i)).(open := s.open[r := Txn([], None, false)]))
      case (Begun(i), ExecBody(ok)) =>
        if !ok then Some(To(s, r, ReturnedError))
        else if r !in s.open || i >= |list| then None
        else Some(To(s, r, Applied(i)).(open := s.open[r := s.open[r].(ran := s.open[r].ran + [list[i]])]))
      case (Applied(i), Insert(ok)) =>
        if !ok then Some(To(s, r, ReturnedError))
        else if r !in s.open || i >= |list| || list[i] in s.recorded || Blocked(s, r, list[i]) then None
        else Some(To(s, r, Recorded(i)).(open := s.open[r := s.open[r].(inserted := Some(list[i]))]))
      case (Recorded(i), SendCommit) =>
        Some(To(s, r, Committing(i)).(open := if r in s.open then s.open[r := s.open[r].(sent := true)] else s.open))
      case (Committing(_), Answer(ok)) => if ok then None else Some(To(s, r, ReturnedError))
      case (Landed(i), Answer(ok)) => Some(To(s, r, if ok then At(i + 1) else ReturnedError))
      case _ => None
  }

  /** A commit takes effect as a whole: the bodies and the record together. */
  function LandStep(s: State, r: nat): Option<State> {
    if r !in s.open || !s.open[r].sent then None
    else
      var t := s.open[r];
      Some(s.(recorded := s.recorded + (if t.inserted.Some? then [t.inserted.value] else []),
              bodies := s.bodies + t.ran,
              open := s.open - {r},
              runners := if r in s.runners && s.runners[r].Committing?
                         then s.runners[r := Landed(s.runners[r].i)] else s.runners))
  }

  function AbortStep(s: State, r: nat): Option<State> {
    if r !in s.open then None else Some(s.(open := s.open - {r}))
  }

  function Step(list: seq<string>, s: State, a: Action): Option<State> {
    match a
    case Act(r, act) => RunnerStep(list, s, r, act)
    case Land(r) => LandStep(s, r)
    case Abort(r) => AbortStep(s, r)
  }

  function Machine(list: seq<string>): (State, Action) -> Option<State> {
    (s: State, a: Action) => Step(list, s, a)
  }

  function Reached(list: seq<string>, actions: seq<Action>): Option<State> {
    Run(Machine(list), Init(), actions)
  }

  // ---------- the embedded files ----------

  datatype DirEntry = DirEntry(name: string, isDir: bool)

  /** Go's order of strings: by the first difference, a prefix first. */
  predicate Less(a: string, b: string)
    decreases |a|
  {
    |b| > 0 && (|a| == 0 || a[0] < b[0] || (a[0] == b[0] && Less(a[1..], b[1..])))
  }

  ghost predicate Sorted(list: seq<string>) {
    forall i, j :: 0 <= i < j < |list| ==> Less(list[i], list[j])
  }

  lemma {:induction false} LessIsStrict(a: string, b: string)
    requires Less(a, b)
    ensures !Less(b, a) && a != b
    decreases |a|
  {
    if |a| == 0 || a[0] != b[0] {
    } else {
      LessIsStrict(a[1..], b[1..]);
    }
  }

  lemma {:induction false} LessIsTotal(a: string, b: string)
    requires a != b
    ensures Less(a, b) || Less(b, a)
    decreases |a|
  {
    if |a| == 0 || |b| == 0 || a[0] != b[0] {
    } else {
      assert a == [a[0]] + a[1..] && b == [b[0]] + b[1..];
      LessIsTotal(a[1..], b[1..]);
    }
  }

  lemma {:induction false} LessIsTransitive(a: string, b: string, c: string)
    requires Less(a, b) && Less(b, c)
    ensures Less(a, c)
    decreases |a|
  {
    if |a| == 0 || a[0] != b[0] || b[0] != c[0] {
    } else {
      LessIsTransitive(a[1..], b[1..], c[1..]);
    }
  }

  lemma SortedIsDistinct(list: seq<string>, i: nat, j: nat)
    requires Sorted(list) && i < |list| && j < |list| && list[i] == list[j]
    ensures i == j
  {
    if i < j {
      LessIsStrict(list[i], list[j]);
    } else if j < i {
      LessIsStrict(list[j], list[i]);
    }
  }

  /** The versions are the entries that are not directories. */
  function Versions(entries: seq<DirEntry>): seq<string> {
    if |entries| == 0 then []
    else Versions(entries[..|entries| - 1]) +
         if entries[|entries| - 1].isDir then [] else [entries[|entries| - 1].name]
  }

  // ---------- sorting the directory listing ----------

  ghost predicate DistinctNames(entries: seq<DirEntry>) {
    forall i, j :: 0 <= i < j < |entries| ==> entries[i].name != entries[j].name
  }

  ghost predicate Ascending(entries: seq<DirEntry>) {
    forall i, j :: 0 <= i < j < |entries| ==> Less(entries[i].name, entries[j].name)
  }

  function Insert(e: DirEntry, entries: seq<DirEntry>): (r: seq<DirEntry>)
    ensures forall x :: x in r <==> x == e || x in entries
  {
    if |entries| == 0 then [e]
    else
      var init, last := entries[..|entries| - 1], entries[|entries| - 1];
      assert entries == init + [last];
      if Less(last.name, e.name) then entries + [e] else Insert(e, init) + [last]
  }

  /** The listing, sorted by name. */
  function SortByName(entries: seq<DirEntry>): (r: seq<DirEntry>)
    ensures forall x :: x in r <==> x in entries
  {
    if |entries| == 0 then []
    else
      assert entries == entries[..|entries| - 1] + [entries[|entries| - 1]];
      Insert(entries[|entries| - 1], SortByName(entries[..|entries| - 1]))
  }

  lemma {:induction false} InsertAscends(e: DirEntry, entries: seq<DirEntry>)
    requires Ascending(entries) && forall x :: x in entries ==> x.name != e.name
    ensures Ascending(Insert(e, entries))
    decreases |entries|
  {
    if |entries| == 0 {
    } else {
      var init, last := entries[..|entries| - 1], entries[|entries| - 1];
      if Less(last.name, e.name) {
        forall i | 0 <= i < |init| ensures Less(entries[i].name, e.name) {
          LessIsTransitive(entries[i].name, last.name, e.name);
        }
      } else {
        assert last in entries;
        LessIsTotal(last.name, e.name);
        InsertAscends(e, init);
        forall x | x in Insert(e, init) ensures Less(x.name, last.name) {
          if x != e {
            var i :| 0 <= i < |init| && init[i] == x;
            assert x == entries[i];
          }
        }
      }
    }
  }

  /** Sorting puts a directory listing in ascending order. */
  lemma {:induction false} SortAscends(entries: seq<DirEntry>)
    requires DistinctNames(entries)
    ensures Ascending(SortByName(entries)) && Sorted(Versions(SortByName(entries)))
    decreases |entries|
  {
    if |entries| == 0 {
    } else {
      var init, last := entries[..|entries| - 1], entries[|entries| - 1];
      SortAscends(init);
      forall x | x in SortByName(init) ensures x.name != last.name {
        var i :| 0 <= i < |init| && init[i] == x;
        assert entries[i].name != entries[|entries| - 1].name;
      }
      InsertAscends(last, SortByName(init));
    }
    VersionsAscend(SortByName(entries));
  }

  lemma {:induction false} VersionsAscend(entries: seq<DirEntry>)
    requires Ascending(entries)
    ensures Sorted(Versions(entries))
    ensures forall v :: v in Versions(entries) ==> exists i :: 0 <= i < |entries| && entries[i].name == v
    decreases |entries|
  {
    if |entries| == 0 {
    } else {
      var init, last := entries[..|entries| - 1], entries[|entries| - 1];
      VersionsAscend(init);
      forall v | v in Versions(init)
        ensures Less(v, last.name) && exists i :: 0 <= i < |entries| && entries[i].name == v
      {
        var i :| 0 <= i < |init| && init[i].name == v;
        assert entries[i].name == v;
      }
    }
  }
}

/** What every step keeps. */
module MigrationInvariant {
  import opened Machines
  import opened MigrationModel

  /** The table holds a beginning of the list, and exactly those bodies took effect, in that order. */
  ghost predicate PrefixInv(list: seq<string>, s: State) {
    && |s.recorded| <= |list| && s.recorded == list[..|s.recorded|]
    && s.bodies == s.recorded
    && (s.recorded != [] ==> s.table)
  }

  /** No runner is ahead of the table. */
  ghost predicate PlaceInv(list: seq<string>, s: State, p: Runner) {
    match p
    case At(i) => i <= |s.recorded| && s.table
    case Missing(i) => i <= |s.recorded| && i < |list| && s.table
    case Begun(i) => i <= |s.recorded| && i < |list| && s.table
    case Applied(i) => i <= |s.recorded| && i < |list| && s.table
    case Recorded(i) => i <= |s.recorded| && i < |list| && s.table
    case Committing(i) => i <= |s.recorded| && i < |list| && s.table
    case Landed(i) => i < |s.recorded| && s.table
    case ReturnedNil => |s.recorded| == |list| && s.table
    case _ => true
  }

  /** A transaction that holds a record holds the next one, with exactly its body, alone; only
      such a transaction can have been sent for commit. */
  ghost predicate TxnInv(list: seq<string>, s: State, t: Txn) {
    && (t.inserted.Some? ==> |s.recorded| < |list| && t.inserted.value == list[|s.recorded|])
    && (t.inserted.Some? ==> t.ran == [t.inserted.value] && s.table)
    && (t.sent ==> t.inserted.Some?)
  }

  /** A runner's transaction is as far as the runner. */
  ghost predicate PairInv(list: seq<string>, s: State, r: nat)
    requires r in s.runners && r in s.open
  {
    var p, t := s.runners[r], s.open[r];
    match p
    case Creating => false
    case Begun(i) => t == Txn([], None, false)
    case Applied(i) => i < |list| && t == Txn([list[i]], None, false)
    case Recorded(i) => i < |list| && t == Txn([list[i]], Some(list[i]), false)
    case Committing(i) => i < |list| && t == Txn([list[i]], Some(list[i]), true)
    case ReturnedError => true
    case _ => false
  }

  ghost predicate PlacesInv(list: seq<string>, s: State) {
    forall r :: r in s.runners ==> PlaceInv(list, s, s.runners[r])
  }

  ghost predicate TxnsInv(list: seq<string>, s: State) {
    && (forall r :: r in s.open ==> r in s.runners && TxnInv(list, s, s.open[r]) && PairInv(list, s, r))
    && (forall q, r :: q in s.open && r in s.open && s.open[q].inserted.Some? && s.open[r].inserted.Some? ==> q == r)
  }

  ghost predicate Inv(list: seq<string>, s: State) {
    PrefixInv(list, s) && PlacesInv(list, s) && TxnsInv(list, s)
  }

  /** With the table holding a beginning of the list, a version is recorded exactly when it is
      in that beginning. */
  lemma RecordedIff(list: seq<string>, s: State, i: nat)
    requires Sorted(list) && PrefixInv(list, s) && i < |list|
    ensures list[i] in s.recorded <==> i < |s.recorded|
  {
    assert i < |s.recorded| ==> s.recorded[i] == list[i];
    if list[i] in s.recorded {
      var j :| 0 <= j < |s.recorded| && s.recorded[j] == list[i];
      SortedIsDistinct(list, i, j);
    }
  }

  /** What one runner's step must show: its own place, and its own transaction if it has one. */
  ghost predicate Local(list: seq<string>, s: State, t: State, r: nat) {
    && t.recorded == s.recorded && t.bodies == s.bodies && (s.table ==> t.table)
    && r in t.runners && t.runners == s.runners[r := t.runners[r]]
    && PlaceInv(list, t, t.runners[r])
    && (forall q :: q in t.open && q != r ==> q in s.open && t.open[q] == s.open[q])
    && (r in t.open ==> TxnInv(list, t, t.open[r]) && PairInv(list, t, r))
    && (r in t.open && t.open[r].inserted.Some? ==> forall q :: q in s.open && q != r ==> s.open[q].inserted == None)
  }

  lemma KeptByLocal(list: seq<string>, s: State, t: State, r: nat)
    requires Inv(list, s) && Local(list, s, t, r)
    ensures Inv(list, t)
  {
    forall q | q in t.runners ensures PlaceInv(list, t, t.runners[q]) {
      if q != r {
        assert PlaceInv(list, s, s.runners[q]);
      }
    }
    forall q | q in t.open ensures q in t.runners && TxnInv(list, t, t.open[q]) && PairInv(list, t, q) {
      if q != r {
        assert TxnInv(list, s, s.open[q]) && PairInv(list, s, q);
      }
    }
  }

  lemma KeptByRunner(list: seq<string>, s: State, r: nat, a: RunnerAct)
    requires Sorted(list) && Inv(list, s) && RunnerStep(list, s, r, a).Some?
    ensures Inv(list, RunnerStep(list, s, r, a).value)
  {
    var t := RunnerStep(list, s, r, a).value;
    assert r in s.runners ==> PlaceInv(list, s, s.runners[r]);
    assert r in s.open ==> TxnInv(list, s, s.open[r]) && PairInv(list, s, r);
    assert r in s.open && s.open[r].inserted.Some? ==> forall q :: q in s.open && q != r ==> s.open[q].inserted == None;
    if r in s.runners && s.runners[r].At? && s.runners[r].i < |list| {
      RecordedIff(list, s, s.runners[r].i);
    }
    if r in s.runners && s.runners[r].Applied? {
      InsertIsNext(list, s, r, a);
    }
    StepIsLocal(list, s, r, a);
    KeptByLocal(list, s, t, r);
  }

  /** What the invariant says of the runner that steps. */
  ghost predicate Placed(list: seq<string>, s: State, r: nat) {
    && PrefixInv(list, s)
    && (r in s.runners ==> PlaceInv(list, s, s.runners[r]))
    && (r in s.open ==> r in s.runners && TxnInv(list, s, s.open[r]) && PairInv(list, s, r))
    && (r in s.open && s.open[r].inserted.Some? ==> forall q :: q in s.open && q != r ==> s.open[q].inserted == None)
  }

  lemma StepIsLocal(list: seq<string>, s: State, r: nat, a: RunnerAct)
    requires RunnerStep(list, s, r, a).Some? && Placed(list, s, r)
    requires r in s.runners && s.runners[r].At? && s.runners[r].i < |list| ==>
               (list[s.runners[r].i] in s.recorded <==> s.runners[r].i < |s.recorded|)
    requires r in s.runners && s.runners[r].Applied? && a == Insert(true) ==>
               s.runners[r].i == |s.recorded| && forall q :: q in s.open && q != r ==> s.open[q].inserted == None
    ensures Local(list, s, RunnerStep(list, s, r, a).value, r)
  {
    if RunnerStep(list, s, r, a).value.open == s.open {
      OutsideIsLocal(list, s, r, a);
    } else {
      TxnStepIsLocal(list, s, r, a);
    }
  }

  /** The steps that leave the transactions alone. */
  lemma OutsideIsLocal(list: seq<string>, s: State, r: nat, a: RunnerAct)
    requires RunnerStep(list, s, r, a).Some? && Placed(list, s, r)
    requires r in s.runners && s.runners[r].At? && s.runners[r].i < |list| ==>
               (list[s.runners[r].i] in s.recorded <==> s.runners[r].i < |s.recorded|)
    requires RunnerStep(list, s, r, a).value.open == s.open
    requires !(r in s.runners && s.runners[r].Applied? && a == Insert(true)) || r !in s.open || s.open[r].inserted.Some?
    ensures Local(list, s, RunnerStep(list, s, r, a).value, r)
  {
  }

  lemma TxnStepIsLocal(list: seq<string>, s: State, r: nat, a: RunnerAct)
    requires RunnerStep(list, s, r, a).Some? && Placed(list, s, r)
    requires r in s.runners && s.runners[r].Applied? && a == Insert(true) ==>
               s.runners[r].i == |s.recorded| && forall q :: q in s.open && q != r ==> s.open[q].inserted == None
    requires RunnerStep(list, s, r, a).value.open != s.open
    ensures Local(list, s, RunnerStep(list, s, r, a).value, r)
  {
  }

  /** An insert that goes through inserts the next version, and no other transaction holds one. */
  lemma InsertIsNext(list: seq<string>, s: State, r: nat, a: RunnerAct)
    requires Sorted(list) && Inv(list, s) && r in s.runners && s.runners[r].Applied?
    requires RunnerStep(list, s, r, a).Some?
    ensures a == Insert(true) ==>
              s.runners[r].i == |s.recorded| && forall q :: q in s.open && q != r ==> s.open[q].inserted == None
  {
    var p := s.runners[r];
    assert PlaceInv(list, s, p);
    RecordedIff(list, s, p.i);
    if a == Insert(true) {
      forall q | q in s.open && q != r ensures s.open[q].inserted == None {
        assert TxnInv(list, s, s.open[q]);
      }
    }
  }

  lemma KeptByLand(list: seq<string>, s: State, r: nat)
    requires Sorted(list) && Inv(list, s) && LandStep(s, r).Some?
    ensures Inv(list, LandStep(s, r).value)
  {
    var t, n := LandStep(s, r).value, |s.recorded|;
    assert TxnInv(list, s, s.open[r]) && PairInv(list, s, r);
    assert t.recorded == list[..n + 1];
    assert t.bodies == t.recorded;
    forall q | q in t.runners ensures PlaceInv(list, t, t.runners[q]) {
      assert PlaceInv(list, s, s.runners[q]);
      if q == r && s.runners[r].Committing? {
        SortedIsDistinct(list, s.runners[r].i, n);
      }
    }
    forall q | q in t.open ensures q in t.runners && TxnInv(list, t, t.open[q]) && PairInv(list, t, q) {
      assert q in s.open && q != r && TxnInv(list, s, s.open[q]) && PairInv(list, s, q);
    }
  }

  lemma KeptByAbort(list: seq<string>, s: State, r: nat)
    requires Inv(list, s) && AbortStep(s, r).Some?
    ensures Inv(list, AbortStep(s, r).value)
  {
    var t := AbortStep(s, r).value;
    forall q | q in t.runners ensures PlaceInv(list, t, t.runners[q]) {
      assert PlaceInv(list, s, s.runners[q]);
    }
    forall q | q in t.open ensures q in t.runners && TxnInv(list, t, t.open[q]) && PairInv(list, t, q) {
      assert q in s.open && q != r && TxnInv(list, s, s.open[q]) && PairInv(list, s, q);
    }
  }

  lemma InvKept(list: seq<string>, s: State, a: Action)
    requires Sorted(list) && Inv(list, s) && Step(list, s, a).Some?
    ensures Inv(list, Step(list, s, a).value)
  {
    match a
    case Act(r, act) => KeptByRunner(list, s, r, act);
    case Land(r) => KeptByLand(list, s, r);
    case Abort(r) => KeptByAbort(list, s, r);
  }

  lemma Reaches(list: seq<string>, actions: seq<Action>)
    requires Sorted(list) && Reached(list, actions).Some?
    ensures Inv(list, Reached(list, actions).value)
  {
    forall t: State, a | Inv(list, t) && Machine(list)(t, a).Some? ensures Inv(list, Machine(list)(t, a).value) {
      InvKept(list, t, a);
    }
    RunKeeps(Machine(list), (t: State) => Inv(list, t), Init(), actions);
  }
}
