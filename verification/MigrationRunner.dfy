/** RunMigrations as it runs against a database that nobody else is using; each call is proved to
    be a run of the transition system. */
module MigrationRunner {
  import opened Machines
  import opened MigrationModel
  import opened MigrationInvariant

  /** What goes wrong for one version. */
  datatype Fault = NoFault | CheckFails | ReadFault | BeginFails | BodyFails | RecordFails | CommitFails(landed: bool)

  /** Whether a version's turn ends the run; `present` says that it is recorded already. */
  predicate Ends(f: Fault, present: bool) {
    f == CheckFails || (!present && f != NoFault)
  }

  /** The first version, from the `i`-th on, whose turn ends the run; there are `present` recorded
      and `total` in all. */
  function FirstEnd(faults: nat -> Fault, present: nat, i: nat, total: nat): (e: nat)
    requires i <= total
    ensures i <= e <= total
    decreases total - i
  {
    if i == total || Ends(faults(i), i < present) then i else FirstEnd(faults, present, i + 1, total)
  }

  /** It is the first one: it ends the run, if it is a version at all, and none before it does. */
  lemma {:induction false} FirstEndIsFirst(faults: nat -> Fault, present: nat, i: nat, total: nat)
    requires i <= total
    ensures var e := FirstEnd(faults, present, i, total);
            && (forall k :: i <= k < e ==> !Ends(faults(k), k < present))
            && (e < total ==> Ends(faults(e), e < present))
    decreases total - i
  {
    if i >= total || Ends(faults(i), i < present) {
    } else {
      FirstEndIsFirst(faults, present, i + 1, total);
    }
  }

  /** How many versions are recorded after the run. */
  function PresentAfter(faults: nat -> Fault, present: nat, total: nat): nat {
    var e := FirstEnd(faults, present, 0, total);
    if e < present then present
    else if e < total && faults(e) == CommitFails(true) then e + 1
    else e
  }

  /** The state in which `me`, otherwise idle, is at `p` with the transaction `t` open. */
  ghost function Within(s: State, me: nat, p: Runner, t: Txn): State {
    To(s, me, p).(open := s.open[me := t])
  }

  lemma WithinAgain(s: State, me: nat, p: Runner, t: Txn, q: Runner, u: Txn)
    ensures Within(Within(s, me, p, t), me, q, u) == Within(s, me, q, u)
    ensures To(Within(s, me, p, t), me, q) == Within(s, me, q, t)
    ensures s.open == map[] ==> Within(s, me, p, t).(open := Within(s, me, p, t).open - {me}) == To(s, me, p)
  {
    assert s.runners[me := p][me := q] == s.runners[me := q];
    assert s.open[me := t][me := u] == s.open[me := u];
    assert s.open == map[] ==> s.open[me := t] - {me} == map[];
  }

  lemma StartSteps(list: seq<string>, s: State, me: nat, created: bool, ok: bool)
    requires me !in s.runners && me !in s.open && (ok ==> created)
    ensures Step(list, s, Act(me, Start)) == Some(To(s, me, Creating))
    ensures Step(list, To(s, me, Creating), Act(me, CreateTable(created, ok))) ==
            Some(To(s, me, if ok then At(0) else ReturnedError).(table := s.table || created))
  {
    assert s.runners[me := Creating][me := if ok then At(0) else ReturnedError] ==
           s.runners[me := if ok then At(0) else ReturnedError];
  }

  lemma BodySteps(list: seq<string>, s: State, me: nat, i: nat, ok: bool)
    requires me in s.runners && s.runners[me] == Missing(i) && i < |list|
    ensures var empty := Txn([], None, false);
            && Step(list, s, Act(me, Begin(true))) == Some(Within(s, me, Begun(i), empty))
            && Step(list, Within(s, me, Begun(i), empty), Act(me, ExecBody(ok))) ==
               Some(if ok then Within(s, me, Applied(i), Txn([list[i]], None, false))
                 else Within(s, me, ReturnedError, empty))
  {
    var empty := Txn([], None, false);
    WithinAgain(s, me, Begun(i), empty, if ok then Applied(i) else ReturnedError, Txn([list[i]], None, false));
    assert [] + [list[i]] == [list[i]];
  }

  lemma InsertSteps(list: seq<string>, s: State, me: nat, i: nat, ok: bool)
    requires s.open == map[] && i < |list| && list[i] !in s.recorded
    ensures var ran := Txn([list[i]], None, false);
            Step(list, Within(s, me, Applied(i), ran), Act(me, Insert(ok))) ==
            Some(if ok then Within(s, me, Recorded(i), ran.(inserted := Some(list[i])))
              else Within(s, me, ReturnedError, ran))
  {
    var ran := Txn([list[i]], None, false);
    WithinAgain(s, me, Applied(i), ran, if ok then Recorded(i) else ReturnedError, ran.(inserted := Some(list[i])));
  }

  lemma SendSteps(list: seq<string>, s: State, me: nat, i: nat)
    requires s.open == map[] && i < |list|
    ensures var full, sent := Txn([list[i]], Some(list[i]), false), Txn([list[i]], Some(list[i]), true);
            && Step(list, Within(s, me, Recorded(i), full), Act(me, SendCommit)) ==
              Some(Within(s, me, Committing(i), sent))
            && Step(list, Within(s, me, Committing(i), sent), Act(me, Answer(false))) ==
              Some(Within(s, me, ReturnedError, sent))
  {
    var full, sent := Txn([list[i]], Some(list[i]), false), Txn([list[i]], Some(list[i]), true);
    WithinAgain(s, me, Recorded(i), full, Committing(i), sent);
    WithinAgain(s, me, Committing(i), sent, ReturnedError, sent);
  }

  lemma LandSteps(list: seq<string>, s: State, me: nat, i: nat, ok: bool)
    requires s.open == map[] && i < |list|
    ensures var sent := Txn([list[i]], Some(list[i]), true);
            var landed := s.(recorded := s.recorded + [list[i]], bodies := s.bodies + [list[i]]);
            && Step(list, Within(s, me, Committing(i), sent), Land(me)) == Some(To(landed, me, Landed(i)))
            && Step(list, To(landed, me, Landed(i)), Act(me, Answer(ok))) ==
               Some(To(landed, me, if ok then At(i + 1) else ReturnedError))
  {
    var sent := Txn([list[i]], Some(list[i]), true);
    assert s.open[me := sent] - {me} == map[];
    assert s.runners[me := Committing(i)][me := Landed(i)] == s.runners[me := Landed(i)];
    var q := if ok then At(i + 1) else ReturnedError;
    assert s.runners[me := Landed(i)][me := q] == s.runners[me := q];
  }

  lemma AbortsClean(list: seq<string>, s: State, me: nat, p: Runner, t: Txn)
    requires s.open == map[]
    ensures Step(list, Within(s, me, p, t), Abort(me)) == Some(To(s, me, p))
  {
    WithinAgain(s, me, p, t, p, t);
  }

  lemma Then(list: seq<string>, s: State, acts: seq<Action>, t: State, a: Action, u: State) returns (more: seq<Action>)
    requires Run(Machine(list), s, acts) == Some(t) && Step(list, t, a) == Some(u)
    ensures Run(Machine(list), s, more) == Some(u)
  {
    RunSnoc(Machine(list), s, acts, a);
    more := acts + [a];
  }

  lemma StartRun(list: seq<string>, s: State, me: nat, created: bool, ok: bool) returns (acts: seq<Action>)
    requires me !in s.runners && me !in s.open && (ok ==> created)
    ensures Run(Machine(list), s, acts) ==
            Some(To(s, me, if ok then At(0) else ReturnedError).(table := s.table || created))
  {
    StartSteps(list, s, me, created, ok);
    var t := To(s, me, Creating);
    acts := Then(list, s, [], s, Act(me, Start), t);
    acts := Then(list, s, acts, t, Act(me, CreateTable(created, ok)),
                 To(s, me, if ok then At(0) else ReturnedError).(table := s.table || created));
  }

  /** The state after a transaction in which `f` goes wrong. */
  ghost function AfterTransaction(list: seq<string>, s: State, me: nat, i: nat, f: Fault): State
    requires i < |list|
  {
    if f == NoFault || f == CommitFails(true) then
      To(s.(recorded := s.recorded + [list[i]], bodies := s.bodies + [list[i]]),
         me, if f == NoFault then At(i + 1) else ReturnedError)
    else To(s, me, ReturnedError)
  }

  lemma RolledBack(list: seq<string>, s: State, me: nat, acts: seq<Action>, t: Txn) returns (more: seq<Action>)
    requires s.open == map[] && Run(Machine(list), s, acts) == Some(Within(s, me, ReturnedError, t))
    ensures Run(Machine(list), s, more) == Some(To(s, me, ReturnedError))
  {
    AbortsClean(list, s, me, ReturnedError, t);
    more := Then(list, s, acts, Within(s, me, ReturnedError, t), Abort(me), To(s, me, ReturnedError));
  }

  lemma TransactionRun(list: seq<string>, s: State, me: nat, i: nat, f: Fault) returns (acts: seq<Action>)
    requires me in s.runners && s.runners[me] == Missing(i) && i < |list| && s.open == map[] && list[i] !in s.recorded
    requires f == NoFault || f == BodyFails || f == RecordFails || f.CommitFails?
    ensures Run(Machine(list), s, acts) == Some(AfterTransaction(list, s, me, i, f))
  {
    var empty, ran := Txn([], None, false), Txn([list[i]], None, false);
    var full := Txn([list[i]], Some(list[i]), false);
    BodySteps(list, s, me, i, f != BodyFails);
    acts := Then(list, s, [], s, Act(me, Begin(true)), Within(s, me, Begun(i), empty));
    if f == BodyFails {
      acts := Then(list, s, acts, Within(s, me, Begun(i), empty), Act(me, ExecBody(false)),
        Within(s, me, ReturnedError, empty));
      acts := RolledBack(list, s, me, acts, empty);
    } else {
      acts := Then(list, s, acts, Within(s, me, Begun(i), empty), Act(me, ExecBody(true)),
        Within(s, me, Applied(i), ran));
      InsertSteps(list, s, me, i, f != RecordFails);
      if f == RecordFails {
        acts := Then(list, s, acts, Within(s, me, Applied(i), ran), Act(me, Insert(false)),
          Within(s, me, ReturnedError, ran));
        acts := RolledBack(list, s, me, acts, ran);
      } else {
        acts := Then(list, s, acts, Within(s, me, Applied(i), ran), Act(me, Insert(true)),
          Within(s, me, Recorded(i), full));
        acts := CommitRun(list, s, me, i, f, acts);
      }
    }
  }

  /** The commit, and how it ends. */
  lemma CommitRun(list: seq<string>, s: State, me: nat, i: nat, f: Fault, acts: seq<Action>) returns (more: seq<Action>)
    requires i < |list| && s.open == map[] && (f == NoFault || f.CommitFails?)
    requires Run(Machine(list), s, acts) == Some(Within(s, me, Recorded(i), Txn([list[i]], Some(list[i]), false)))
    ensures Run(Machine(list), s, more) == Some(AfterTransaction(list, s, me, i, f))
  {
    var full, sent := Txn([list[i]], Some(list[i]), false), Txn([list[i]], Some(list[i]), true);
    SendSteps(list, s, me, i);
    more := Then(list, s, acts, Within(s, me, Recorded(i), full), Act(me, SendCommit),
      Within(s, me, Committing(i), sent));
    if f == CommitFails(false) {
      more := Then(list, s, more, Within(s, me, Committing(i), sent), Act(me, Answer(false)),
        Within(s, me, ReturnedError, sent));
      more := RolledBack(list, s, me, more, sent);
    } else {
      LandSteps(list, s, me, i, f == NoFault);
      var landed := s.(recorded := s.recorded + [list[i]], bodies := s.bodies + [list[i]]);
      more := Then(list, s, more, Within(s, me, Committing(i), sent), Land(me), To(landed, me, Landed(i)));
      more := Then(list, s, more, To(landed, me, Landed(i)), Act(me, Answer(f == NoFault)),
        AfterTransaction(list, s, me, i, f));
    }
  }

  class Database {
    const entries: seq<DirEntry>
    var table: bool
    var recorded: seq<string>
    var bodies: seq<string>

    ghost var trace: seq<Action>
    ghost var machine: State

    /** The versions in the order in which a run takes them. */
    ghost function List(): seq<string> { Versions(SortByName(entries)) }

    ghost predicate Tracks()
      reads this
    {
      && Reached(List(), trace) == Some(machine)
      && machine.table == table && machine.recorded == recorded && machine.bodies == bodies
    }

    /** Between runs no transaction is open. */
    ghost predicate Valid()
      reads this
    {
      DistinctNames(entries) && Sorted(List()) && Tracks() && machine.open == map[]
    }

    constructor (entries: seq<DirEntry>)
      requires DistinctNames(entries)
      ensures Valid() && this.entries == entries && machine == Init()
    {
      SortAscends(entries);
      this.entries := entries;
      table, recorded, bodies, trace, machine := false, [], [], [], Init();
    }

    /** Account for some actions of the machine. */
    ghost method Do(acts: seq<Action>, t: State)
      requires Reached(List(), trace) == Some(machine) && Run(Machine(List()), machine, acts) == Some(t)
      modifies `trace, `machine
      ensures Reached(List(), trace) == Some(machine) && machine == t && old(trace) <= trace
    {
      RunConcat(Machine(List()), Init(), trace, acts);
      machine, trace := t, trace + acts;
    }

    /** The run `me` is at `p`. */
    ghost predicate Stands(me: nat, p: Runner)
      reads this
    {
      me in machine.runners && machine.runners[me] == p
    }

    /** Account for an action of this run that changes neither table nor transaction. */
    ghost method Turn(me: nat, p: Runner, a: RunnerAct, q: Runner)
      requires Valid() && Stands(me, p) && RunnerStep(List(), machine, me, a) == Some(To(machine, me, q))
      modifies `trace, `machine
      ensures Valid() && Stands(me, q) && old(trace) <= trace
    {
      var acts := Then(List(), machine, [], machine, Act(me, a), To(machine, me, q));
      Do(acts, To(machine, me, q));
    }

    /** CREATE TABLE IF NOT EXISTS. */
    method CreateTable(ghost me: nat, created: bool, ok: bool)
      requires Valid() && me !in machine.runners && (ok ==> created)
      modifies this
      ensures Valid() && Stands(me, if ok then At(0) else ReturnedError) && old(trace) <= trace
      ensures table == (old(table) || created) && recorded == old(recorded) && bodies == old(bodies)
    {
      ghost var acts := StartRun(List(), machine, me, created, ok);
      Do(acts, To(machine, me, if ok then At(0) else ReturnedError).(table := machine.table || created));
      table := table || created;
    }

    /** SELECT EXISTS. */
    method Exists(ghost me: nat, ghost i: nat, version: string, fails: bool) returns (ok: bool, present: bool)
      requires Valid() && Stands(me, At(i)) && i < |List()| && version == List()[i]
      modifies `trace, `machine
      ensures Valid() && old(trace) <= trace
      ensures ok == !fails && present == (i < |recorded|)
      ensures Stands(me, if !ok then ReturnedError else if present then At(i + 1) else Missing(i))
    {
      Reaches(List(), trace);
      RecordedIff(List(), machine, i);
      ok, present := !fails, version in recorded;
      Turn(me, At(i), Check(ok), if !ok then ReturnedError else if present then At(i + 1) else Missing(i));
    }

    /** One version that is not recorded: read the file, then its transaction. */
    method Apply(ghost me: nat, ghost i: nat, version: string, f: Fault) returns (ok: bool)
      requires Valid() && Stands(me, Missing(i)) && i < |List()| && version == List()[i] && i == |recorded|
      requires f != CheckFails
      modifies `recorded, `bodies, `trace, `machine
      ensures Valid() && old(trace) <= trace && ok == (f == NoFault)
      ensures Stands(me, if ok then At(i + 1) else ReturnedError)
      ensures recorded == old(recorded) + (if ok || f == CommitFails(true) then [version] else [])
    {
      if f == ReadFault {
        Turn(me, Missing(i), ReadFails, ReturnedError);
        return false;
      }
      if f == BeginFails {
        Turn(me, Missing(i), RunnerAct.Begin(false), ReturnedError);
        return false;
      }
      ok := Transact(me, i, version, f);
    }

    /** The transaction of one version: body, record, commit; whatever fails before the commit is
        rolled back. */
    method Transact(ghost me: nat, ghost i: nat, version: string, f: Fault) returns (ok: bool)
      requires Valid() && Stands(me, Missing(i)) && i < |List()| && version == List()[i] && i == |recorded|
      requires f == NoFault || f == BodyFails || f == RecordFails || f.CommitFails?
      modifies `recorded, `bodies, `trace, `machine
      ensures Valid() && old(trace) <= trace && ok == (f == NoFault)
      ensures Stands(me, if ok then At(i + 1) else ReturnedError)
      ensures recorded == old(recorded) + (if ok || f == CommitFails(true) then [version] else [])
    {
      IsMissing(i);
      ghost var acts := TransactionRun(List(), machine, me, i, f);
      Do(acts, AfterTransaction(List(), machine, me, i, f));
      if f == BodyFails {
        return false;
      }
      var ran := [version];
      if f == RecordFails {
        return false;
      }
      var inserted := [version];
      if f == CommitFails(false) {
        return false;
      }
      recorded, bodies := recorded + inserted, bodies + ran;
      ok := f == NoFault;
    }

    lemma TableIsPrefix()
      requires Sorted(List()) && Tracks()
      ensures |recorded| <= |List()| && recorded == bodies == List()[..|recorded|]
    {
      Reaches(List(), trace);
    }

    lemma IsMissing(i: nat)
      requires Sorted(List()) && Tracks() && i < |List()| && i == |recorded|
      ensures List()[i] !in recorded
    {
      Reaches(List(), trace);
      RecordedIff(List(), machine, i);
    }

    /** One version: nothing if it is recorded, otherwise its transaction. */
    method TakeVersion(ghost me: nat, ghost i: nat, version: string, f: Fault) returns (ok: bool)
      requires Valid() && Stands(me, At(i)) && i < |List()| && version == List()[i] && i <= |recorded|
      modifies `recorded, `bodies, `trace, `machine
      ensures Valid() && old(trace) <= trace && ok == !Ends(f, i < |old(recorded)|)
      ensures Stands(me, if ok then At(i + 1) else ReturnedError)
      ensures |recorded| == |old(recorded)| + if i == |old(recorded)| && (ok || f == CommitFails(true)) then 1 else 0
    {
      var checked, present := Exists(me, i, version, f == CheckFails);
      if !checked {
        return false;
      }
      if present {
        return true;
      }
      ok := Apply(me, i, version, f);
    }

    /** The loop over the sorted directory entries. */
    method ApplyAll(ghost me: nat, sorted: seq<DirEntry>, faults: nat -> Fault) returns (ok: bool)
      requires Valid() && Stands(me, At(0)) && sorted == SortByName(entries)
      modifies `recorded, `bodies, `trace, `machine
      ensures Valid() && old(trace) <= trace && Stands(me, if ok then ReturnedNil else ReturnedError)
      ensures ok <==> FirstEnd(faults, |old(recorded)|, 0, |List()|) == |List()|
      ensures |recorded| == PresentAfter(faults, |old(recorded)|, |List()|)
    {
      TableIsPrefix();
      ghost var present, total := |recorded|, |List()|;
      var i := 0;
      for j := 0 to |sorted|
        invariant Valid() && old(trace) <= trace && Stands(me, At(i))
        invariant i <= total && Versions(sorted[..j]) == List()[..i]
        invariant FirstEnd(faults, present, 0, total) == FirstEnd(faults, present, i, total)
        invariant |recorded| == if i < present then present else i
      {
        if sorted[j].isDir {
          SkippedVersion(sorted, j);
          continue;
        }
        NextVersion(sorted, j, i);
        var version := sorted[j].name;
        var taken := TakeVersion(me, i, version, faults(i));
        if !taken {
          return false;
        }
        i := i + 1;
      }
      assert sorted[..|sorted|] == sorted;
      Turn(me, At(i), Finish, ReturnedNil);
      ok := true;
    }

    /** RunMigrations, for the run `me`. The table was created if `created`; that call reported
        success if `createOk`. What ends the run, and how much is recorded then, follows from the
        faults; the bodies in effect are those of the recorded versions (Valid). */
    method RunMigrations(ghost me: nat, created: bool, createOk: bool, faults: nat -> Fault) returns (ok: bool)
      requires Valid() && me !in machine.runners && (createOk ==> created)
      modifies this
      ensures Valid() && old(trace) <= trace && Stands(me, if ok then ReturnedNil else ReturnedError)
      ensures ok <==> createOk && FirstEnd(faults, |old(recorded)|, 0, |List()|) == |List()|
      ensures |recorded| <= |List()| && recorded == bodies == List()[..|recorded|]
      ensures |recorded| == if createOk then PresentAfter(faults, |old(recorded)|, |List()|) else |old(recorded)|
    {
      CreateTable(me, created, createOk);
      ok := createOk;
      if ok {
        ok := ApplyAll(me, SortByName(entries), faults);
      }
      TableIsPrefix();
    }
  }

  /** The versions of the first entries are the first versions. */
  lemma {:induction false} VersionsPrefix(entries: seq<DirEntry>, j: nat)
    requires j <= |entries|
    ensures Versions(entries[..j]) <= Versions(entries)
    decreases |entries|
  {
    if j == |entries| {
      assert entries[..j] == entries;
    } else {
      VersionsPrefix(entries[..|entries| - 1], j);
      assert entries[..|entries| - 1][..j] == entries[..j];
    }
  }

  lemma SkippedVersion(entries: seq<DirEntry>, j: nat)
    requires j < |entries| && entries[j].isDir
    ensures Versions(entries[..j + 1]) == Versions(entries[..j])
  {
    assert entries[..j + 1][..j] == entries[..j];
  }

  lemma NextVersion(entries: seq<DirEntry>, j: nat, i: nat)
    requires j < |entries| && !entries[j].isDir && i <= |Versions(entries)|
    requires Versions(entries[..j]) == Versions(entries)[..i]
    ensures i < |Versions(entries)| && Versions(entries)[i] == entries[j].name
    ensures Versions(entries[..j + 1]) == Versions(entries)[..i + 1]
  {
    VersionsPrefix(entries, j + 1);
    VersionsSnoc(entries, j);
    PrefixExtends(Versions(entries), Versions(entries[..j + 1]), entries[j].name, i);
  }

  lemma VersionsSnoc(entries: seq<DirEntry>, j: nat)
    requires j < |entries| && !entries[j].isDir
    ensures Versions(entries[..j + 1]) == Versions(entries[..j]) + [entries[j].name]
  {
    assert entries[..j + 1][..j] == entries[..j];
  }

  lemma PrefixExtends(all: seq<string>, longer: seq<string>, name: string, i: nat)
    requires i <= |all| && longer <= all && longer == all[..i] + [name]
    ensures i < |all| && all[i] == name && longer == all[..i + 1]
  {
    assert longer[i] == name;
  }
}
