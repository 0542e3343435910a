/** What evaluation, approval and execution promise, over every run. */
module ApprovalTheorems {
  import opened Identities
  import opened Machines
  import opened Policy
  import opened ApprovalTable
  import opened ApprovalModel
  import opened ApprovalInvariant

  // ---------- at most once ----------

  /** However requests, crashes and late statements interleave, no approval is executed twice,
      and no approval has two outstanding claims, live or abandoned. */
  lemma ExecutedAtMostOnce(c: Config, actions: seq<Action>)
    requires Reached(c, actions).Some?
    ensures var s := Reached(c, actions).value;
            && (forall i, j :: 0 <= i < j < |s.executions| ==> s.executions[i].id != s.executions[j].id)
            && (forall g, h ::
                  g in s.handlers && h in s.handlers && Holds(s.handlers[g]) && Holds(s.handlers[h]) &&
                  s.handlers[g].id == s.handlers[h].id
                  ==> g == h)
            && (forall h :: h in s.handlers && Holds(s.handlers[h]) ==>
                  s.handlers[h].id in s.owner && s.owner[s.handlers[h].id] == h)
  {
    Reaches(c, actions);
  }

  /** A row says what happened: EXECUTED rows, and only rows past approval, have an execution;
      executed_at is set exactly then; EXECUTING is exactly an outstanding claim. */
  lemma StatusMeaning(c: Config, actions: seq<Action>, id: nat)
    requires Reached(c, actions).Some? && id in Reached(c, actions).value.rows
    ensures var s := Reached(c, actions).value; var row := s.rows[id];
            && (row.executedAt.Some? <==> row.status == Executed)
            && (row.status == Executing <==> id in s.owner)
            && (row.status == Executed ==> Ran(s, id))
            && (Ran(s, id) ==> row.status == Executed || row.status == Executing)
  {
    Reaches(c, actions);
    var s := Reached(c, actions).value;
    if Ran(s, id) {
      var x :| x in s.executions && x.id == id;
      assert Accounted(s, x);
    }
  }

  /** A success event is only ever written for an EXECUTED row. */
  lemma SuccessEvents(c: Config, actions: seq<Action>, e: ToolEvent)
    requires Reached(c, actions).Some? && e in Reached(c, actions).value.events && e.succeeded
    ensures var s := Reached(c, actions).value; e.id in s.rows && s.rows[e.id].status == Executed && Ran(s, e.id)
  {
    Reaches(c, actions);
  }

  // ---------- what is executed is what was approved ----------

  lemma ExecutableTools(c: Config, s: State, a: Action)
    requires AllExecutable(s) && Step(c, s, a).Some?
    ensures AllExecutable(Step(c, s, a).value)
  {
    match a {
      case Evaluate(principal, tool, arguments) =>
        assert EvaluateStep(c, s, principal, tool, arguments).executions == s.executions;
      case Resolve(principal, id, approve) =>
        assert ResolveStep(s, principal, id, approve).executions == s.executions;
      case Serve(h, act) =>
        if act.Answer? {
          assert AnswerStep(c, s, h).value.executions == s.executions;
        } else {
          NewExecution(s, h, act);
        }
    }
  }

  lemma NewExecution(s: State, h: nat, act: HandlerAct)
    requires ServeStep(s, h, act).Some?
    ensures var t := ServeStep(s, h, act).value;
            t.executions == s.executions ||
            (|t.executions| > 0 && t.executions == s.executions + [t.executions[|t.executions| - 1]] &&
             Policy.Execute(false, t.executions[|t.executions| - 1].tool).Some?)
  {
    if act.Late? {
      var p := s.handlers[h];
      assert ServeStep(s, h, act) == Some(At(Effect(s, h, p.id, p.statement), h, Gone(p.code)));
    } else if !act.Execute? {
      QuietMoves(s, h, act);
    }
  }

  ghost predicate AllExecutable(s: State) {
    forall x :: x in s.executions ==> Policy.Execute(false, x.tool).Some?
  }

  /** Every executed call was evaluated, with that same tool and arguments, to require approval,
      and then approved by an admin; it is an external email of a non-analyst or an unprotected
      customer update by sales, whatever snapshot the handler worked from. */
  lemma ExecutedWasApproved(c: Config, actions: seq<Action>, x: Execution)
    requires Reached(c, actions).Some? && x in Reached(c, actions).value.executions
    ensures var s := Reached(c, actions).value;
            && x.id in s.requests && s.requests[x.id].tool == x.tool && s.requests[x.id].arguments == x.arguments
            && x.id in s.grants && s.grants[x.id].role == ADMIN
            && Sensitive(c.words, ToolCall(x.tool, x.arguments, s.requests[x.id].principal))
  {
    Reaches(c, actions);
    var s := Reached(c, actions).value;
    assert Accounted(s, x);
    forall t, a | AllExecutable(t) && Machine(c)(t, a).Some?
      ensures AllExecutable(Machine(c)(t, a).value)
    {
      ExecutableTools(c, t, a);
    }
    RunKeeps(Machine(c), t => AllExecutable(t), Init(), actions);
    ApprovedAndExecutable(c.words, ToolCall(x.tool, x.arguments, s.requests[x.id].principal));
  }

  // ---------- the two stores ----------

  /** A live holder's finish or fail, when it is sent, always finds exactly its row. */
  lemma HolderFindsRow(c: Config, actions: seq<Action>, h: nat)
    requires Reached(c, actions).Some?
    requires var s := Reached(c, actions).value;
             h in s.handlers && (s.handlers[h].Failing? || s.handlers[h].Finishing?)
    ensures var s := Reached(c, actions).value;
            Affects(s.rows, s.handlers[h].id, PendingStatement(s.handlers[h]).value)
  {
    Reaches(c, actions);
    HolderAffects(Reached(c, actions).value, h);
  }

  lemma HolderAffects(s: State, h: nat)
    requires OwnerInv(s) && h in s.handlers && (s.handlers[h].Failing? || s.handlers[h].Finishing?)
    ensures Affects(s.rows, s.handlers[h].id, PendingStatement(s.handlers[h]).value)
  {
    HolderRow(s, h);
  }

  lemma SameStep(c: Config, d: Config, s: State, a: Action)
    requires c.words == d.words && OwnerInv(s)
    ensures Step(c, s, a) == Step(d, s, a)
  {
    if a.Serve? && a.act.Answer? {
      if a.h in s.handlers && s.handlers[a.h].Finishing? {
        HolderAffects(s, a.h);
      }
      assert AnswerStep(c, s, a.h) == AnswerStep(d, s, a.h);
    }
  }

  /** So the store that checks affected rows and the one that does not run alike: the same
      actions are possible and lead to the same states. */
  lemma {:induction false} StoresAgree(words: Words, actions: seq<Action>)
    ensures Reached(Config(words, true), actions) == Reached(Config(words, false), actions)
    decreases |actions|
  {
    if |actions| == 0 {
    } else {
      var c, d, n := Config(words, true), Config(words, false), |actions| - 1;
      StoresAgree(words, actions[..n]);
      if Reached(c, actions[..n]).Some? {
        Reaches(c, actions[..n]);
        SameStep(c, d, Reached(c, actions[..n]).value, actions[n]);
      }
    }
  }

  // ---------- what stays ----------

  /** The life of a row: an execution mark never changes, a rejection is final, and a row only
      becomes EXECUTED from EXECUTING. */
  ghost predicate Lives(before: Row, after: Row) {
    && after.tool == before.tool && after.arguments == before.arguments
    && (before.status == Executed ==> after == before)
    && (before.status == Rejected ==> after.status == Rejected)
    && (before.status != Pending ==> after.status != Pending)
  }

  lemma ApplyLives(rows: Table, i: nat, statement: Statement, id: nat)
    requires id in rows
    ensures id in Apply(rows, i, statement) && Lives(rows[id], Apply(rows, i, statement)[id])
  {
  }

  /** Only statements that take effect change the table. */
  lemma ServeRows(s: State, h: nat, act: HandlerAct)
    requires ServeStep(s, h, act).Some?
    ensures act.Late? ==> h in s.handlers && s.handlers[h].Uncertain? &&
                          ServeStep(s, h, act).value.rows == Apply(s.rows, s.handlers[h].id, s.handlers[h].statement)
    ensures !act.Late? ==> ServeStep(s, h, act).value.rows == s.rows && ServeStep(s, h, act).value.owner == s.owner
  {
    if act.Late? {
      var p := s.handlers[h];
      assert ServeStep(s, h, act) == Some(At(Effect(s, h, p.id, p.statement), h, Gone(p.code)));
    } else if !act.Execute? {
      QuietMoves(s, h, act);
    }
  }

  lemma LivesStep(c: Config, s: State, a: Action, id: nat)
    requires RowInv(c, s) && Step(c, s, a).Some? && id in s.rows
    ensures id in Step(c, s, a).value.rows && Lives(s.rows[id], Step(c, s, a).value.rows[id])
  {
    match a {
      case Evaluate(principal, tool, arguments) =>
        assert s.nextID !in s.rows;
      case Resolve(principal, i, approve) =>
        ApplyLives(s.rows, i, SetStatus(if approve then Approved else Rejected), id);
      case Serve(h, act) =>
        ServeLives(c, s, h, act, id);
    }
  }

  lemma ServeLives(c: Config, s: State, h: nat, act: HandlerAct, id: nat)
    requires Step(c, s, Serve(h, act)).Some? && id in s.rows
    ensures var t := Step(c, s, Serve(h, act)).value; id in t.rows && Lives(s.rows[id], t.rows[id])
  {
    if act.Answer? {
      var p := s.handlers[h];
      assert AnswerStep(c, s, h).value.rows == Apply(s.rows, p.id, PendingStatement(p).value);
      ApplyLives(s.rows, p.id, PendingStatement(p).value, id);
    } else {
      ServeRows(s, h, act);
      if act.Late? {
        ApplyLives(s.rows, s.handlers[h].id, s.handlers[h].statement, id);
      }
    }
  }

  lemma RowLife(c: Config, before: seq<Action>, after: seq<Action>, id: nat)
    requires Reached(c, before).Some? && Reached(c, before + after).Some?
    requires id in Reached(c, before).value.rows
    ensures id in Reached(c, before + after).value.rows
    ensures Lives(Reached(c, before).value.rows[id], Reached(c, before + after).value.rows[id])
  {
    Reaches(c, before);
    RunConcat(Machine(c), Init(), before, after);
    var s := Reached(c, before).value;
    var inv := (t: State) => Inv(c, t) && id in t.rows && Lives(s.rows[id], t.rows[id]);
    forall t, a | inv(t) && Machine(c)(t, a).Some?
      ensures inv(Machine(c)(t, a).value)
    {
      InvKept(c, t, a);
      LivesStep(c, t, a, id);
    }
    RunKeeps(Machine(c), inv, s, after);
  }

  // ---------- abandoned claims ----------

  /** The request sends no statement any more: it is gone, or its context is cancelled. One whose
      last call has reported an error has sent it before. */
  predicate Silenced(s: State, h: nat)
    requires h in s.handlers
  {
    s.handlers[h].Gone? || (h in s.cancelled && !s.handlers[h].Uncertain?)
  }

  ghost predicate Abandoned(s: State, id: nat, h: nat) {
    && id in s.owner && s.owner[id] == h && h in s.handlers && Silenced(s, h)
    && id in s.rows && s.rows[id].status == Executing
  }

  lemma EffectElsewhere(s: State, g: nat, i: nat, statement: Statement, id: nat, h: nat)
    requires OwnerInv(s) && Abandoned(s, id, h) && !statement.SetStatus?
    requires statement.Claim? || i != id
    ensures var t := Effect(s, g, i, statement);
            && id in t.owner && t.owner[id] == h && id in t.rows && t.rows[id].status == Executing
            && t.handlers == s.handlers && t.cancelled == s.cancelled
  {
  }

  lemma AbandonedStep(c: Config, s: State, a: Action, id: nat, h: nat)
    requires Inv(c, s) && Abandoned(s, id, h) && Step(c, s, a).Some?
    ensures Abandoned(Step(c, s, a).value, id, h)
  {
    if a.Serve? && a.act.Answer? {
      AbandonedAnswer(c, s, a.h, id, h);
    } else if a.Serve? {
      AbandonedServe(s, a.h, a.act, id, h);
    } else {
      assert s.nextID !in s.rows;
    }
  }

  lemma AbandonedAnswer(c: Config, s: State, g: nat, id: nat, h: nat)
    requires OwnerInv(s) && Abandoned(s, id, h) && AnswerStep(c, s, g).Some?
    ensures Abandoned(AnswerStep(c, s, g).value, id, h)
  {
    EffectElsewhere(s, g, s.handlers[g].id, PendingStatement(s.handlers[g]).value, id, h);
  }

  lemma AbandonedServe(s: State, g: nat, act: HandlerAct, id: nat, h: nat)
    requires OwnerInv(s) && Abandoned(s, id, h) && ServeStep(s, g, act).Some?
    ensures Abandoned(ServeStep(s, g, act).value, id, h)
  {
    if g == h {
      SilencedStays(s, h, act);
      assert !act.Late?;
    } else {
      OthersStay(s, g, act);
      if act.Late? {
        EffectElsewhere(s, g, s.handlers[g].id, s.handlers[g].statement, id, h);
      }
    }
    ServeRows(s, g, act);
  }

  lemma OthersStay(s: State, g: nat, act: HandlerAct)
    requires ServeStep(s, g, act).Some?
    ensures var t := ServeStep(s, g, act).value;
            && g in t.handlers && t.handlers == s.handlers[g := t.handlers[g]]
            && s.cancelled <= t.cancelled <= s.cancelled + {g}
            && (act.Late? ==>
                  && g in s.handlers && s.handlers[g].Uncertain?
                  && t.owner == Effect(s, g, s.handlers[g].id, s.handlers[g].statement).owner)
  {
    if act.Late? {
      var p := s.handlers[g];
      assert ServeStep(s, g, act) == Some(At(Effect(s, g, p.id, p.statement), g, Gone(p.code)));
    } else {
      OneMoves(s, g, act);
    }
  }

  lemma OneMoves(s: State, g: nat, act: HandlerAct)
    requires ServeStep(s, g, act).Some? && !act.Late?
    ensures var t := ServeStep(s, g, act).value;
            && g in t.handlers && t.handlers == s.handlers[g := t.handlers[g]]
            && s.cancelled <= t.cancelled <= s.cancelled + {g}
  {
    CancelledAfter(s, g, act);
    if act.Execute? {
      assert g in s.handlers && s.handlers[g].Running?;
    } else {
      QuietMoves(s, g, act);
    }
  }

  lemma CancelledAfter(s: State, g: nat, act: HandlerAct)
    requires ServeStep(s, g, act).Some?
    ensures ServeStep(s, g, act).value.cancelled == if act.Cancel? then s.cancelled + {g} else s.cancelled
  {
  }

  /** Only requests that have begun are cancelled. */
  lemma OnlyRequestsAreCancelled(c: Config, actions: seq<Action>, h: nat)
    requires Reached(c, actions).Some? && h in Reached(c, actions).value.cancelled
    ensures h in Reached(c, actions).value.handlers
  {
    var inv := (s: State) => s.cancelled <= s.handlers.Keys;
    forall s, a | inv(s) && Machine(c)(s, a).Some? ensures inv(Machine(c)(s, a).value) {
      RequestsStay(c, s, a);
    }
    RunKeeps(Machine(c), inv, Init(), actions);
  }

  lemma RequestsStay(c: Config, s: State, a: Action)
    requires Step(c, s, a).Some?
    ensures var t := Step(c, s, a).value;
            s.handlers.Keys <= t.handlers.Keys && t.cancelled <= s.cancelled + t.handlers.Keys
  {
    if a.Serve? {
      if a.act.Answer? {
        assert AnswerStep(c, s, a.h).value.cancelled == s.cancelled;
      } else {
        OthersStay(s, a.h, a.act);
      }
    }
  }

  lemma SilencedStays(s: State, h: nat, act: HandlerAct)
    requires h in s.handlers && Silenced(s, h) && ServeStep(s, h, act).Some?
    ensures h in ServeStep(s, h, act).value.handlers && Silenced(ServeStep(s, h, act).value, h)
  {
    CancelledAfter(s, h, act);
  }

  /** What a handler does next, undisturbed, until its last statement takes effect. */
  function Release(p: Handler): HandlerAct {
    match p
    case Starting(_, _) => Audit(true)
    case Decoding(_, _) => Decode(true)
    case Running(_, _) => HandlerAct.Execute(0)
    case Uncertain(_, _, _) => Late
    case _ => Answer
  }

  function ReleaseRank(p: Handler): nat {
    match p
    case Starting(_, _) => 4
    case Decoding(_, _) => 3
    case Running(_, _) => 2
    case _ => 1
  }

  /** Closer to the end of the claim. */
  ghost predicate Nearer(s: State, t: State, id: nat, h: nat)
    requires h in s.handlers
  {
    id in t.rows &&
    (t.rows[id].status != Executing ||
     (h in t.handlers && Holds(t.handlers[h]) && !Silenced(t, h) && t.handlers[h].id == id &&
      ReleaseRank(t.handlers[h]) < ReleaseRank(s.handlers[h])))
  }

  lemma ReleaseStep(c: Config, s: State, id: nat, h: nat)
    requires OwnerInv(s) && h in s.handlers && Holds(s.handlers[h]) && !Silenced(s, h)
    requires s.handlers[h].id == id
    ensures Step(c, s, Serve(h, Release(s.handlers[h]))).Some?
    ensures Nearer(s, Step(c, s, Serve(h, Release(s.handlers[h]))).value, id, h)
  {
    HolderRow(s, h);
    if Release(s.handlers[h]).Answer? {
      assert AnswerStep(c, s, h).Some?;
    } else {
      ReleaseServe(s, id, h);
    }
  }

  lemma ReleaseServe(s: State, id: nat, h: nat)
    requires h in s.handlers && Holds(s.handlers[h]) && !Silenced(s, h) && s.handlers[h].id == id
    requires !Release(s.handlers[h]).Answer?
    requires id in s.rows && s.rows[id].status == Executing
    ensures ServeStep(s, h, Release(s.handlers[h])).Some?
    ensures Nearer(s, ServeStep(s, h, Release(s.handlers[h])).value, id, h)
  {
  }

  lemma {:induction false} HolderCanRelease(c: Config, s: State, id: nat, h: nat) returns (more: seq<Action>)
    requires Inv(c, s) && h in s.handlers && Holds(s.handlers[h]) && !Silenced(s, h) && s.handlers[h].id == id
    ensures Run(Machine(c), s, more).Some?
    ensures id in Run(Machine(c), s, more).value.rows && Run(Machine(c), s, more).value.rows[id].status != Executing
    decreases ReleaseRank(s.handlers[h])
  {
    var a := Serve(h, Release(s.handlers[h]));
    ReleaseStep(c, s, id, h);
    InvKept(c, s, a);
    var t := Step(c, s, a).value;
    RunSnoc(Machine(c), s, [], a);
    assert [] + [a] == [a];
    if t.rows[id].status != Executing {
      more := [a];
    } else {
      var rest := HolderCanRelease(c, t, id, h);
      RunConcat(Machine(c), s, [a], rest);
      more := [a] + rest;
    }
  }

  ghost predicate CanLeave(c: Config, actions: seq<Action>, id: nat) {
    exists more ::
      && Reached(c, actions + more).Some?
      && id in Reached(c, actions + more).value.rows
      && Reached(c, actions + more).value.rows[id].status != Executing
  }

  /** An EXECUTING row can ever leave that status exactly if its claim holder is not silenced: if
      it is still there and its context is not cancelled, whether or not its tool has run, or if
      its last statement was sent and, though the call reported an error, is not lost. */
  lemma ReleasableIff(c: Config, actions: seq<Action>, id: nat)
    requires Reached(c, actions).Some?
    requires id in Reached(c, actions).value.rows && Reached(c, actions).value.rows[id].status == Executing
    ensures var s := Reached(c, actions).value;
            id in s.owner && s.owner[id] in s.handlers &&
            (CanLeave(c, actions, id) <==> !Silenced(s, s.owner[id]))
  {
    Reaches(c, actions);
    var s := Reached(c, actions).value;
    assert id in s.owner;
    var h := s.owner[id];
    if Silenced(s, h) {
      forall more | Reached(c, actions + more).Some?
        ensures id in Reached(c, actions + more).value.rows
        ensures Reached(c, actions + more).value.rows[id].status == Executing
      {
        StaysAbandoned(c, actions, more, id, h);
      }
    } else {
      var more := HolderCanRelease(c, s, id, h);
      RunConcat(Machine(c), Init(), actions, more);
    }
  }

  lemma StaysAbandoned(c: Config, before: seq<Action>, after: seq<Action>, id: nat, h: nat)
    requires Reached(c, before).Some? && Reached(c, before + after).Some?
    requires Abandoned(Reached(c, before).value, id, h)
    ensures Abandoned(Reached(c, before + after).value, id, h)
  {
    Reaches(c, before);
    RunConcat(Machine(c), Init(), before, after);
    var inv := (t: State) => Inv(c, t) && Abandoned(t, id, h);
    forall t, a | inv(t) && Machine(c)(t, a).Some?
      ensures inv(Machine(c)(t, a).value)
    {
      InvKept(c, t, a);
      AbandonedStep(c, t, a, id, h);
    }
    RunKeeps(Machine(c), inv, Reached(c, before).value, after);
  }

  // ---------- how claims are abandoned ----------

  lemma Extend(c: Config, actions: seq<Action>, s: State, a: Action, t: State) returns (more: seq<Action>)
    requires Reached(c, actions) == Some(s) && Step(c, s, a) == Some(t)
    ensures more == actions + [a] && Reached(c, more) == Some(t)
  {
    RunSnoc(Machine(c), Init(), actions, a);
    more := actions + [a];
  }

  const SELLER := Identity("", SALES, "", 0)
  const BOSS := Identity("", ADMIN, "", 0)
  const UPDATE := Row("update_customer", map[], 70, "sales customer mutation requires approval", Approved, None)

  /** Sales ask for an update of no field, an admin approves and executes it, up to the claim. */
  lemma UpToClaim(c: Config) returns (actions: seq<Action>, s: State)
    ensures Reached(c, actions) == Some(s) && s.executions == [] && s.cancelled == {}
    ensures s.rows == map[1 := UPDATE] && s.handlers == map[0 := Claiming(1, UPDATE)]
  {
    actions := UpToApproval(c);
    var before := WhenApproved();
    var s3 := At(before, 0, Reading(1));
    actions := Extend(c, actions, before, Serve(0, Begin(BOSS, 1)), s3);
    var s4 := At(s3, 0, Checking(1, UPDATE));
    actions := Extend(c, actions, s3, Serve(0, Read(true)), s4);
    s := At(s4, 0, Claiming(1, UPDATE));
    actions := Extend(c, actions, s4, Serve(0, Check), s);
  }

  /** The state once sales have asked. */
  function WhenAsked(): State {
    Init().(rows := map[1 := UPDATE.(status := Pending)], nextID := 2,
            requests := map[1 := Request(SELLER, "update_customer", map[])])
  }

  lemma EvaluateAsks(c: Config)
    ensures EvaluateStep(c, Init(), SELLER, "update_customer", map[]) == WhenAsked()
  {
    NoFields(c);
  }

  /** And once an admin has approved. */
  function WhenApproved(): State {
    WhenAsked().(rows := map[1 := UPDATE], grants := map[1 := BOSS])
  }

  lemma ResolveApproves()
    ensures ResolveStep(WhenAsked(), BOSS, 1, true) == WhenApproved()
  {
    var s := WhenAsked();
    assert Updated(s.rows[1], SetStatus(Approved)) == UPDATE;
    assert s.rows[1 := UPDATE] == WhenApproved().rows && s.grants[1 := BOSS] == WhenApproved().grants;
  }

  lemma UpToApproval(c: Config) returns (actions: seq<Action>)
    ensures Reached(c, actions) == Some(WhenApproved())
  {
    EvaluateAsks(c);
    actions := Extend(c, [], Init(), Evaluate(SELLER, "update_customer", map[]), WhenAsked());
    ResolveApproves();
    actions := Extend(c, actions, WhenAsked(), Resolve(BOSS, 1, true), WhenApproved());
  }

  lemma NoFields(c: Config)
    ensures Policy.Evaluate(c.words, ToolCall("update_customer", map[], SELLER)) ==
            Evaluation("update_customer", RequireApproval, "sales customer mutation requires approval", 70)
  {
    assert StringSlice(Argument(map[], "fields")) == [];
  }

  /** The run leaves approval 1 EXECUTING for ever, by this last action; its tool has run or not. */
  ghost predicate Strands(c: Config, actions: seq<Action>, last: HandlerAct, ran: bool) {
    && |actions| > 0 && actions[|actions| - 1] == Serve(0, last)
    && Reached(c, actions).Some? && 1 in Reached(c, actions).value.rows
    && Reached(c, actions).value.rows[1].status == Executing && !CanLeave(c, actions, 1)
    && (Ran(Reached(c, actions).value, 1) <==> ran)
  }

  lemma Stranded(c: Config, actions: seq<Action>, s: State, last: HandlerAct)
    requires |actions| > 0 && actions[|actions| - 1] == Serve(0, last)
    requires Reached(c, actions) == Some(s) && 1 in s.rows && s.rows[1].status == Executing
    requires 0 in s.handlers && Silenced(s, 0) && forall h :: h in s.handlers ==> h == 0
    requires s.executions == [] || s.executions == [ExecutionOf(Running(1, UPDATE), 0)]
    ensures Strands(c, actions, last, s.executions != [])
  {
    ReleasableIff(c, actions, 1);
    if s.executions != [] {
      assert s.executions[0] in s.executions;
    }
  }

  /** A handler dies between its claim and the execution. */
  lemma StrandedByCrash(c: Config) returns (actions: seq<Action>)
    ensures Strands(c, actions, Crash, false)
  {
    var s;
    actions, s := Claimed(c);
    var t := At(s, 0, Gone(0));
    actions := Extend(c, actions, s, Serve(0, Crash), t);
    Stranded(c, actions, t, Crash);
  }

  lemma Claimed(c: Config) returns (actions: seq<Action>, s: State)
    ensures Reached(c, actions) == Some(s) && s.executions == [] && s.cancelled == {}
    ensures s.rows == map[1 := UPDATE.(status := Executing)] && s.handlers == map[0 := Starting(1, UPDATE)]
  {
    var before;
    actions, before := UpToClaim(c);
    s := At(Effect(before, 0, 1, Claim), 0, Starting(1, UPDATE));
    actions := Extend(c, actions, before, Serve(0, Answer), s);
  }

  /** A claim takes effect after its call has reported an error. */
  lemma StrandedByLateClaim(c: Config) returns (actions: seq<Action>)
    ensures Strands(c, actions, Late, false)
  {
    var s;
    actions, s := UpToClaim(c);
    var t := At(s, 0, Uncertain(1, Claim, 409));
    actions := Extend(c, actions, s, Serve(0, HandlerAct.Error), t);
    var u := At(Effect(t, 0, 1, Claim), 0, Gone(409));
    actions := Extend(c, actions, t, Serve(0, Late), u);
    Stranded(c, actions, u, Late);
  }

  lemma UpToExecution(c: Config) returns (actions: seq<Action>, s: State)
    ensures Reached(c, actions) == Some(s) && s.executions == [] && s.cancelled == {}
    ensures s.rows == map[1 := UPDATE.(status := Executing)] && s.handlers == map[0 := Running(1, UPDATE)]
  {
    var s1;
    actions, s1 := Claimed(c);
    var s2 := At(s1, 0, Decoding(1, UPDATE));
    actions := Extend(c, actions, s1, Serve(0, Audit(false)), s2);
    s := At(s2, 0, Running(1, UPDATE));
    actions := Extend(c, actions, s2, Serve(0, Decode(true)), s);
  }

  /** The request is cancelled before its tool runs. */
  lemma StrandedByCancellation(c: Config) returns (actions: seq<Action>)
    ensures Strands(c, actions, Cancel, false)
  {
    var s;
    actions, s := UpToExecution(c);
    var t := s.(cancelled := s.cancelled + {0});
    actions := Extend(c, actions, s, Serve(0, Cancel), t);
    Stranded(c, actions, t, Cancel);
  }

  lemma UpToFinish(c: Config) returns (actions: seq<Action>, s: State)
    ensures Reached(c, actions) == Some(s) && s.executions == [ExecutionOf(Running(1, UPDATE), 0)] && s.cancelled == {}
    ensures s.rows == map[1 := UPDATE.(status := Executing)] && s.handlers == map[0 := Finishing(1, UPDATE, 0)]
  {
    var before;
    actions, before := UpToExecution(c);
    s := At(before, 0, Finishing(1, UPDATE, 0)).(executions := [ExecutionOf(Running(1, UPDATE), 0)]);
    assert before.executions + [ExecutionOf(Running(1, UPDATE), 0)] == s.executions;
    actions := Extend(c, actions, before, Serve(0, HandlerAct.Execute(0)), s);
  }

  /** The request is cancelled after its tool has run: the finish is never sent. */
  lemma StrandedAfterExecution(c: Config) returns (actions: seq<Action>)
    ensures Strands(c, actions, Cancel, true)
  {
    var s;
    actions, s := UpToFinish(c);
    var t := s.(cancelled := s.cancelled + {0});
    actions := Extend(c, actions, s, Serve(0, Cancel), t);
    Stranded(c, actions, t, Cancel);
  }

  /** The last statement is sent and lost. */
  lemma StrandedByLoss(c: Config) returns (actions: seq<Action>)
    ensures Strands(c, actions, Lose, true)
  {
    var t;
    actions, t := UpToFinish(c);
    var u := At(t, 0, Uncertain(1, Finish(0), 500));
    actions := Extend(c, actions, t, Serve(0, HandlerAct.Error), u);
    var v := At(u, 0, Gone(500));
    actions := Extend(c, actions, u, Serve(0, Lose), v);
    Stranded(c, actions, v, Lose);
  }
}
