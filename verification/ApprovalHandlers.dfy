/** The request handlers as they run, step after step against the store; every handler call is
    proved to be a run of the transition system. */
module ApprovalHandlers {
  import opened Identities
  import opened Machines
  import Policy
  import opened ApprovalTable
  import Model = ApprovalModel
  import Theorems = ApprovalTheorems

  /** The points at which the context of an execute request is looked at. */
  datatype Moment = AtRead | AtClaim | AtStart | AtRun | AtLast | AtEnd | Never

  function Rank(m: Moment): nat {
    match m
    case AtRead => 0
    case AtClaim => 1
    case AtStart => 2
    case AtRun => 3
    case AtLast => 4
    case AtEnd => 5
    case Never => 6
  }

  /** What the outside does to one execute request. From the moment `cancel` its context is
      cancelled; the other fields say what becomes of its calls until then. */
  datatype Circumstances = Circumstances(
    read: Connection, claim: Connection, started: bool, decoded: bool,
    now: int, last: Connection, succeeded: bool, cancel: Moment)

  const UNDISTURBED := Circumstances(Answered, Answered, true, true, 0, Answered, true, Never)

  predicate Cancelled(around: Circumstances, m: Moment) {
    Rank(around.cancel) <= Rank(m)
  }

  /** On a cancelled context nothing is sent. */
  function Sent(around: Circumstances, m: Moment, connection: Connection): Connection {
    if Cancelled(around, m) then Lost else connection
  }

  // ---------- store calls as actions ----------

  function AfterError(s: Model.State, h: nat): Model.State
    requires h in s.handlers && Model.PendingStatement(s.handlers[h]).Some?
  {
    var p := s.handlers[h];
    Model.At(s, h, Model.Uncertain(p.id, Model.PendingStatement(p).value, Model.ErrorCode(p)))
  }

  function AfterLate(s: Model.State, h: nat): Model.State
    requires h in s.handlers && s.handlers[h].Uncertain?
  {
    var p := s.handlers[h];
    Model.At(Model.Effect(s, h, p.id, p.statement), h, Model.Gone(p.code))
  }

  function AfterLoss(s: Model.State, h: nat): Model.State
    requires h in s.handlers && s.handlers[h].Uncertain?
  {
    Model.At(s, h, Model.Gone(s.handlers[h].code))
  }

  lemma CallFails(c: Model.Config, s: Model.State, h: nat)
    requires h in s.handlers && h !in s.cancelled && Model.PendingStatement(s.handlers[h]).Some?
    ensures Model.Step(c, s, Model.Serve(h, Model.Error)) == Some(AfterError(s, h))
    ensures Model.Step(c, AfterError(s, h), Model.Serve(h, Model.Late)) == Some(AfterLate(AfterError(s, h), h))
    ensures Model.Step(c, AfterError(s, h), Model.Serve(h, Model.Lose)) == Some(AfterLoss(AfterError(s, h), h))
  {
  }

  /** What a store call of request `h` does to the state. */
  ghost predicate Called(c: Model.Config, s: Model.State, t: Model.State, h: nat, connection: Connection)
    requires h in s.handlers && Model.PendingStatement(s.handlers[h]).Some?
  {
    var p := s.handlers[h];
    var statement := Model.PendingStatement(p).value;
    && t.rows == (if connection == Lost then s.rows else Apply(s.rows, p.id, statement))
    && h in t.handlers
    && t.handlers[h] == (if connection == Answered then Model.Answered(c, p, Affects(s.rows, p.id, statement))
                         else Model.Gone(Model.ErrorCode(p)))
    && t.executions == s.executions && t.events == s.events && t.nextID == s.nextID && t.cancelled == s.cancelled
  }

  lemma CallRefused(c: Model.Config, s: Model.State, h: nat)
    requires h in s.handlers && h in s.cancelled && Model.PendingStatement(s.handlers[h]).Some?
    ensures Model.Step(c, s, Model.Serve(h, Model.Error)) ==
            Some(Model.At(s, h, Model.Gone(Model.ErrorCode(s.handlers[h]))))
  {
  }

  /** The row of a call that waits for approval. */
  function PendingRow(tool: string, arguments: Policy.Arguments, e: Policy.Evaluation): Row {
    Row(tool, arguments, e.risk, e.reason, Pending, None)
  }

  class Gateway {
    const words: Policy.Words
    const store: Store
    var executions: seq<Model.Execution>
    var events: seq<Model.ToolEvent>

    ghost var trace: seq<Model.Action>
    ghost var machine: Model.State

    ghost function Config(): Model.Config {
      Model.Config(words, store.checked)
    }

    ghost predicate Valid()
      reads this, store
    {
      && store.Valid()
      && Model.Reached(Config(), trace) == Some(machine)
      && Matches()
    }

    ghost predicate Matches()
      reads this, store
    {
      machine.rows == store.rows && machine.nextID == store.nextID &&
      machine.executions == executions && machine.events == events
    }

    constructor (words: Policy.Words, checked: bool)
      ensures Valid() && fresh(store) && this.words == words && machine == Model.Init()
    {
      this.words := words;
      store := new Store(checked);
      executions, events, trace, machine := [], [], [], Model.Init();
    }

    /** Account for one action of the machine. */
    ghost method Do(a: Model.Action, t: Model.State)
      requires Model.Reached(Config(), trace) == Some(machine) && Model.Step(Config(), machine, a) == Some(t)
      modifies `trace, `machine
      ensures Model.Reached(Config(), trace) == Some(machine) && machine == t && trace == old(trace) + [a]
    {
      RunSnoc(Model.Machine(Config()), Model.Init(), trace, a);
      machine, trace := t, trace + [a];
    }

    /** Account for one handler action. */
    ghost method Serve(h: nat, act: Model.HandlerAct)
      requires Model.Reached(Config(), trace) == Some(machine)
      requires !act.Answer? && Model.ServeStep(machine, h, act).Some?
      modifies `trace, `machine
      ensures Model.Reached(Config(), trace) == Some(machine)
      ensures Some(machine) == Model.ServeStep(old(machine), h, act) && old(trace) <= trace
    {
      Do(Model.Serve(h, act), Model.ServeStep(machine, h, act).value);
    }

    /** Account for the handler's store call, whatever became of it. */
    ghost method Call(h: nat, connection: Connection)
      requires Model.Reached(Config(), trace) == Some(machine)
      requires h in machine.handlers && Model.PendingStatement(machine.handlers[h]).Some?
      requires h in machine.cancelled ==> connection == Lost
      modifies `trace, `machine
      ensures Model.Reached(Config(), trace) == Some(machine) && old(trace) <= trace
      ensures Called(Config(), old(machine), machine, h, connection)
    {
      if h in machine.cancelled {
        CallRefused(Config(), machine, h);
        Do(Model.Serve(h, Model.Error), Model.At(machine, h, Model.Gone(Model.ErrorCode(machine.handlers[h]))));
      } else if connection == Answered {
        Do(Model.Serve(h, Model.Answer), Model.AnswerStep(Config(), machine, h).value);
      } else {
        CallFails(Config(), machine, h);
        Do(Model.Serve(h, Model.Error), AfterError(machine, h));
        if connection == Unconfirmed {
          Do(Model.Serve(h, Model.Late), AfterLate(machine, h));
        } else {
          Do(Model.Serve(h, Model.Lose), AfterLoss(machine, h));
        }
      }
    }

    /** Whether request `h` stands at `p`, with its context cancelled if it was by moment `m`. */
    ghost predicate Stands(h: nat, p: Model.Handler, around: Circumstances, m: Moment)
      reads this
    {
      h in machine.handlers && machine.handlers[h] == p && (h in machine.cancelled <==> Cancelled(around, m))
    }

    /** Time passes from one moment to the next. */
    ghost method Elapse(h: nat, p: Model.Handler, around: Circumstances, before: Moment, m: Moment)
      requires Valid() && Stands(h, p, around, before) && Rank(m) == Rank(before) + 1 && !p.Gone? && !p.Uncertain?
      modifies `trace, `machine
      ensures Valid() && old(trace) <= trace && Stands(h, p, around, m)
    {
      if around.cancel == m {
        Serve(h, Model.Cancel);
      }
    }

    /** POST tool evaluation: the decision, and for a call that requires approval a pending row,
        which an error on the way back does not undo. */
    method EvaluateTool(principal: Option<Identity>, tool: string, arguments: Policy.Arguments, connection: Connection)
      returns (code: int)
      requires Valid()
      modifies this, store
      ensures Valid() && old(trace) <= trace && executions == old(executions) && events == old(events)
      ensures tool == "" ==> code == 400
      ensures tool != "" && principal.None? ==> code == 401
      ensures tool == "" || principal.None? ==> store.rows == old(store.rows)
      ensures tool != "" && principal.Some? ==>
        var e := Policy.Evaluate(words, Policy.ToolCall(tool, arguments, principal.value));
        && (code == 403 <==> e.decision.Deny?) && (code == 200 <==> e.decision.Allow?)
        && (code == 202 <==> e.decision.RequireApproval? && connection == Answered)
        && (code == 500 <==> e.decision.RequireApproval? && connection != Answered)
        && store.rows == (if e.decision.RequireApproval? && connection != Lost
                          then old(store.rows)[old(store.nextID) := PendingRow(tool, arguments, e)]
                          else old(store.rows))
    {
      if tool == "" {
        return 400;
      }
      if principal.None? {
        return 401;
      }
      var e := Policy.Decide(words, Policy.ToolCall(tool, arguments, principal.value));
      match e.decision {
        case RequireApproval =>
          code := CreateApproval(principal.value, tool, arguments, e, connection);
        case Deny => code := 403;
        case Allow => code := 200;
      }
    }

    method CreateApproval(principal: Identity, tool: string, arguments: Policy.Arguments, e: Policy.Evaluation,
                          connection: Connection)
      returns (code: int)
      requires Valid() && tool != "" && e.decision.RequireApproval?
      requires e == Policy.Evaluate(words, Policy.ToolCall(tool, arguments, principal))
      modifies `trace, `machine, store
      ensures Valid() && old(trace) <= trace && code == if connection == Answered then 202 else 500
      ensures store.rows == if connection == Lost then old(store.rows)
                            else old(store.rows)[old(store.nextID) := PendingRow(tool, arguments, e)]
    {
      var reply := store.Create(tool, arguments, e.risk, e.reason, connection);
      if connection != Lost {
        Do(Model.Evaluate(principal, tool, arguments),
           Model.EvaluateStep(Config(), machine, principal, tool, arguments));
      }
      code := if reply.Ok? then 202 else 500;
    }

    /** POST approve or reject. The id is what parsing the path gives, if it is a number at all. */
    method ResolveApproval(principal: Option<Identity>, id: Option<int>, approve: bool, connection: Connection)
      returns (code: int)
      requires Valid()
      modifies this, store
      ensures Valid() && old(trace) <= trace && executions == old(executions) && events == old(events)
      ensures principal.None? <==> code == 401
      ensures principal.Some? && principal.value.role != ADMIN <==> code == 403
      ensures principal.Some? && principal.value.role == ADMIN && id.None? <==> code == 400
      ensures code == 200 || code == 404 || store.rows == old(store.rows)
      ensures code == 200 || code == 404 ==> id.Some?
      ensures code == 200 || code == 404 ==>
        var statement := SetStatus(if approve then Approved else Rejected);
        && (code == 200 <==> id.value >= 0 && connection == Answered && Affects(old(store.rows), id.value, statement))
        && store.rows == (if id.value < 0 || connection == Lost then old(store.rows)
                          else Apply(old(store.rows), id.value, statement))
    {
      if principal.None? {
        return 401;
      }
      if principal.value.role != ADMIN {
        return 403;
      }
      if id.None? {
        return 400;
      }
      if id.value < 0 {
        return 404;
      }
      var ok := store.Resolve(id.value, if approve then Approved else Rejected, connection);
      if connection != Lost {
        Do(Model.Resolve(principal.value, id.value, approve),
           Model.ResolveStep(machine, principal.value, id.value, approve));
      }
      code := if ok then 200 else 404;
    }

    /** POST execute, up to the claim: the row as read, if it may be claimed and was. */
    method ReadAndClaim(h: nat, id: nat, around: Circumstances) returns (code: int, item: Row)
      requires Valid() && Stands(h, Model.Reading(id), around, AtRead)
      modifies `trace, `machine, store
      ensures Valid() && old(trace) <= trace
      ensures code == 0 ==> id in old(store.rows) && item == old(store.rows)[id] && Model.Executable(item)
      ensures code == 0 ==> Stands(h, Model.Starting(id, item), around, AtClaim)
      ensures around == UNDISTURBED && id in old(store.rows) && Model.Executable(old(store.rows)[id]) ==> code == 0
      ensures code == 0 || code == 404 || code == 409
      ensures Cancelled(around, AtRead) ==> code == 404 && store.rows == old(store.rows)
    {
      code, item := ReadRow(h, id, around);
      if code != 0 {
        return code, item;
      }
      if !Model.Executable(item) {
        Serve(h, Model.Check);
        return 409, item;
      }
      PassCheck(h, id, item, around);
      code := ClaimRow(h, id, item, around);
    }

    /** Account for a check that the row passes. */
    ghost method PassCheck(h: nat, id: nat, item: Row, around: Circumstances)
      requires Valid() && Stands(h, Model.Checking(id, item), around, AtRead) && Model.Executable(item)
      modifies `trace, `machine
      ensures Valid() && old(trace) <= trace && Stands(h, Model.Claiming(id, item), around, AtClaim)
    {
      Serve(h, Model.Check);
      Elapse(h, Model.Claiming(id, item), around, AtRead, AtClaim);
    }

    method ReadRow(h: nat, id: nat, around: Circumstances) returns (code: int, item: Row)
      requires Valid() && Stands(h, Model.Reading(id), around, AtRead)
      modifies `trace, `machine
      ensures Valid() && old(trace) <= trace && (code == 0 || code == 404)
      ensures code == 0 <==> Sent(around, AtRead, around.read) == Answered && id in store.rows
      ensures code == 0 ==> item == store.rows[id] && Stands(h, Model.Checking(id, item), around, AtRead)
    {
      var sent := Sent(around, AtRead, around.read);
      var reply := store.Get(id, sent);
      Serve(h, Model.Read(sent == Answered));
      if reply.Error? {
        code, item := 404, Row("", map[], 0, "", Pending, None);
      } else {
        code, item := 0, reply.value;
      }
    }

    method ClaimRow(h: nat, id: nat, item: Row, around: Circumstances) returns (code: int)
      requires Valid() && Stands(h, Model.Claiming(id, item), around, AtClaim)
      modifies `trace, `machine, store
      ensures Valid() && old(trace) <= trace && (code == 0 || code == 409)
      ensures code == 0 ==> Stands(h, Model.Starting(id, item), around, AtClaim)
      ensures Sent(around, AtClaim, around.claim) == Answered && id in old(store.rows) &&
              Model.Executable(old(store.rows)[id])
              ==> code == 0
      ensures Cancelled(around, AtClaim) ==> code == 409 && store.rows == old(store.rows)
    {
      var sent := Sent(around, AtClaim, around.claim);
      var claimed := store.ClaimExecution(id, sent);
      Call(h, sent);
      code := if claimed.Ok? && claimed.value then 0 else 409;
    }

    /** POST execute, after the claim: audit, decode and run, then finish or fail. */
    method RunClaimed(h: nat, id: nat, item: Row, around: Circumstances) returns (code: int)
      requires Valid() && Stands(h, Model.Starting(id, item), around, AtClaim)
      modifies this, store
      ensures Valid() && old(trace) <= trace && (code == 200 || code == 500)
      ensures executions == old(executions) ||
              (executions == old(executions) + [Model.Execution(id, item.tool, item.arguments, h)] &&
                Policy.Execute(false, item.tool).Some?)
      ensures code == 200 ==> |executions| > |old(executions)| && id in store.rows && store.rows[id].status == Executed
      ensures around == UNDISTURBED && Policy.Execute(false, item.tool).Some? ==> code == 200
      ensures Cancelled(around, AtRun) ==> executions == old(executions)
      ensures Cancelled(around, AtLast) ==> code == 500 && store.rows == old(store.rows)
    {
      StartTool(h, id, item, around);
      if around.decoded {
        code := RunTool(h, id, item, around);
      } else {
        code := Abort(h, id, item, around);
      }
    }

    /** The audit event of the start, then the stored arguments. */
    method StartTool(h: nat, id: nat, item: Row, around: Circumstances)
      requires Valid() && Stands(h, Model.Starting(id, item), around, AtClaim)
      modifies `trace, `machine, `events
      ensures Valid() && old(trace) <= trace
      ensures Stands(h, if around.decoded then Model.Running(id, item) else Model.Failing(id, item), around, AtRun)
    {
      AuditStart(h, id, item, around);
      Elapse(h, Model.Decoding(id, item), around, AtStart, AtRun);
      Serve(h, Model.Decode(around.decoded));
    }

    method AuditStart(h: nat, id: nat, item: Row, around: Circumstances)
      requires Valid() && Stands(h, Model.Starting(id, item), around, AtClaim)
      modifies `trace, `machine, `events
      ensures Valid() && old(trace) <= trace && Stands(h, Model.Decoding(id, item), around, AtStart)
    {
      Elapse(h, Model.Starting(id, item), around, AtClaim, AtStart);
      var started := around.started && !Cancelled(around, AtStart);
      if started {
        events := events + [Model.ToolEvent(id, false)];
      }
      Serve(h, Model.Audit(started));
    }

    method RunTool(h: nat, id: nat, item: Row, around: Circumstances) returns (code: int)
      requires Valid() && Stands(h, Model.Running(id, item), around, AtRun)
      modifies this, store
      ensures Valid() && old(trace) <= trace && (code == 200 || code == 500)
      ensures executions == old(executions) ||
              (executions == old(executions) + [Model.Execution(id, item.tool, item.arguments, h)] &&
                Policy.Execute(false, item.tool).Some?)
      ensures code == 200 ==> |executions| > |old(executions)| && id in store.rows && store.rows[id].status == Executed
      ensures Sent(around, AtLast, around.last) == Answered && Policy.Execute(false, item.tool).Some? ==> code == 200
      ensures Cancelled(around, AtRun) ==> executions == old(executions)
      ensures Cancelled(around, AtLast) ==> code == 500 && store.rows == old(store.rows)
    {
      var result := Policy.Execute(Cancelled(around, AtRun), item.tool);
      Serve(h, Model.Execute(around.now));
      if result.None? {
        code := Abort(h, id, item, around);
      } else {
        executions := executions + [Model.Execution(id, item.tool, item.arguments, h)];
        code := Complete(h, id, item, around);
      }
    }

    /** FailExecution. */
    method Abort(h: nat, id: nat, item: Row, around: Circumstances) returns (code: int)
      requires Valid() && Stands(h, Model.Failing(id, item), around, AtRun)
      modifies `trace, `machine, store
      ensures Valid() && old(trace) <= trace && code == 500
      ensures store.rows == if Sent(around, AtLast, around.last) == Lost then old(store.rows)
                            else Apply(old(store.rows), id, Fail)
    {
      Elapse(h, Model.Failing(id, item), around, AtRun, AtLast);
      var sent := Sent(around, AtLast, around.last);
      var ok := store.FailExecution(id, sent);
      Call(h, sent);
      code := 500;
    }

    /** The finish, if it is sent, finds the row, so only an unanswered call is reported as a failure. */
    method Complete(h: nat, id: nat, item: Row, around: Circumstances) returns (code: int)
      requires Valid() && Stands(h, Model.Finishing(id, item, around.now), around, AtRun)
      modifies `trace, `machine, `events, store
      ensures Valid() && old(trace) <= trace
      ensures code == if Sent(around, AtLast, around.last) == Answered then 200 else 500
      ensures code == 200 ==> id in store.rows && store.rows[id].status == Executed
      ensures Cancelled(around, AtLast) ==> store.rows == old(store.rows)
    {
      Elapse(h, Model.Finishing(id, item, around.now), around, AtRun, AtLast);
      Theorems.HolderFindsRow(Config(), trace, h);
      var sent := Sent(around, AtLast, around.last);
      var ok := store.FinishExecution(id, around.now, sent);
      Call(h, sent);
      if !ok {
        return 500;
      }
      Succeed(h, id, item, around);
      code := 200;
    }

    /** The audit event of a success. */
    method Succeed(h: nat, id: nat, item: Row, around: Circumstances)
      requires Valid() && Stands(h, Model.Succeeding(id, item), around, AtLast)
      modifies `trace, `machine, `events
      ensures Valid() && old(trace) <= trace
    {
      Elapse(h, Model.Succeeding(id, item), around, AtLast, AtEnd);
      var succeeded := around.succeeded && !Cancelled(around, AtEnd);
      if succeeded {
        events := events + [Model.ToolEvent(id, true)];
      }
      Serve(h, Model.Audit(succeeded));
    }

    predicate Runnable(rows: Table, id: int) {
      id in rows && Model.Executable(rows[id]) && Policy.Execute(false, rows[id].tool).Some?
    }

    /** POST execute as a whole. Success means one execution of exactly the row's call, and the
        row EXECUTED; undisturbed, an executable row of a known tool always succeeds. */
    method ExecuteApproval(h: nat, principal: Option<Identity>, id: Option<int>, around: Circumstances)
      returns (code: int)
      requires Valid() && h !in machine.handlers
      modifies this, store
      ensures Valid() && old(trace) <= trace
      ensures principal.None? <==> code == 401
      ensures principal.Some? && principal.value.role != ADMIN <==> code == 403
      ensures principal.Some? && principal.value.role == ADMIN && id.None? <==> code == 400
      ensures Cancelled(around, AtRun) ==> executions == old(executions)
      ensures Cancelled(around, AtLast) ==> code != 200
      ensures code == 401 || code == 403 || code == 400 ==>
        executions == old(executions) && store.rows == old(store.rows)
      ensures executions == old(executions) || Executes(id, old(store.rows), old(executions), h)
      ensures code == 200 ==>
        |executions| > |old(executions)| && id.value in store.rows && store.rows[id.value].status == Executed
      ensures around == UNDISTURBED && principal.Some? && principal.value.role == ADMIN && id.Some? &&
              Runnable(old(store.rows), id.value)
              ==> code == 200
    {
      if principal.None? {
        return 401;
      }
      if principal.value.role == ADMIN && id.None? {
        return 400;
      }
      if principal.value.role == ADMIN && id.value < 0 {
        return 404;
      }
      Begin(h, principal.value, if id.Some? && id.value >= 0 then id.value else 0, around);
      if principal.value.role != ADMIN {
        return 403;
      }
      code := Run(h, id.value, around);
    }

    /** Account for the start of a request. */
    ghost method Begin(h: nat, principal: Identity, id: nat, around: Circumstances)
      requires Valid() && h !in machine.handlers
      modifies `trace, `machine
      ensures Valid() && old(trace) <= trace
      ensures principal.role == ADMIN ==> Stands(h, Model.Reading(id), around, AtRead)
    {
      if h in machine.cancelled {
        Theorems.OnlyRequestsAreCancelled(Config(), trace, h);
      }
      Serve(h, Model.Begin(principal, id));
      if principal.role == ADMIN && around.cancel == AtRead {
        Serve(h, Model.Cancel);
      }
    }

    method Run(h: nat, id: nat, around: Circumstances) returns (code: int)
      requires Valid() && Stands(h, Model.Reading(id), around, AtRead)
      modifies this, store
      ensures Valid() && old(trace) <= trace
      ensures code == 200 || code == 404 || code == 409 || code == 500
      ensures executions == old(executions) || Executes(Some(id), old(store.rows), old(executions), h)
      ensures code == 200 ==> |executions| > |old(executions)| && id in store.rows && store.rows[id].status == Executed
      ensures around == UNDISTURBED && Runnable(old(store.rows), id) ==> code == 200
      ensures Cancelled(around, AtRun) ==> executions == old(executions)
      ensures Cancelled(around, AtLast) ==> code != 200
    {
      var item;
      code, item := ReadAndClaim(h, id, around);
      if code == 0 {
        code := RunClaimed(h, id, item, around);
      }
    }

    /** The call of the row, as it was read, has been executed once more. */
    ghost predicate Executes(id: Option<int>, rows: Table, before: seq<Model.Execution>, h: nat)
      reads this
    {
      id.Some? && id.value in rows && Model.Executable(rows[id.value]) &&
      executions == before + [Model.Execution(id.value, rows[id.value].tool, rows[id.value].arguments, h)]
    }
  }
}
