/** Evaluation, approval and execution as a transition system: any number of requests of each
    kind, interleaved statement by statement, with crashes and unreliable store calls.

    A store call that reports an error leaves the handler `Uncertain`: it has answered its
    caller, and the statement may still take effect at any later time, or be lost for good. A
    request can be cancelled at any time; from then on its store calls fail without being sent. */
module ApprovalModel {
  import opened Identities
  import opened Machines
  import opened Policy
  import opened ApprovalTable

  /** `checked`: finish and fail turn "no row affected" into an error (PostgreSQL). */
  datatype Config = Config(words: Words, checked: bool)

  /** Where an execute request stands; `item` is the row as it was read at the start. */
  datatype Handler =
    | Reading(id: nat)
    | Checking(id: nat, item: Row)
    | Claiming(id: nat, item: Row)
    | Starting(id: nat, item: Row)              // claimed, before the audit event
    | Decoding(id: nat, item: Row)
    | Running(id: nat, item: Row)               // before executor.Execute
    | Failing(id: nat, item: Row)               // before FailExecution
    | Finishing(id: nat, item: Row, now: int)   // executed, before FinishExecution
    | Succeeding(id: nat, item: Row)            // finished, before the audit event
    | Uncertain(id: nat, statement: Statement, code: int)
    | Gone(code: int)

  datatype Request = Request(principal: Identity, tool: string, arguments: Arguments)

  datatype Execution = Execution(id: nat, tool: string, arguments: Arguments, handler: nat)

  datatype ToolEvent = ToolEvent(id: nat, succeeded: bool)

  /** `cancelled` are the requests whose context is cancelled. History: `owner` is the request whose
      claim made a row EXECUTING, `requests` the evaluated call behind a row, `grants` the caller
      who approved it, `executions` the successful `executor.Execute` calls. */
  datatype State = State(
    rows: Table, nextID: nat, handlers: map<nat, Handler>, cancelled: set<nat>,
    owner: map<nat, nat>, requests: map<nat, Request>, grants: map<nat, Identity>,
    executions: seq<Execution>, events: seq<ToolEvent>)

  function Init(): State {
    State(map[], 1, map[], {}, map[], map[], map[], [], [])
  }

  datatype HandlerAct =
    | Begin(principal: Identity, id: nat)
    | Read(ok: bool)
    | Check
    | Answer                  // the pending store call is applied and answered
    | Error                   // the pending store call reports an error
    | Late                    // a statement whose call reported an error takes effect
    | Lose                    // or never will
    | Audit(ok: bool)
    | Decode(ok: bool)
    | Execute(now: int)
    | Cancel                  // the context of the request is cancelled
    | Crash

  datatype Action =
    | Evaluate(principal: Identity, tool: string, arguments: Arguments)
    | Resolve(principal: Identity, id: nat, approve: bool)
    | Serve(h: nat, act: HandlerAct)

  /** The statement a handler is about to send. */
  function PendingStatement(p: Handler): Option<Statement> {
    match p
    case Claiming(_, _) => Some(Claim)
    case Failing(_, _) => Some(Fail)
    case Finishing(_, _, now) => Some(Finish(now))
    case _ => None
  }

  /** The status code the caller gets when the store call reports an error. */
  function ErrorCode(p: Handler): int {
    if p.Claiming? then 409 else 500
  }

  function At(s: State, h: nat, p: Handler): State {
    s.(handlers := s.handlers[h := p])
  }

  /** A statement of request `h` takes effect. */
  function Effect(s: State, h: nat, id: nat, statement: Statement): State {
    if !Affects(s.rows, id, statement) then s
    else s.(rows := Apply(s.rows, id, statement),
            owner := if statement.Claim? then s.owner[id := h] else s.owner - {id})
  }

  /** The caller's check of the row it read. */
  predicate Executable(item: Row) {
    item.executedAt == None && item.status == Approved
  }

  /** Where the handler goes on once its store call is answered. */
  function Answered(c: Config, p: Handler, affected: bool): Handler {
    match p
    case Claiming(id, item) => if affected then Starting(id, item) else Gone(409)
    case Finishing(id, item, _) => if c.checked && !affected then Gone(500) else Succeeding(id, item)
    case _ => Gone(500)
  }

  /** A handler that goes away without the answer to its store call, if one was sent. */
  function Unanswered(s: State, h: nat, code: int): Handler
    requires h in s.handlers
  {
    match PendingStatement(s.handlers[h])
    case None => Gone(code)
    case Some(statement) => if h in s.cancelled then Gone(code) else Uncertain(s.handlers[h].id, statement, code)
  }

  /** Every handler action but `Answer`. */
  function ServeStep(s: State, h: nat, act: HandlerAct): Option<State> {
    if h !in s.handlers then
      if act.Begin? then Some(At(s, h, if act.principal.role == ADMIN then Reading(act.id) else Gone(403))) else None
    else
      var p := s.handlers[h];
      match act
      case Begin(_, _) => None
      case Answer => None
      case Read(ok) =>
        if !p.Reading? || (ok && h in s.cancelled) then None
        else Some(At(s, h, if ok && p.id in s.rows then Checking(p.id, s.rows[p.id]) else Gone(404)))
      case Check =>
        if p.Checking? then Some(At(s, h, if Executable(p.item) then Claiming(p.id, p.item) else Gone(409))) else None
      case Audit(ok) =>
        if (p.Starting? || p.Succeeding?) && !(ok && h in s.cancelled) then
          Some(At(s, h, if p.Starting? then Decoding(p.id, p.item) else Gone(200)).(
            events := if ok then s.events + [ToolEvent(p.id, p.Succeeding?)] else s.events))
        else None
      case Decode(ok) =>
        if p.Decoding? then Some(At(s, h, if ok then Running(p.id, p.item) else Failing(p.id, p.item))) else None
      case Execute(now) =>
        if !p.Running? then None
        else if Policy.Execute(h in s.cancelled, p.item.tool).None? then Some(At(s, h, Failing(p.id, p.item)))
        else Some(At(s, h, Finishing(p.id, p.item, now)).(
                    executions := s.executions + [Execution(p.id, p.item.tool, p.item.arguments, h)]))
      case Late =>
        if p.Uncertain? then Some(At(Effect(s, h, p.id, p.statement), h, Gone(p.code))) else None
      case Lose =>
        if p.Uncertain? then Some(At(s, h, Gone(p.code))) else None
      case Error =>
        if PendingStatement(p).None? then None else Some(At(s, h, Unanswered(s, h, ErrorCode(p))))
      case Crash =>
        if p.Gone? || p.Uncertain? then None else Some(At(s, h, Unanswered(s, h, 0)))
      case Cancel =>
        if p.Gone? || p.Uncertain? then None else Some(s.(cancelled := s.cancelled + {h}))
  }

  /** The pending store call takes effect and is answered. */
  function AnswerStep(c: Config, s: State, h: nat): Option<State> {
    if h !in s.handlers || h in s.cancelled then None
    else
      var p := s.handlers[h];
      match PendingStatement(p)
      case None => None
      case Some(statement) =>
        Some(At(Effect(s, h, p.id, statement), h, Answered(c, p, Affects(s.rows, p.id, statement))))
  }

  /** The evaluation handler: a call that requires approval becomes a pending row. */
  function EvaluateStep(c: Config, s: State, principal: Identity, tool: string, arguments: Arguments): State {
    var e := Policy.Evaluate(c.words, ToolCall(tool, arguments, principal));
    if tool == "" || e.decision != RequireApproval then s
    else s.(rows := s.rows[s.nextID := Row(tool, arguments, e.risk, e.reason, Pending, None)],
            nextID := s.nextID + 1,
            requests := s.requests[s.nextID := Request(principal, tool, arguments)])
  }

  /** The approve and reject handlers: only an admin's decision reaches the table. */
  function ResolveStep(s: State, principal: Identity, id: nat, approve: bool): State {
    var statement := SetStatus(if approve then Approved else Rejected);
    if principal.role != ADMIN || !Affects(s.rows, id, statement) then s
    else s.(rows := Apply(s.rows, id, statement),
            grants := if approve then s.grants[id := principal] else s.grants)
  }

  function Step(c: Config, s: State, a: Action): Option<State> {
    match a
    case Evaluate(principal, tool, arguments) => Some(EvaluateStep(c, s, principal, tool, arguments))
    case Resolve(principal, id, approve) => Some(ResolveStep(s, principal, id, approve))
    case Serve(h, act) => if act.Answer? then AnswerStep(c, s, h) else ServeStep(s, h, act)
  }

  function Machine(c: Config): (State, Action) -> Option<State> {
    (s, a) => Step(c, s, a)
  }

  function Reached(c: Config, actions: seq<Action>): Option<State> {
    Run(Machine(c), Init(), actions)
  }
}
