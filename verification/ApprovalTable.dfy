/** The approvals table: rows changed only by conditional updates, each of them atomic. */
module ApprovalTable {
  import opened Machines
  import opened Policy

  datatype Status = Pending | Approved | Rejected | Executing | Executed

  datatype Row = Row(
    tool: string, arguments: Arguments, risk: int, reason: string, status: Status, executedAt: Option<int>)

  type Table = map<nat, Row>

  /** The conditional updates. */
  datatype Statement =
    | SetStatus(status: Status)   // WHERE status = PENDING
    | Claim                       // WHERE status = APPROVED AND executed_at IS NULL
    | Finish(now: int)            // WHERE status = EXECUTING
    | Fail                        // WHERE status = EXECUTING

  predicate Matches(row: Row, statement: Statement) {
    match statement
    case SetStatus(_) => row.status == Pending
    case Claim => row.status == Approved && row.executedAt == None
    case Finish(_) => row.status == Executing
    case Fail => row.status == Executing
  }

  function Updated(row: Row, statement: Statement): Row {
    match statement
    case SetStatus(status) => row.(status := status)
    case Claim => row.(status := Executing)
    case Finish(now) => row.(status := Executed, executedAt := Some(now))
    case Fail => row.(status := Approved)
  }

  /** Whether the statement's WHERE clause finds the row. */
  predicate Affects(rows: Table, id: nat, statement: Statement) {
    id in rows && Matches(rows[id], statement)
  }

  function Apply(rows: Table, id: nat, statement: Statement): Table {
    if Affects(rows, id, statement) then rows[id := Updated(rows[id], statement)] else rows
  }

  /** Not yet executed, and not rejected. */
  predicate Active(row: Row) {
    (row.status == Pending || row.status == Approved || row.status == Executing) && row.executedAt == None
  }

  /** What the connection does with a statement: `Answered` applies it and reports its effect,
      `Lost` reports an error without applying it, `Unconfirmed` applies it and reports an error. */
  datatype Connection = Answered | Lost | Unconfirmed

  datatype Reply<+T> = Ok(value: T) | Error

  /** The store object. `checked` is the PostgreSQL variant, which turns an update that affects
      no row into an error where the SQLite variant ignores it. */
  class Store {
    const checked: bool
    var rows: Table
    var nextID: nat

    ghost predicate Valid()
      reads this
    {
      nextID > 0 && forall id :: id in rows ==> 0 < id < nextID
    }

    constructor (checked: bool)
      ensures Valid() && rows == map[] && nextID == 1 && this.checked == checked
    {
      this.checked := checked;
      rows, nextID := map[], 1;
    }

    method Create(tool: string, arguments: Arguments, risk: int, reason: string, connection: Connection)
      returns (reply: Reply<nat>)
      requires Valid()
      modifies this
      ensures Valid()
      ensures reply == if connection == Answered then Ok(old(nextID)) else Error
      ensures connection == Lost ==> rows == old(rows) && nextID == old(nextID)
      ensures connection != Lost ==> nextID == old(nextID) + 1
      ensures connection != Lost ==> rows == old(rows)[old(nextID) := Row(tool, arguments, risk, reason, Pending, None)]
    {
      if connection == Lost {
        return Error;
      }
      rows := rows[nextID := Row(tool, arguments, risk, reason, Pending, None)];
      nextID := nextID + 1;
      reply := if connection == Answered then Ok(nextID - 1) else Error;
    }

    method Get(id: nat, connection: Connection) returns (reply: Reply<Row>)
      ensures reply == if connection == Answered && id in rows then Ok(rows[id]) else Error
    {
      reply := if connection == Answered && id in rows then Ok(rows[id]) else Error;
    }

    /** One UPDATE: the reply is the number of affected rows. */
    method Exec(id: nat, statement: Statement, connection: Connection) returns (reply: Reply<nat>)
      requires Valid()
      modifies `rows
      ensures Valid()
      ensures rows == if connection == Lost then old(rows) else Apply(old(rows), id, statement)
      ensures reply == if connection == Answered then Ok(if Affects(old(rows), id, statement) then 1 else 0) else Error
    {
      var affected := 0;
      if connection != Lost && id in rows && Matches(rows[id], statement) {
        rows := rows[id := Updated(rows[id], statement)];
        affected := 1;
      }
      reply := if connection == Answered then Ok(affected) else Error;
    }

    method Resolve(id: nat, status: Status, connection: Connection) returns (ok: bool)
      requires Valid()
      modifies `rows
      ensures Valid()
      ensures rows == if connection == Lost then old(rows) else Apply(old(rows), id, SetStatus(status))
      ensures ok <==> connection == Answered && Affects(old(rows), id, SetStatus(status))
    {
      var reply := Exec(id, SetStatus(status), connection);
      ok := reply.Ok? && reply.value != 0;
    }

    method ClaimExecution(id: nat, connection: Connection) returns (reply: Reply<bool>)
      requires Valid()
      modifies `rows
      ensures Valid()
      ensures rows == if connection == Lost then old(rows) else Apply(old(rows), id, Claim)
      ensures reply == if connection == Answered then Ok(Affects(old(rows), id, Claim)) else Error
    {
      var affected := Exec(id, Claim, connection);
      reply := match affected case Ok(n) => Ok(n == 1) case Error => Error;
    }

    method FinishExecution(id: nat, now: int, connection: Connection) returns (ok: bool)
      requires Valid()
      modifies `rows
      ensures Valid()
      ensures rows == if connection == Lost then old(rows) else Apply(old(rows), id, Finish(now))
      ensures ok <==> connection == Answered && (checked ==> Affects(old(rows), id, Finish(now)))
    {
      var reply := Exec(id, Finish(now), connection);
      ok := reply.Ok? && (checked ==> reply.value == 1);
    }

    method FailExecution(id: nat, connection: Connection) returns (ok: bool)
      requires Valid()
      modifies `rows
      ensures Valid()
      ensures rows == if connection == Lost then old(rows) else Apply(old(rows), id, Fail)
      ensures ok <==> connection == Answered && (checked ==> Affects(old(rows), id, Fail))
    {
      var reply := Exec(id, Fail, connection);
      ok := reply.Ok? && (checked ==> reply.value == 1);
    }

    /** The active approvals, newest first: exactly the active rows, each once, by descending id;
        a query or scan that fails gives no list at all. */
    method ListActive(connection: Connection) returns (reply: Reply<seq<(nat, Row)>>)
      requires Valid()
      ensures reply.Ok? <==> connection == Answered
      ensures reply.Ok? ==> forall i, j :: 0 <= i < j < |reply.value| ==> reply.value[i].0 > reply.value[j].0
      ensures reply.Ok? ==> forall id, row :: (id, row) in reply.value <==> id in rows && row == rows[id] && Active(row)
    {
      if connection != Answered {
        return Error;
      }
      var results: seq<(nat, Row)> := [];
      var id := nextID;
      while id > 0
        invariant forall i, j :: 0 <= i < j < |results| ==> results[i].0 > results[j].0
        invariant forall i :: 0 <= i < |results| ==> results[i].0 >= id
        invariant forall k, row :: (k, row) in results <==> k >= id && k in rows && row == rows[k] && Active(row)
      {
        id := id - 1;
        if id in rows && Active(rows[id]) {
          results := results + [(id, rows[id])];
        }
      }
      reply := Ok(results);
    }
  }
}
