/** The inductive invariant of the approval and execution protocol. */
module ApprovalInvariant {
  import opened Identities
  import opened Machines
  import opened Policy
  import opened ApprovalTable
  import opened ApprovalModel

  // ---------- the parts ----------

  /** Claimed and not executed. */
  predicate Before(p: Handler) {
    p.Starting? || p.Decoding? || p.Running? || p.Failing? || (p.Uncertain? && p.statement.Fail?)
  }

  /** Executed and not finished. */
  predicate After(p: Handler) {
    p.Finishing? || (p.Uncertain? && p.statement.Finish?)
  }

  /** Responsible for an EXECUTING row: live, or gone with its last statement still pending. */
  predicate Holds(p: Handler) {
    Before(p) || After(p)
  }

  predicate HasItem(p: Handler) {
    !p.Reading? && !p.Uncertain? && !p.Gone?
  }

  /** The handler goes on with the same approval and the same snapshot. */
  predicate SameItem(p: Handler, q: Handler) {
    HasItem(p) && HasItem(q) && q.id == p.id && q.item == p.item
  }

  predicate Asked(request: Request, row: Row) {
    row.tool == request.tool && row.arguments == request.arguments
  }

  predicate NeedsApproval(c: Config, request: Request) {
    Policy.Evaluate(c.words, ToolCall(request.tool, request.arguments, request.principal)).decision == RequireApproval
  }

  function WithRow(s: State, row: Row, request: Request): State {
    s.(rows := s.rows[s.nextID := row], nextID := s.nextID + 1, requests := s.requests[s.nextID := request])
  }

  ghost predicate RowInv(c: Config, s: State) {
    && s.nextID > 0
    && forall id :: id in s.rows ==>
         && 0 < id < s.nextID
         && (s.rows[id].executedAt.Some? <==> s.rows[id].status == Executed)
         && id in s.requests && Asked(s.requests[id], s.rows[id]) && NeedsApproval(c, s.requests[id])
         && (s.rows[id].status == Approved || s.rows[id].status == Executing || s.rows[id].status == Executed ==>
               id in s.grants && s.grants[id].role == ADMIN)
  }

  /** EXECUTING rows and outstanding claims are the same thing. */
  ghost predicate OwnerInv(s: State) {
    && (forall id :: id in s.owner <==> id in s.rows && s.rows[id].status == Executing)
    && (forall h :: h in s.handlers && Holds(s.handlers[h]) ==>
          s.handlers[h].id in s.owner && s.owner[s.handlers[h].id] == h)
    && (forall id :: id in s.owner ==>
          s.owner[id] in s.handlers &&
          (s.handlers[s.owner[id]].Gone? || (Holds(s.handlers[s.owner[id]]) && s.handlers[s.owner[id]].id == id)))
    && (forall h :: h in s.handlers && s.handlers[h].Uncertain? ==> !s.handlers[h].statement.SetStatus?)
  }

  ghost predicate Ran(s: State, id: nat) {
    exists x :: x in s.executions && x.id == id
  }

  ghost predicate RanBy(s: State, id: nat, h: nat) {
    exists x :: x in s.executions && x.id == id && x.handler == h
  }

  /** An execution's row is EXECUTED, or still EXECUTING under the claim that executed it. */
  ghost predicate Accounted(s: State, x: Execution) {
    && x.id in s.rows && s.rows[x.id].tool == x.tool && s.rows[x.id].arguments == x.arguments
    && (s.rows[x.id].status == Executed ||
        (x.id in s.owner && s.owner[x.id] == x.handler && x.handler in s.handlers && !Before(s.handlers[x.handler])))
  }

  ghost predicate ExecInv(s: State) {
    && (forall i, j :: 0 <= i < j < |s.executions| ==> s.executions[i].id != s.executions[j].id)
    && (forall x :: x in s.executions ==> Accounted(s, x))
    && (forall h :: h in s.handlers && After(s.handlers[h]) ==> RanBy(s, s.handlers[h].id, h))
    && (forall id :: id in s.rows && s.rows[id].status == Executed ==> Ran(s, id))
  }

  /** The snapshot a handler works with still describes the row. */
  ghost predicate SnapshotInv(s: State) {
    && (forall h :: h in s.handlers && HasItem(s.handlers[h]) ==>
          && s.handlers[h].id in s.rows
          && s.handlers[h].item.tool == s.rows[s.handlers[h].id].tool
          && s.handlers[h].item.arguments == s.rows[s.handlers[h].id].arguments)
    && (forall h :: h in s.handlers && s.handlers[h].Succeeding? ==> s.rows[s.handlers[h].id].status == Executed)
    && (forall e :: e in s.events && e.succeeded ==> e.id in s.rows && s.rows[e.id].status == Executed)
  }

  ghost predicate Inv(c: Config, s: State) {
    RowInv(c, s) && OwnerInv(s) && ExecInv(s) && SnapshotInv(s)
  }

  // ---------- moves that touch no row ----------

  /** Request `h` moves on without changing table, claims or executions. */
  ghost predicate Moves(s: State, t: State, h: nat) {
    && h in t.handlers
    && t == s.(handlers := s.handlers[h := t.handlers[h]], events := t.events, cancelled := t.cancelled)
    && var q := t.handlers[h];
    && (Before(q) ==> h in s.handlers && Before(s.handlers[h]) && s.handlers[h].id == q.id)
    && (After(q) ==> h in s.handlers && After(s.handlers[h]) && s.handlers[h].id == q.id)
    && (h in s.handlers ==> !s.handlers[h].Gone?)
    && (h in s.handlers && Holds(s.handlers[h]) ==> q.Gone? || (Holds(q) && s.handlers[h].id == q.id))
    && (q.Uncertain? ==> !q.statement.SetStatus?)
  }

  ghost predicate SnapshotMoves(s: State, t: State, h: nat)
    requires h in t.handlers
  {
    && var q := t.handlers[h];
    && (HasItem(q) ==> q.id in s.rows && q.item.tool == s.rows[q.id].tool && q.item.arguments == s.rows[q.id].arguments)
    && (q.Succeeding? ==> s.rows[q.id].status == Executed)
    && forall e :: e in t.events && e.succeeded ==> e in s.events || (e.id in s.rows && s.rows[e.id].status == Executed)
  }

  lemma KeptByMove(c: Config, s: State, t: State, h: nat)
    requires Inv(c, s) && Moves(s, t, h) && SnapshotMoves(s, t, h)
    ensures Inv(c, t)
  {
    assert RowInv(c, t);
    OwnerKeptByMove(s, t, h);
    ExecKeptByMove(s, t, h);
    SnapshotKeptByMove(s, t, h);
  }

  lemma OwnerKeptByMove(s: State, t: State, h: nat)
    requires OwnerInv(s) && Moves(s, t, h)
    ensures OwnerInv(t)
  {
  }

  lemma SnapshotKeptByMove(s: State, t: State, h: nat)
    requires SnapshotInv(s) && Moves(s, t, h) && SnapshotMoves(s, t, h)
    ensures SnapshotInv(t)
  {
  }

  /** Executions stay accounted for when their rows and holders do. */
  lemma ExecKept(s: State, t: State)
    requires ExecInv(s) && t.executions == s.executions
    requires forall x :: x in s.executions && Accounted(s, x) ==> Accounted(t, x)
    requires forall h :: h in t.handlers && After(t.handlers[h]) ==>
                           h in s.handlers && After(s.handlers[h]) && s.handlers[h].id == t.handlers[h].id
    requires forall id :: id in t.rows && t.rows[id].status == Executed ==>
                            (id in s.rows && s.rows[id].status == Executed) || Ran(s, id)
    ensures ExecInv(t)
  {
    forall h | h in t.handlers && After(t.handlers[h]) ensures RanBy(t, t.handlers[h].id, h) {
      assert RanBy(s, t.handlers[h].id, h);
    }
    forall id | id in t.rows && t.rows[id].status == Executed ensures Ran(t, id) {
      assert Ran(s, id);
    }
  }

  lemma ExecKeptByMove(s: State, t: State, h: nat)
    requires ExecInv(s) && Moves(s, t, h)
    ensures ExecInv(t)
  {
    ExecKept(s, t);
  }

  // ---------- statements ----------

  /** A row whose approval was granted, with its execution mark in order. */
  predicate Granted(row: Row) {
    && (row.status == Approved || row.status == Executing || row.status == Executed)
    && (row.executedAt.Some? <==> row.status == Executed)
  }

  /** A claim, a finish or a fail takes a granted row to a granted row of the same call. */
  lemma UpdateStaysGranted(row: Row, statement: Statement)
    requires !statement.SetStatus? && Matches(row, statement) && (row.executedAt.Some? <==> row.status == Executed)
    ensures var after := Updated(row, statement);
            Granted(row) && Granted(after) && after.tool == row.tool && after.arguments == row.arguments
  {
  }

  /** Only the claim holder's row changes, and its call stays the same. */
  lemma RowsKept(c: Config, s: State, t: State, id: nat, statement: Statement)
    requires RowInv(c, s) && !statement.SetStatus?
    requires t.rows == Apply(s.rows, id, statement) && t.nextID == s.nextID && t.requests == s.requests
    requires t.grants == s.grants
    ensures RowInv(c, t)
    ensures forall i :: i in s.rows <==> i in t.rows
    ensures forall i :: i in s.rows ==> t.rows[i].tool == s.rows[i].tool && t.rows[i].arguments == s.rows[i].arguments
  {
    if Affects(s.rows, id, statement) {
      UpdateStaysGranted(s.rows[id], statement);
      RowKept(c, s, t, id, Updated(s.rows[id], statement));
    }
  }

  lemma RowKept(c: Config, s: State, t: State, id: nat, row: Row)
    requires RowInv(c, s) && id in s.rows && Granted(s.rows[id]) && Granted(row)
    requires row.tool == s.rows[id].tool && row.arguments == s.rows[id].arguments
    requires t.rows == s.rows[id := row] && t.nextID == s.nextID && t.requests == s.requests && t.grants == s.grants
    ensures RowInv(c, t)
  {
  }

  lemma SnapshotKept(c: Config, s: State, t: State, h: nat)
    requires SnapshotInv(s) && h in t.handlers && t.handlers == s.handlers[h := t.handlers[h]] && t.events == s.events
    requires forall i :: i in s.rows <==> i in t.rows
    requires forall i :: i in s.rows ==> t.rows[i].tool == s.rows[i].tool && t.rows[i].arguments == s.rows[i].arguments
    requires forall i :: i in s.rows && s.rows[i].status == Executed ==> t.rows[i].status == Executed
    requires var q := t.handlers[h];
             && (HasItem(q) ==> h in s.handlers && SameItem(s.handlers[h], q))
             && (q.Succeeding? ==> t.rows[q.id].status == Executed)
    ensures SnapshotInv(t)
  {
  }

  /** A claim takes effect for request `h`, which goes on as `q`. */
  lemma KeptByClaim(c: Config, s: State, t: State, h: nat, id: nat, q: Handler)
    requires Inv(c, s) && Affects(s.rows, id, Claim)
    requires t == At(Effect(s, h, id, Claim), h, q)
    requires h in s.handlers && !Holds(s.handlers[h]) && !s.handlers[h].Gone?
    requires q.Gone? || (q.Starting? && q.id == id && SameItem(s.handlers[h], q))
    ensures Inv(c, t)
  {
    RowsKept(c, s, t, id, Claim);
    SnapshotKept(c, s, t, h);
    OwnerKeptByClaim(s, t, h, id, q);
    ExecKeptByClaim(c, s, t, h, id, q);
  }

  lemma OwnerKeptByClaim(s: State, t: State, h: nat, id: nat, q: Handler)
    requires OwnerInv(s) && Affects(s.rows, id, Claim) && h in s.handlers && !Holds(s.handlers[h])
    requires !s.handlers[h].Gone?
    requires t == At(Effect(s, h, id, Claim), h, q) && (q.Gone? || (q.Starting? && q.id == id))
    ensures OwnerInv(t)
  {
  }

  lemma ExecKeptByClaim(c: Config, s: State, t: State, h: nat, id: nat, q: Handler)
    requires OwnerInv(s) && ExecInv(s) && Affects(s.rows, id, Claim)
    requires h in s.handlers && !Holds(s.handlers[h]) && !s.handlers[h].Gone?
    requires t == At(Effect(s, h, id, Claim), h, q) && (q.Gone? || (q.Starting? && q.id == id))
    ensures ExecInv(t)
  {
    forall x | x in s.executions && Accounted(s, x) ensures Accounted(t, x) {
      assert x.id != id;
    }
    ExecKept(s, t);
  }

  /** The holder's finish or fail takes effect, and request `h` goes on as `q`. */
  ghost predicate Releases(s: State, t: State, h: nat, statement: Statement, q: Handler) {
    && h in s.handlers && Holds(s.handlers[h])
    && (if Before(s.handlers[h]) then statement.Fail? else statement.Finish?)
    && t == At(Effect(s, h, s.handlers[h].id, statement), h, q)
    && (q.Gone? || (q.Succeeding? && statement.Finish? && SameItem(s.handlers[h], q)))
  }

  /** It always finds its row, and its claim ends. */
  lemma KeptByRelease(c: Config, s: State, t: State, h: nat, statement: Statement, q: Handler)
    requires Inv(c, s) && Releases(s, t, h, statement, q)
    ensures Affects(s.rows, s.handlers[h].id, statement)
    ensures Inv(c, t)
  {
    HolderRow(s, h);
    TableKeptByRelease(c, s, t, h, statement, q);
    ClaimsKeptByRelease(s, t, h, statement, q);
  }

  lemma HolderRow(s: State, h: nat)
    requires OwnerInv(s) && h in s.handlers && Holds(s.handlers[h])
    ensures s.handlers[h].id in s.rows && s.rows[s.handlers[h].id].status == Executing
  {
    assert s.handlers[h].id in s.owner;
  }

  lemma TableKeptByRelease(c: Config, s: State, t: State, h: nat, statement: Statement, q: Handler)
    requires RowInv(c, s) && OwnerInv(s) && SnapshotInv(s) && Releases(s, t, h, statement, q)
    ensures RowInv(c, t) && SnapshotInv(t)
  {
    ReleaseFacts(s, t, h, statement, q);
    TableKeptByUpdate(c, s, t, h, s.handlers[h].id, statement);
  }

  lemma TableKeptByUpdate(c: Config, s: State, t: State, h: nat, id: nat, statement: Statement)
    requires RowInv(c, s) && SnapshotInv(s) && h in s.handlers && h in t.handlers && !statement.SetStatus?
    requires t.handlers == s.handlers[h := t.handlers[h]] && t.events == s.events
    requires t.nextID == s.nextID && t.requests == s.requests && t.grants == s.grants
    requires t.rows == Apply(s.rows, id, statement)
    requires id in s.rows && s.rows[id].status == Executing
    requires var q := t.handlers[h];
             q.Gone? || (q.Succeeding? && statement.Finish? && q.id == id && SameItem(s.handlers[h], q))
    ensures RowInv(c, t) && SnapshotInv(t)
  {
    RowsKept(c, s, t, id, statement);
    SnapshotKept(c, s, t, h);
  }

  /** A release in terms of the fields. */
  lemma ReleaseFacts(s: State, t: State, h: nat, statement: Statement, q: Handler)
    requires OwnerInv(s) && Releases(s, t, h, statement, q)
    ensures var id := s.handlers[h].id;
            && t.handlers == s.handlers[h := q] && t.owner == s.owner - {id}
            && t.executions == s.executions && t.events == s.events
            && t.nextID == s.nextID && t.requests == s.requests && t.grants == s.grants
            && t.rows == Apply(s.rows, id, statement)
            && id in s.rows && s.rows[id].status == Executing && t.rows == s.rows[id := t.rows[id]]
            && t.rows[id].status == (if statement.Finish? then Executed else Approved)
            && t.rows[id].tool == s.rows[id].tool && t.rows[id].arguments == s.rows[id].arguments
  {
    HolderRow(s, h);
  }

  lemma ClaimsKeptByRelease(s: State, t: State, h: nat, statement: Statement, q: Handler)
    requires OwnerInv(s) && ExecInv(s) && Releases(s, t, h, statement, q)
    ensures OwnerInv(t) && ExecInv(t)
  {
    OwnerKeptByRelease(s, t, h, statement, q);
    ExecKeptByRelease(s, t, h, statement, q);
  }

  lemma OwnerKeptByRelease(s: State, t: State, h: nat, statement: Statement, q: Handler)
    requires OwnerInv(s) && Releases(s, t, h, statement, q)
    ensures OwnerInv(t)
  {
    ReleaseFacts(s, t, h, statement, q);
    ClaimEnds(s, t, h, s.handlers[h].id, q);
  }

  lemma ClaimEnds(s: State, t: State, h: nat, id: nat, q: Handler)
    requires OwnerInv(s) && h in s.handlers && Holds(s.handlers[h]) && s.handlers[h].id == id
    requires t.handlers == s.handlers[h := q] && t.owner == s.owner - {id} && !Holds(q) && !q.Uncertain?
    requires id in t.rows && t.rows == s.rows[id := t.rows[id]] && t.rows[id].status != Executing
    ensures OwnerInv(t)
  {
    assert forall i :: i in t.owner ==> t.owner[i] != h;
  }

  lemma ExecKeptByRelease(s: State, t: State, h: nat, statement: Statement, q: Handler)
    requires OwnerInv(s) && ExecInv(s) && Releases(s, t, h, statement, q)
    ensures ExecInv(t)
  {
    var id := s.handlers[h].id;
    HolderRow(s, h);
    ReleaseFacts(s, t, h, statement, q);
    if statement.Finish? {
      assert RanBy(s, id, h);
      assert Ran(s, id);
    }
    forall x | x in s.executions && Accounted(s, x) ensures Accounted(t, x) {
      assert statement.Fail? ==> x.id != id;
    }
    ExecKept(s, t);
  }

  function ExecutionOf(p: Handler, h: nat): Execution
    requires HasItem(p)
  {
    Execution(p.id, p.item.tool, p.item.arguments, h)
  }

  ghost predicate Executes(s: State, t: State, h: nat, now: int)
    requires h in s.handlers && s.handlers[h].Running?
  {
    t == At(s, h, Finishing(s.handlers[h].id, s.handlers[h].item, now)).(
           executions := s.executions + [ExecutionOf(s.handlers[h], h)])
  }

  /** The one successful execution under a claim. */
  lemma KeptByExecute(c: Config, s: State, t: State, h: nat, now: int)
    requires Inv(c, s) && h in s.handlers && s.handlers[h].Running? && Executes(s, t, h, now)
    ensures Inv(c, t)
  {
    assert RowInv(c, t);
    ClaimsKeptByExecute(s, t, h, now);
    SnapshotKeptByExecute(s, t, h, now);
  }

  lemma ClaimsKeptByExecute(s: State, t: State, h: nat, now: int)
    requires OwnerInv(s) && ExecInv(s) && SnapshotInv(s)
    requires h in s.handlers && s.handlers[h].Running? && Executes(s, t, h, now)
    ensures OwnerInv(t) && ExecInv(t)
  {
    OwnerKeptByExecute(s, t, h);
    ExecKeptByExecute(s, t, h);
  }

  lemma SnapshotKeptByExecute(s: State, t: State, h: nat, now: int)
    requires SnapshotInv(s) && h in s.handlers && s.handlers[h].Running? && Executes(s, t, h, now)
    ensures SnapshotInv(t)
  {
  }

  lemma OwnerKeptByExecute(s: State, t: State, h: nat)
    requires OwnerInv(s) && h in s.handlers && s.handlers[h].Running? && h in t.handlers && t.handlers[h].Finishing?
    requires t.rows == s.rows && t.owner == s.owner && t.handlers == s.handlers[h := t.handlers[h]]
    requires t.handlers[h].id == s.handlers[h].id
    ensures OwnerInv(t)
  {
  }

  lemma ExecKeptByExecute(s: State, t: State, h: nat)
    requires OwnerInv(s) && ExecInv(s) && SnapshotInv(s)
    requires h in s.handlers && s.handlers[h].Running? && h in t.handlers && t.handlers[h].Finishing?
    requires t.rows == s.rows && t.owner == s.owner && t.handlers == s.handlers[h := t.handlers[h]]
    requires t.handlers[h].id == s.handlers[h].id
    requires t.executions == s.executions + [ExecutionOf(s.handlers[h], h)]
    ensures ExecInv(t)
  {
    var x := ExecutionOf(s.handlers[h], h);
    assert x in t.executions by { assert t.executions[|s.executions|] == x; }
    assert forall y :: y in s.executions ==> y in t.executions;
    NotYetExecuted(s, h);
    forall y | y in t.executions ensures Accounted(t, y) {
      if y in s.executions {
        assert Accounted(s, y);
      }
    }
    forall g | g in t.handlers && After(t.handlers[g]) ensures RanBy(t, t.handlers[g].id, g) {
      if g != h {
        assert RanBy(s, t.handlers[g].id, g);
      }
    }
    forall i | i in t.rows && t.rows[i].status == Executed ensures Ran(t, i) {
      assert Ran(s, i);
    }
  }

  /** Before its execution a claim has none. */
  lemma NotYetExecuted(s: State, h: nat)
    requires OwnerInv(s) && ExecInv(s) && h in s.handlers && Before(s.handlers[h])
    ensures forall y :: y in s.executions ==> y.id != s.handlers[h].id
  {
    HolderRow(s, h);
    assert forall y :: y in s.executions ==> Accounted(s, y);
  }

  // ---------- the other handlers ----------

  lemma KeptByNewRow(c: Config, s: State, t: State, row: Row, request: Request)
    requires Inv(c, s) && row.status == Pending && row.executedAt == None
    requires Asked(request, row) && NeedsApproval(c, request) && t == WithRow(s, row, request)
    ensures Inv(c, t)
  {
    assert s.nextID !in s.rows;
    RowsKeptByNewRow(c, s, t, row, request);
    TableKept(s, t, s.nextID);
  }

  lemma RowsKeptByNewRow(c: Config, s: State, t: State, row: Row, request: Request)
    requires RowInv(c, s) && row.status == Pending && row.executedAt == None
    requires Asked(request, row) && NeedsApproval(c, request) && t == WithRow(s, row, request)
    ensures RowInv(c, t)
  {
  }

  /** A change to a row that is neither EXECUTING nor EXECUTED, before or after, is invisible to claims and
      executions. */
  lemma TableKept(s: State, t: State, id: nat)
    requires OwnerInv(s) && ExecInv(s) && SnapshotInv(s)
    requires t.handlers == s.handlers && t.owner == s.owner && t.executions == s.executions && t.events == s.events
    requires id in t.rows && t.rows == s.rows[id := t.rows[id]]
    requires t.rows[id].status != Executing && t.rows[id].status != Executed
    requires id in s.rows ==> s.rows[id].status != Executing && s.rows[id].status != Executed &&
                              t.rows[id].tool == s.rows[id].tool && t.rows[id].arguments == s.rows[id].arguments
    ensures OwnerInv(t) && ExecInv(t) && SnapshotInv(t)
  {
    OwnerKeptByTable(s, t, id);
    ExecKept(s, t);
    SnapshotKeptByTable(s, t, id);
  }

  lemma OwnerKeptByTable(s: State, t: State, id: nat)
    requires OwnerInv(s) && t.handlers == s.handlers && t.owner == s.owner
    requires id in t.rows && t.rows == s.rows[id := t.rows[id]] && t.rows[id].status != Executing
    requires id in s.rows ==> s.rows[id].status != Executing
    ensures OwnerInv(t)
  {
  }

  lemma SnapshotKeptByTable(s: State, t: State, id: nat)
    requires SnapshotInv(s) && t.handlers == s.handlers && t.events == s.events
    requires id in t.rows && t.rows == s.rows[id := t.rows[id]]
    requires id in s.rows ==> s.rows[id].status != Executed &&
                              t.rows[id].tool == s.rows[id].tool && t.rows[id].arguments == s.rows[id].arguments
    ensures SnapshotInv(t)
  {
  }

  lemma KeptByResolve(c: Config, s: State, t: State, principal: Identity, id: nat, approve: bool)
    requires Inv(c, s) && principal.role == ADMIN && id in s.rows && s.rows[id].status == Pending
    requires t == s.(rows := s.rows[id := s.rows[id].(status := if approve then Approved else Rejected)],
                     grants := if approve then s.grants[id := principal] else s.grants)
    ensures Inv(c, t)
  {
    RowsKeptByResolve(c, s, t, principal, id, approve);
    TableKept(s, t, id);
  }

  lemma RowsKeptByResolve(c: Config, s: State, t: State, principal: Identity, id: nat, approve: bool)
    requires RowInv(c, s) && principal.role == ADMIN && id in s.rows && s.rows[id].status == Pending
    requires t == s.(rows := s.rows[id := s.rows[id].(status := if approve then Approved else Rejected)],
                     grants := if approve then s.grants[id := principal] else s.grants)
    ensures RowInv(c, t)
  {
  }

  // ---------- every step ----------

  /** What an answered store call is: a claim, a claim that finds no row, or a release. */
  ghost predicate AnswerKind(s: State, t: State, h: nat)
    requires h in s.handlers && PendingStatement(s.handlers[h]).Some?
  {
    var p := s.handlers[h];
    h in t.handlers &&
    var q := t.handlers[h];
    if p.Claiming? && Affects(s.rows, p.id, Claim) then
      t == At(Effect(s, h, p.id, Claim), h, q) && q.Starting? && q.id == p.id && SameItem(p, q)
    else if p.Claiming? then Moves(s, t, h) && SnapshotMoves(s, t, h)
    else Releases(s, t, h, PendingStatement(p).value, q)
  }

  lemma KeptByAnswer(c: Config, s: State, h: nat)
    requires Inv(c, s) && AnswerStep(c, s, h).Some?
    ensures Inv(c, AnswerStep(c, s, h).value)
  {
    AnswerIs(c, s, h);
    KeptByAnswerKind(c, s, AnswerStep(c, s, h).value, h);
  }

  lemma AnswerIs(c: Config, s: State, h: nat)
    requires AnswerStep(c, s, h).Some?
    ensures AnswerKind(s, AnswerStep(c, s, h).value, h)
  {
  }

  lemma KeptByAnswerKind(c: Config, s: State, t: State, h: nat)
    requires Inv(c, s) && h in s.handlers && PendingStatement(s.handlers[h]).Some? && AnswerKind(s, t, h)
    ensures Inv(c, t)
  {
    var p := s.handlers[h];
    if p.Claiming? && Affects(s.rows, p.id, Claim) {
      KeptByClaim(c, s, t, h, p.id, t.handlers[h]);
    } else if p.Claiming? {
      KeptByMove(c, s, t, h);
    } else {
      KeptByRelease(c, s, t, h, PendingStatement(p).value, t.handlers[h]);
    }
  }

  lemma KeptByLate(c: Config, s: State, t: State, h: nat)
    requires Inv(c, s) && h in s.handlers && s.handlers[h].Uncertain?
    requires var p := s.handlers[h]; t == At(Effect(s, h, p.id, p.statement), h, Gone(p.code))
    ensures Inv(c, t)
  {
    var p := s.handlers[h];
    if p.statement.Claim? {
      if Affects(s.rows, p.id, Claim) {
        KeptByClaim(c, s, t, h, p.id, Gone(p.code));
      } else {
        KeptByMove(c, s, t, h);
      }
    } else {
      KeptByRelease(c, s, t, h, p.statement, Gone(p.code));
    }
  }

  /** What a handler action is: a late statement, an execution, or a move that touches no row. */
  ghost predicate Kind(s: State, t: State, h: nat, act: HandlerAct) {
    if act.Late? then
      h in s.handlers && s.handlers[h].Uncertain? &&
      t == At(Effect(s, h, s.handlers[h].id, s.handlers[h].statement), h, Gone(s.handlers[h].code))
    else if act.Execute? && t.executions != s.executions then
      h in s.handlers && s.handlers[h].Running? && Executes(s, t, h, act.now)
    else Moves(s, t, h) && SnapshotMoves(s, t, h)
  }

  lemma KeptByServe(c: Config, s: State, h: nat, act: HandlerAct)
    requires Inv(c, s) && ServeStep(s, h, act).Some?
    ensures Inv(c, ServeStep(s, h, act).value)
  {
    if h in s.handlers {
      HandlerSnapshot(s, h);
    }
    ServeKind(s, h, act);
    KeptByKind(c, s, ServeStep(s, h, act).value, h, act);
  }

  lemma KeptByKind(c: Config, s: State, t: State, h: nat, act: HandlerAct)
    requires Inv(c, s) && Kind(s, t, h, act)
    ensures Inv(c, t)
  {
    if act.Late? {
      KeptByLate(c, s, t, h);
    } else if act.Execute? && t.executions != s.executions {
      KeptByExecute(c, s, t, h, act.now);
    } else {
      KeptByMove(c, s, t, h);
    }
  }

  /** One handler's part of the snapshot invariant. */
  ghost predicate Snapshot(s: State, p: Handler) {
    && (HasItem(p) ==> p.id in s.rows && p.item.tool == s.rows[p.id].tool && p.item.arguments == s.rows[p.id].arguments)
    && (p.Succeeding? ==> s.rows[p.id].status == Executed)
  }

  lemma HandlerSnapshot(s: State, h: nat)
    requires SnapshotInv(s) && h in s.handlers
    ensures Snapshot(s, s.handlers[h])
  {
  }

  lemma ServeKind(s: State, h: nat, act: HandlerAct)
    requires ServeStep(s, h, act).Some? && (h in s.handlers ==> Snapshot(s, s.handlers[h]))
    ensures Kind(s, ServeStep(s, h, act).value, h, act)
  {
    if act.Late? {
    } else if act.Execute? && ServeStep(s, h, act).value.executions != s.executions {
    } else {
      QuietMoves(s, h, act);
      QuietSnapshot(s, h, act);
    }
  }

  /** The handler drops its request, or its caller does. */
  predicate Drops(act: HandlerAct) {
    act.Crash? || act.Error? || act.Lose? || act.Cancel?
  }

  lemma QuietMoves(s: State, h: nat, act: HandlerAct)
    requires ServeStep(s, h, act).Some? && !act.Late?
    requires act.Execute? ==> ServeStep(s, h, act).value.executions == s.executions
    ensures Moves(s, ServeStep(s, h, act).value, h)
  {
    if Drops(act) {
      DropMoves(s, h, act);
    } else {
      GoOnMoves(s, h, act);
    }
  }

  lemma DropMoves(s: State, h: nat, act: HandlerAct)
    requires ServeStep(s, h, act).Some? && Drops(act)
    ensures Moves(s, ServeStep(s, h, act).value, h)
  {
  }

  lemma GoOnMoves(s: State, h: nat, act: HandlerAct)
    requires ServeStep(s, h, act).Some? && !act.Late? && !Drops(act)
    requires act.Execute? ==> ServeStep(s, h, act).value.executions == s.executions
    ensures Moves(s, ServeStep(s, h, act).value, h)
  {
  }

  lemma QuietSnapshot(s: State, h: nat, act: HandlerAct)
    requires ServeStep(s, h, act).Some? && !act.Late? && (h in s.handlers ==> Snapshot(s, s.handlers[h]))
    ensures h in ServeStep(s, h, act).value.handlers && SnapshotMoves(s, ServeStep(s, h, act).value, h)
  {
    if Drops(act) {
      DropSnapshot(s, h, act);
    } else if act.Audit? {
      AuditSnapshot(s, h, act);
    } else {
      GoOnSnapshot(s, h, act);
    }
  }

  lemma DropSnapshot(s: State, h: nat, act: HandlerAct)
    requires ServeStep(s, h, act).Some? && Drops(act) && (h in s.handlers ==> Snapshot(s, s.handlers[h]))
    ensures h in ServeStep(s, h, act).value.handlers && SnapshotMoves(s, ServeStep(s, h, act).value, h)
  {
  }

  lemma AuditSnapshot(s: State, h: nat, act: HandlerAct)
    requires ServeStep(s, h, act).Some? && act.Audit? && (h in s.handlers ==> Snapshot(s, s.handlers[h]))
    ensures h in ServeStep(s, h, act).value.handlers && SnapshotMoves(s, ServeStep(s, h, act).value, h)
  {
  }

  lemma GoOnSnapshot(s: State, h: nat, act: HandlerAct)
    requires ServeStep(s, h, act).Some? && (h in s.handlers ==> Snapshot(s, s.handlers[h]))
    requires !act.Late? && !Drops(act) && !act.Audit?
    ensures h in ServeStep(s, h, act).value.handlers && SnapshotMoves(s, ServeStep(s, h, act).value, h)
  {
  }

  lemma InvKept(c: Config, s: State, a: Action)
    requires Inv(c, s) && Step(c, s, a).Some?
    ensures Inv(c, Step(c, s, a).value)
  {
    match a {
      case Evaluate(principal, tool, arguments) =>
        var t := EvaluateStep(c, s, principal, tool, arguments);
        if t != s {
          KeptByNewRow(c, s, t, t.rows[s.nextID], Request(principal, tool, arguments));
        }
      case Resolve(principal, id, approve) =>
        var t := ResolveStep(s, principal, id, approve);
        if t != s {
          KeptByResolve(c, s, t, principal, id, approve);
        }
      case Serve(h, act) =>
        if act.Answer? {
          KeptByAnswer(c, s, h);
        } else {
          KeptByServe(c, s, h, act);
        }
    }
  }

  lemma InvReached(c: Config, s: State, actions: seq<Action>)
    requires Inv(c, s) && Run(Machine(c), s, actions).Some?
    ensures Inv(c, Run(Machine(c), s, actions).value)
  {
    forall t, a | Inv(c, t) && Machine(c)(t, a).Some?
      ensures Inv(c, Machine(c)(t, a).value)
    {
      InvKept(c, t, a);
    }
    RunKeeps(Machine(c), t => Inv(c, t), s, actions);
  }

  /** Every reachable state satisfies the invariant. */
  lemma Reaches(c: Config, actions: seq<Action>)
    requires Reached(c, actions).Some?
    ensures Inv(c, Reached(c, actions).value)
  {
    InvReached(c, Init(), actions);
  }
}
