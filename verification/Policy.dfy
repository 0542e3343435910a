/** Tool calls, and the policy that decides them. */
module Policy {
  import opened Identities
  import opened Machines

  /** A decoded JSON argument, as far as the policy and the executor look at it. */
  datatype Value = Text(s: string) | List(items: seq<Value>) | Other(raw: string)

  type Arguments = map<string, Value>

  /** Letter case and quoting, left abstract: strings.ToLower, strings.EqualFold and the %q verb. */
  datatype Words = Words(lower: string -> string, equalFold: (string, string) -> bool, quote: string -> string)

  datatype Decision = Allow | RequireApproval | Deny

  datatype ToolCall = ToolCall(name: string, arguments: Arguments, identity: Identity)

  datatype Evaluation = Evaluation(tool: string, decision: Decision, reason: string, risk: int)

  const SENSITIVE: set<string> := {"ssn", "password", "api_key", "credit_card", "health_data", "bank_account"}
  const PROTECTED: set<string> := {"role", "permissions", "account_owner", "billing_plan"}

  function Argument(arguments: Arguments, key: string): Value {
    if key in arguments then arguments[key] else Other("null")
  }

  /** The strings among the items, in order; anything but a list has none. */
  function StringSlice(value: Value): seq<string> {
    if value.List? then Strings(value.items) else []
  }

  function Strings(items: seq<Value>): seq<string> {
    if |items| == 0 then []
    else Strings(items[..|items| - 1]) + if items[|items| - 1].Text? then [items[|items| - 1].s] else []
  }

  method CollectStrings(value: Value) returns (result: seq<string>)
    ensures result == StringSlice(value)
  {
    result := [];
    if value.List? {
      for i := 0 to |value.items|
        invariant result == Strings(value.items[..i])
      {
        assert value.items[..i + 1][..i] == value.items[..i];
        if value.items[i].Text? {
          result := result + [value.items[i].s];
        }
      }
      assert value.items[..|value.items|] == value.items;
    }
  }

  /** The position of the first field whose lower-case form is banned, or the number of fields. */
  function FirstBanned(words: Words, banned: set<string>, fields: seq<string>): (n: nat)
    ensures n <= |fields|
    ensures forall i :: 0 <= i < n ==> words.lower(fields[i]) !in banned
    ensures n < |fields| ==> words.lower(fields[n]) in banned
  {
    if |fields| == 0 || words.lower(fields[0]) in banned then 0
    else 1 + FirstBanned(words, banned, fields[1..])
  }

  /** The read-only loop over the fields. */
  method FindBanned(words: Words, banned: set<string>, fields: seq<string>) returns (n: nat)
    ensures n == FirstBanned(words, banned, fields)
  {
    n := 0;
    while n < |fields| && words.lower(fields[n]) !in banned
      invariant n <= FirstBanned(words, banned, fields)
    {
      n := n + 1;
    }
  }

  predicate IsContact(words: Words, field: string) {
    words.equalFold(field, "email") || words.equalFold(field, "phone")
  }

  function EvaluateReadCustomer(words: Words, call: ToolCall): Evaluation {
    var fields := StringSlice(Argument(call.arguments, "fields"));
    if call.identity.role == ANALYST && exists i :: 0 <= i < |fields| && IsContact(words, fields[i]) then
      Evaluation(call.name, Deny, "analysts cannot access customer contact fields", 80)
    else
      var n := FirstBanned(words, SENSITIVE, fields);
      if n < |fields| then
        Evaluation(call.name, Deny, "sensitive field " + words.quote(fields[n]) + " cannot be accessed", 90)
      else
        Evaluation(call.name, Allow, "requested customer fields are permitted", 10)
  }

  function Recipient(arguments: Arguments): string {
    if Argument(arguments, "to").Text? then Argument(arguments, "to").s else ""
  }

  predicate Internal(words: Words, to: string) {
    var l, suffix := words.lower(to), "@sentrymesh.local";
    |l| >= |suffix| && l[|l| - |suffix|..] == suffix
  }

  function EvaluateSendEmail(words: Words, call: ToolCall): Evaluation {
    if call.identity.role == ANALYST then
      Evaluation(call.name, Deny, "analysts cannot send external email", 80)
    else if Recipient(call.arguments) == "" then
      Evaluation(call.name, Deny, "email recipient is required", 80)
    else if Internal(words, Recipient(call.arguments)) then
      Evaluation(call.name, Allow, "internal email recipient", 20)
    else
      Evaluation(call.name, RequireApproval, "external email requires human approval", 60)
  }

  function EvaluateUpdateCustomer(words: Words, call: ToolCall): Evaluation {
    var fields := StringSlice(Argument(call.arguments, "fields"));
    var n := FirstBanned(words, PROTECTED, fields);
    if n < |fields| then
      Evaluation(call.name, Deny, "protected field " + words.quote(fields[n]) + " cannot be modified", 90)
    else if call.identity.role == ANALYST then
      Evaluation(call.name, Deny, "analysts cannot modify customer records", 85)
    else if call.identity.role == SALES then
      Evaluation(call.name, RequireApproval, "sales customer mutation requires approval", 70)
    else
      Evaluation(call.name, Allow, "admin customer mutation permitted", 30)
  }

  function Evaluate(words: Words, call: ToolCall): Evaluation {
    if call.name == "read_customer" then EvaluateReadCustomer(words, call)
    else if call.name == "search_documents" then Evaluation(call.name, Allow, "read-only search operation", 10)
    else if call.name == "send_email" then EvaluateSendEmail(words, call)
    else if call.name == "update_customer" then EvaluateUpdateCustomer(words, call)
    else if call.name == "delete_customer" then
      if call.identity.role != ADMIN then
        Evaluation(call.name, Deny, "only admins may request customer deletion", 95)
      else
        Evaluation(call.name, RequireApproval, "admin destructive action requires approval", 95)
    else Evaluation(call.name, Deny, "unknown tools are denied by default", 90)
  }

  function Fields(call: ToolCall): seq<string> {
    StringSlice(Argument(call.arguments, "fields"))
  }

  ghost predicate Touches(words: Words, call: ToolCall, banned: set<string>) {
    exists f :: f in Fields(call) && words.lower(f) in banned
  }

  lemma BannedIff(words: Words, call: ToolCall, banned: set<string>)
    ensures FirstBanned(words, banned, Fields(call)) < |Fields(call)| <==> Touches(words, call, banned)
  {
    var n := FirstBanned(words, banned, Fields(call));
    if n < |Fields(call)| {
      assert Fields(call)[n] in Fields(call);
    }
  }

  /** The refusal names a field of the call that is banned. */
  ghost predicate Blames(words: Words, call: ToolCall, banned: set<string>,
                         before: string, reason: string, after: string)
  {
    exists f :: f in Fields(call) && words.lower(f) in banned && reason == before + words.quote(f) + after
  }

  /** Nobody reads sensitive fields, and analysts no contact fields; everything else may be read. */
  method ReadCustomer(words: Words, call: ToolCall) returns (e: Evaluation)
    ensures e == EvaluateReadCustomer(words, call)
    ensures e.decision == Allow <==>
            !Touches(words, call, SENSITIVE) &&
            (call.identity.role == ANALYST ==> forall f :: f in Fields(call) ==> !IsContact(words, f))
    ensures e.decision != Allow ==> e.decision == Deny
    ensures e.decision == Deny && e.risk == 90 ==>
            Blames(words, call, SENSITIVE, "sensitive field ", e.reason, " cannot be accessed")
  {
    BannedIff(words, call, SENSITIVE);
    var fields := CollectStrings(Argument(call.arguments, "fields"));
    if call.identity.role == ANALYST {
      for i := 0 to |fields|
        invariant forall j :: 0 <= j < i ==> !IsContact(words, fields[j])
      {
        if words.equalFold(fields[i], "email") || words.equalFold(fields[i], "phone") {
          return Evaluation(call.name, Deny, "analysts cannot access customer contact fields", 80);
        }
      }
    }
    var n := FindBanned(words, SENSITIVE, fields);
    if n < |fields| {
      return Evaluation(call.name, Deny, "sensitive field " + words.quote(fields[n]) + " cannot be accessed", 90);
    }
    e := Evaluation(call.name, Allow, "requested customer fields are permitted", 10);
  }

  /** Nobody changes protected fields, and analysts none at all; sales wait for approval. */
  method UpdateCustomer(words: Words, call: ToolCall) returns (e: Evaluation)
    ensures e == EvaluateUpdateCustomer(words, call)
    ensures e.decision == Deny <==> Touches(words, call, PROTECTED) || call.identity.role == ANALYST
    ensures e.decision == RequireApproval <==> !Touches(words, call, PROTECTED) && call.identity.role == SALES
    ensures Touches(words, call, PROTECTED) ==>
            Blames(words, call, PROTECTED, "protected field ", e.reason, " cannot be modified")
  {
    BannedIff(words, call, PROTECTED);
    var fields := CollectStrings(Argument(call.arguments, "fields"));
    var n := FindBanned(words, PROTECTED, fields);
    if n < |fields| {
      return Evaluation(call.name, Deny, "protected field " + words.quote(fields[n]) + " cannot be modified", 90);
    }
    if call.identity.role == ANALYST {
      return Evaluation(call.name, Deny, "analysts cannot modify customer records", 85);
    }
    if call.identity.role == SALES {
      return Evaluation(call.name, RequireApproval, "sales customer mutation requires approval", 70);
    }
    e := Evaluation(call.name, Allow, "admin customer mutation permitted", 30);
  }

  /** The policy with its loops. */
  method Decide(words: Words, call: ToolCall) returns (e: Evaluation)
    ensures e == Evaluate(words, call)
  {
    if call.name == "read_customer" {
      e := ReadCustomer(words, call);
    } else if call.name == "update_customer" {
      e := UpdateCustomer(words, call);
    } else {
      e := Evaluate(words, call);
    }
  }

  datatype ToolResult = ToolResult(tool: string, status: string)

  /** The tools with an executor. A cancelled request or any other tool is an error without effect. */
  function Execute(cancelled: bool, tool: string): Option<ToolResult> {
    if cancelled then None
    else if tool == "send_email" || tool == "update_customer" then Some(ToolResult(tool, "EXECUTED"))
    else None
  }

  /** The calls that wait for a human and can then run. */
  ghost predicate Sensitive(words: Words, call: ToolCall) {
    || (call.name == "send_email" && call.identity.role != ANALYST
        && Recipient(call.arguments) != "" && !Internal(words, Recipient(call.arguments)))
    || (call.name == "update_customer" && call.identity.role == SALES
        && !Touches(words, call, PROTECTED))
  }

  /** The calls that run at once. */
  ghost predicate Harmless(words: Words, call: ToolCall) {
    || (call.name == "read_customer" && !Touches(words, call, SENSITIVE)
        && (call.identity.role == ANALYST ==> forall f :: f in Fields(call) ==> !IsContact(words, f)))
    || call.name == "search_documents"
    || (call.name == "send_email" && call.identity.role != ANALYST
        && Recipient(call.arguments) != "" && Internal(words, Recipient(call.arguments)))
    || (call.name == "update_customer" && call.identity.role != ANALYST && call.identity.role != SALES
        && !Touches(words, call, PROTECTED))
  }

  /** The whole policy: what runs at once, what waits for a human, and that all else, unknown tools
      included, is denied. */
  lemma DecisionIff(words: Words, call: ToolCall)
    ensures Evaluate(words, call).decision == Allow <==> Harmless(words, call)
    ensures Evaluate(words, call).decision == RequireApproval
            <==> Sensitive(words, call) || (call.name == "delete_customer" && call.identity.role == ADMIN)
  {
    BannedIff(words, call, SENSITIVE);
    BannedIff(words, call, PROTECTED);
  }

  /** Policy and executor together: a call both needs approval and can be executed exactly when
      it is an external email of a non-analyst or an unprotected update by sales. In particular
      an approved deletion never runs. */
  lemma ApprovedAndExecutable(words: Words, call: ToolCall)
    ensures Evaluate(words, call).decision == RequireApproval && Execute(false, call.name).Some?
            <==> Sensitive(words, call)
  {
    DecisionIff(words, call);
  }

  /** What counts as more permissive. */
  function Leniency(d: Decision): nat {
    match d
    case Deny => 0
    case RequireApproval => 1
    case Allow => 2
  }

  /** Asking for less is never decided more strictly: a call that differs in its fields alone, and
      has none that the other has not, gets at least as much. In particular neither the order nor
      the repetition of fields matters. */
  lemma FewerFieldsNoStricter(words: Words, less: ToolCall, more: ToolCall)
    requires less.name == more.name && less.identity == more.identity
    requires Recipient(less.arguments) == Recipient(more.arguments)
    requires forall f :: f in Fields(less) ==> f in Fields(more)
    ensures Leniency(Evaluate(words, less).decision) >= Leniency(Evaluate(words, more).decision)
  {
    DecisionIff(words, less);
    DecisionIff(words, more);
  }
}
