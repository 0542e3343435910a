/** Retrieval: who may see a document, what the firewall leaves of it, and which documents make
    up the context. The scanner and the comparison that ignores letter case stay abstract. */
module Rag {
  import opened Identities
  import opened Lists
  import opened Normalizer
  import opened Text

  datatype Env = Env(scan: string -> seq<Finding>, equalFold: (string, string) -> bool)

  datatype TrustLevel = TrustedInternal | UntrustedExternal | OtherTrust(name: string)

  datatype Document = Document(
    id: string, source: string, ownerTeam: string, classification: string,
    trustLevel: TrustLevel, content: string, allowedRoles: seq<string>)

  predicate Dirty(env: Env, text: string) {
    |env.scan(text)| > 0
  }

  /** Why an entry of the trace stands as it does. The code has the wordings in place. */
  datatype Reason =
    | NeedsAdmin | RoleNotListed | CrossTeam | AccessPermitted
    | Pending | CombinedDirty | SanitizedDirty
    | PassedChecks | UntrustedInjection | TrustedFiltered

  function Wording(r: Reason): string {
    match r
    case NeedsAdmin => "restricted document requires admin role"
    case RoleNotListed => "caller role is not authorized for document"
    case CrossTeam => "cross-team document access denied"
    case AccessPermitted => "document access permitted"
    case Pending => "pending retrieval security checks"
    case CombinedDirty => "combined retrieval context contains prompt injection"
    case SanitizedDirty => "sanitized retrieval context contains prompt injection"
    case PassedChecks => "document passed retrieval security checks"
    case UntrustedInjection => "untrusted document contains prompt injection"
    case TrustedFiltered => "trusted document contained suspicious instructions and was filtered"
  }

  /** A trace reader can tell a pending entry from the others. */
  lemma OnlyPendingReadsPending(r: Reason)
    requires r != Pending
    ensures Wording(r) != Wording(Pending)
  {
    assert Wording(Pending)[0] == 'p' && |Wording(Pending)| == 33;
    if r == CrossTeam {
      assert Wording(r)[0] == 'c';
    } else {
      assert |Wording(r)| != 33;
    }
  }

  // ---------- authorization ----------

  datatype AuthorizationResult = AuthorizationResult(allowed: bool, reason: Reason)

  predicate Restricted(env: Env, d: Document) {
    env.equalFold(d.classification, "RESTRICTED")
  }

  predicate RoleListed(env: Env, who: Identity, d: Document) {
    exists i :: 0 <= i < |d.allowedRoles| && env.equalFold(d.allowedRoles[i], who.role)
  }

  /** Who may see a document: restricted ones need an admin, a role list names the roles (admins
      included), and a team's documents need that team or an admin. */
  predicate Permitted(env: Env, who: Identity, d: Document) {
    && (Restricted(env, d) ==> who.role == ADMIN)
    && (d.allowedRoles == [] || RoleListed(env, who, d))
    && (d.ownerTeam == "" || who.team == d.ownerTeam || who.role == ADMIN)
  }

  /** The first rule that speaks against the caller gives the reason. */
  function DenialReason(env: Env, who: Identity, d: Document): Reason {
    if Restricted(env, d) && who.role != ADMIN then NeedsAdmin
    else if d.allowedRoles != [] && !RoleListed(env, who, d) then RoleNotListed
    else CrossTeam
  }

  method Authorize(env: Env, d: Document, who: Identity) returns (result: AuthorizationResult)
    ensures result.allowed <==> Permitted(env, who, d)
    ensures result.reason == if result.allowed then AccessPermitted else DenialReason(env, who, d)
  {
    if env.equalFold(d.classification, "RESTRICTED") && who.role != ADMIN {
      return AuthorizationResult(false, NeedsAdmin);
    }
    if |d.allowedRoles| > 0 {
      var allowed := false;
      for i := 0 to |d.allowedRoles|
        invariant !allowed
        invariant forall j :: 0 <= j < i ==> !env.equalFold(d.allowedRoles[j], who.role)
      {
        if env.equalFold(d.allowedRoles[i], who.role) {
          allowed := true;
          break;
        }
      }
      if !allowed {
        return AuthorizationResult(false, RoleNotListed);
      }
    }
    if d.ownerTeam != "" && who.team != d.ownerTeam && who.role != ADMIN {
      return AuthorizationResult(false, CrossTeam);
    }
    result := AuthorizationResult(true, AccessPermitted);
  }

  // ---------- firewall ----------

  datatype Decision = Allow | Filtered | Block

  datatype Result = Result(
    documentID: string, decision: Decision, sanitized: string, findings: seq<Finding>, reason: Reason)

  function IsQuiet(env: Env): string -> bool {
    (line: string) => !Dirty(env, line)
  }

  /** The lines of a text that scan clean, in their order. */
  function QuietLines(env: Env, content: string): seq<string> {
    Filter(Split(content, IsNewline), IsQuiet(env))
  }

  method RemoveSuspiciousLines(env: Env, content: string) returns (text: string)
    ensures text == TrimSpace(Join(QuietLines(env, content), '\n'))
  {
    var lines := Split(content, IsNewline);
    var safe := [];
    for i := 0 to |lines|
      invariant safe == Filter(lines[..i], IsQuiet(env))
    {
      PrefixSnoc(lines, i);
      if |env.scan(lines[i])| > 0 {
        continue;
      }
      safe := safe + [lines[i]];
    }
    assert lines[..|lines|] == lines;
    text := TrimSpace(Join(safe, '\n'));
  }

  /** Before the final trim, every line that is left scans clean, exactly when a line is left at
      all or the empty text scans clean; and the lines left are the clean ones of the text, in
      their order. */
  lemma RemainingLinesScanClean(env: Env, content: string)
    ensures var left := Split(Join(QuietLines(env, content), '\n'), IsNewline);
            (forall i :: 0 <= i < |left| ==> !Dirty(env, left[i])) <==>
            QuietLines(env, content) != [] || !Dirty(env, "")
    ensures QuietLines(env, content) != [] ==>
              Split(Join(QuietLines(env, content), '\n'), IsNewline) ==
              At(Split(content, IsNewline), Positions(Split(content, IsNewline), IsQuiet(env)))
  {
    var lines, quiet := Split(content, IsNewline), QuietLines(env, content);
    PositionsExact(lines, IsQuiet(env));
    if quiet == [] {
      assert Split("", IsNewline) == [""];
      assert Split(Join(quiet, '\n'), IsNewline)[0] == "";
    } else {
      SplitFree(content, IsNewline);
      forall i | 0 <= i < |quiet| ensures Free(quiet[i], IsNewline) && !Dirty(env, quiet[i]) {
        FilterElements(lines, IsQuiet(env), i);
        assert IsQuiet(env)(quiet[i]);
      }
      SplitOfJoin(quiet, '\n', IsNewline);
    }
  }

  /** What the firewall says of one document. */
  function Inspection(env: Env, d: Document): Result {
    var content := TrimSpace(d.content);
    if !Dirty(env, content) then
      Result(d.id, Allow, content, [], PassedChecks)
    else if d.trustLevel == UntrustedExternal then
      Result(d.id, Block, "", env.scan(content), UntrustedInjection)
    else
      Result(d.id, Filtered, TrimSpace(Join(QuietLines(env, content), '\n')), env.scan(content),
             TrustedFiltered)
  }

  /** `left` are the lines of the document, at ascending positions, that scan clean, and all of them. */
  ghost predicate CleanPart(env: Env, d: Document, left: seq<string>) {
    exists ps: seq<nat> :: CleanPositions(env, Split(TrimSpace(d.content), IsNewline), left, ps)
  }

  lemma CleanLinesOf(env: Env, d: Document)
    ensures CleanPart(env, d, QuietLines(env, TrimSpace(d.content)))
  {
    var lines := Split(TrimSpace(d.content), IsNewline);
    PositionsExact(lines, IsQuiet(env));
    CleanAt(env, lines, Filter(lines, IsQuiet(env)), Positions(lines, IsQuiet(env)));
  }

  /** `left` stands in `lines` at the positions `ps`, which are those of the clean ones. */
  ghost predicate CleanPositions(env: Env, lines: seq<string>, left: seq<string>, ps: seq<nat>) {
    && (forall i, j :: 0 <= i < j < |ps| ==> ps[i] < ps[j])
    && (forall k: nat :: k in ps <==> k < |lines| && !Dirty(env, lines[k]))
    && |left| == |ps| && (forall i :: 0 <= i < |ps| ==> ps[i] < |lines| && left[i] == lines[ps[i]])
  }

  lemma CleanAt(env: Env, lines: seq<string>, left: seq<string>, ps: seq<nat>)
    requires forall i, j :: 0 <= i < j < |ps| ==> ps[i] < ps[j]
    requires forall k: nat :: k in ps <==> k < |lines| && IsQuiet(env)(lines[k])
    requires |left| == |ps| && forall i :: 0 <= i < |ps| ==> ps[i] < |lines| && left[i] == lines[ps[i]]
    ensures CleanPositions(env, lines, left, ps)
  {
  }

  /** Dirty documents are never allowed, untrusted ones not even in part; what goes through is the
      trimmed text, or of a trusted dirty one exactly its clean lines in their order. */
  method Inspect(env: Env, d: Document) returns (result: Result)
    ensures result == Inspection(env, d)
    ensures result.findings == env.scan(TrimSpace(d.content))
    ensures result.decision == Allow <==> result.findings == []
    ensures result.decision == Block <==> result.findings != [] && d.trustLevel == UntrustedExternal
    ensures result.decision == Allow ==> result.sanitized == TrimSpace(d.content) && !Dirty(env, result.sanitized)
    ensures result.decision == Block ==> result.sanitized == ""
    ensures result.decision == Filtered ==> exists left: seq<string> :: CleanPart(env, d, left) &&
                                                      result.sanitized == TrimSpace(Join(left, '\n'))
    ensures IsTrimmed(result.sanitized)
  {
    CleanLinesOf(env, d);
    TrimSpaceTrims(d.content);
    TrimSpaceTrims(Join(QuietLines(env, TrimSpace(d.content)), '\n'));
    var content := TrimSpace(d.content);
    var findings := env.scan(content);
    if |findings| == 0 {
      return Result(d.id, Allow, content, [], PassedChecks);
    }
    if d.trustLevel == UntrustedExternal {
      return Result(d.id, Block, "", findings, UntrustedInjection);
    }
    var left := RemoveSuspiciousLines(env, content);
    result := Result(d.id, Filtered, left, findings, TrustedFiltered);
  }

  // ---------- the pipeline: what it should do ----------

  datatype ContextEntry = ContextEntry(
    documentID: string, source: string, trustLevel: TrustLevel, classification: string, ownerTeam: string,
    decision: Decision, included: bool, reason: Reason)

  datatype ContextTrace = ContextTrace(requestID: string, timestamp: int, entries: seq<ContextEntry>)

  datatype PipelineResult = PipelineResult(context: seq<Document>, trace: ContextTrace)

  function EntryFor(d: Document, decision: Decision, included: bool, reason: Reason): ContextEntry {
    ContextEntry(d.id, d.source, d.trustLevel, d.classification, d.ownerTeam, decision, included, reason)
  }

  function IsPermitted(env: Env, who: Identity): Document -> bool {
    (d: Document) => Permitted(env, who, d)
  }

  predicate Candidate(env: Env, who: Identity, d: Document) {
    Permitted(env, who, d) && Inspection(env, d).decision != Block
  }

  function IsCandidate(env: Env, who: Identity): Document -> bool {
    (d: Document) => Candidate(env, who, d)
  }

  /** The document with the text the firewall leaves of it. */
  function Sanitized(env: Env, d: Document): Document {
    d.(content := Inspection(env, d).sanitized)
  }

  function Sanitize(env: Env): Document -> Document {
    (d: Document) => Sanitized(env, d)
  }

  /** The text the aggregate scans see: every content, each followed by a newline. */
  function Combined(docs: seq<Document>): string {
    if |docs| == 0 then "" else Combined(docs[..|docs| - 1]) + docs[|docs| - 1].content + "\n"
  }

  /** How a whole retrieval goes: everything is blocked because the raw texts together are dirty,
      or because the sanitised ones are, or each document stands on its own. */
  datatype Mode = RawDirty | SafeDirty | Admitting

  function Authorized(env: Env, who: Identity, docs: seq<Document>): seq<Document> {
    Filter(docs, IsPermitted(env, who))
  }

  function Candidates(env: Env, who: Identity, docs: seq<Document>): seq<Document> {
    Map(Filter(docs, IsCandidate(env, who)), Sanitize(env))
  }

  function ModeOf(env: Env, who: Identity, docs: seq<Document>): Mode {
    if |Authorized(env, who, docs)| > 1 && Dirty(env, Combined(Authorized(env, who, docs))) then RawDirty
    else if Dirty(env, Combined(Candidates(env, who, docs))) then SafeDirty
    else Admitting
  }

  /** The trace entry of one document, which beyond the document itself depends on the mode alone. */
  function EntryOf(env: Env, who: Identity, mode: Mode, d: Document): ContextEntry {
    if !Permitted(env, who, d) then EntryFor(d, Block, false, DenialReason(env, who, d))
    else if mode == RawDirty then EntryFor(d, Block, false, CombinedDirty)
    else if Candidate(env, who, d) && mode == SafeDirty then EntryFor(d, Block, false, SanitizedDirty)
    else EntryFor(d, Inspection(env, d).decision, Candidate(env, who, d), Inspection(env, d).reason)
  }

  function TraceEntry(env: Env, who: Identity, mode: Mode): Document -> ContextEntry {
    (d: Document) => EntryOf(env, who, mode, d)
  }

  function Entries(env: Env, who: Identity, docs: seq<Document>): seq<ContextEntry> {
    Map(docs, TraceEntry(env, who, ModeOf(env, who, docs)))
  }

  function Context(env: Env, who: Identity, docs: seq<Document>): seq<Document> {
    if ModeOf(env, who, docs) == Admitting then Candidates(env, who, docs) else []
  }

  // ---------- the pipeline: what it does ----------

  function PendingOrDenied(env: Env, who: Identity, d: Document): ContextEntry {
    if Permitted(env, who, d) then EntryFor(d, Allow, false, Pending)
    else EntryFor(d, Block, false, DenialReason(env, who, d))
  }

  function Opening(env: Env, who: Identity): Document -> ContextEntry {
    (d: Document) => PendingOrDenied(env, who, d)
  }

  /** Stage 1: one entry for each document, and the permitted documents with their positions. */
  method AuthorizeAll(env: Env, who: Identity, docs: seq<Document>)
    returns (entries: seq<ContextEntry>, authorized: seq<Document>, indexes: seq<nat>)
    ensures entries == Map(docs, Opening(env, who))
    ensures authorized == Authorized(env, who, docs)
    ensures indexes == Positions(docs, IsPermitted(env, who))
  {
    entries, authorized, indexes := [], [], [];
    for i := 0 to |docs|
      invariant entries == Map(docs[..i], Opening(env, who))
      invariant authorized == Filter(docs[..i], IsPermitted(env, who))
      invariant indexes == Positions(docs[..i], IsPermitted(env, who))
    {
      PrefixKeeps(docs, i, IsPermitted(env, who), Opening(env, who));
      var auth := Authorize(env, docs[i], who);
      if !auth.allowed {
        entries := entries + [EntryFor(docs[i], Block, false, auth.reason)];
        continue;
      }
      indexes := indexes + [|entries|];
      authorized := authorized + [docs[i]];
      entries := entries + [EntryFor(docs[i], Allow, false, Pending)];
    }
    assert docs[..|docs|] == docs;
  }

  /** The loops that build the text of an aggregate scan. */
  method Combine(docs: seq<Document>) returns (text: string)
    ensures text == Combined(docs)
  {
    text := "";
    for i := 0 to |docs|
      invariant text == Combined(docs[..i])
    {
      PrefixSnoc(docs, i);
      text := text + docs[i].content;
      text := text + "\n";
    }
    assert docs[..|docs|] == docs;
  }

  /** The entries at the positions are blocked for one reason, the others stay. */
  function BlockedAt(entries: seq<ContextEntry>, ps: seq<nat>, reason: Reason): seq<ContextEntry> {
    seq(|entries|, k requires 0 <= k < |entries| =>
      if k in ps then entries[k].(decision := Block, included := false, reason := reason) else entries[k])
  }

  /** Blocking after an aggregate scan. */
  method BlockAll(entries: seq<ContextEntry>, indexes: seq<nat>, reason: Reason) returns (blocked: seq<ContextEntry>)
    requires forall i :: 0 <= i < |indexes| ==> indexes[i] < |entries|
    ensures blocked == BlockedAt(entries, indexes, reason)
  {
    blocked := entries;
    for i := 0 to |indexes|
      invariant blocked == BlockedAt(entries, indexes[..i], reason)
    {
      PrefixSnoc(indexes, i);
      var at := indexes[i];
      blocked := blocked[at := blocked[at].(decision := Block, included := false, reason := reason)];
    }
    assert indexes[..|indexes|] == indexes;
  }

  /** The entry of a document once it has been inspected. */
  function InspectedEntry(env: Env, who: Identity, d: Document): ContextEntry {
    if Permitted(env, who, d) then EntryFor(d, Inspection(env, d).decision, false, Inspection(env, d).reason)
    else PendingOrDenied(env, who, d)
  }

  function Inspected(env: Env, who: Identity): Document -> ContextEntry {
    (d: Document) => InspectedEntry(env, who, d)
  }

  /** Halfway through the inspection: the entries at the positions are inspected, the others stay. */
  ghost function InspectedAt(env: Env, who: Identity, docs: seq<Document>, ps: seq<nat>): (entries: seq<ContextEntry>)
    ensures |entries| == |docs|
  {
    seq(|docs|, k requires 0 <= k < |docs| =>
      if k in ps then InspectedEntry(env, who, docs[k]) else PendingOrDenied(env, who, docs[k]))
  }

  /** Those among the positions at which a candidate stands. */
  ghost function Narrowed(env: Env, who: Identity, docs: seq<Document>, ps: seq<nat>): seq<nat>
    requires forall i :: 0 <= i < |ps| ==> ps[i] < |docs|
  {
    if |ps| == 0 then []
    else
      var init, last := ps[..|ps| - 1], ps[|ps| - 1];
      Narrowed(env, who, docs, init) + if Candidate(env, who, docs[last]) then [last] else []
  }

  lemma {:induction false} NarrowedPrefix(env: Env, who: Identity, docs: seq<Document>, ps: seq<nat>)
    requires |docs| > 0 && forall i :: 0 <= i < |ps| ==> ps[i] < |docs| - 1
    ensures Narrowed(env, who, docs, ps) == Narrowed(env, who, docs[..|docs| - 1], ps)
    decreases |ps|
  {
    if |ps| == 0 {
    } else {
      NarrowedPrefix(env, who, docs, ps[..|ps| - 1]);
    }
  }

  lemma {:induction false} NarrowedPositions(env: Env, who: Identity, docs: seq<Document>)
    ensures Narrowed(env, who, docs, Positions(docs, IsPermitted(env, who))) == Positions(docs, IsCandidate(env, who))
    decreases |docs|
  {
    if |docs| == 0 {
    } else {
      var init := docs[..|docs| - 1];
      var ps := Positions(init, IsPermitted(env, who));
      NarrowedPositions(env, who, init);
      NarrowedPrefix(env, who, docs, ps);
      if Permitted(env, who, docs[|docs| - 1]) {
        assert (ps + [|docs| - 1])[..|ps|] == ps;
      } else {
        assert Positions(docs, IsPermitted(env, who)) == ps;
      }
    }
  }

  /** Stage 3: inspect the permitted documents one by one. */
  method InspectAll(env: Env, who: Identity, ghost docs: seq<Document>,
                    pending: seq<ContextEntry>, authorized: seq<Document>, indexes: seq<nat>)
    returns (entries: seq<ContextEntry>, safe: seq<Document>, safeIndexes: seq<nat>)
    requires pending == Map(docs, Opening(env, who))
    requires authorized == Authorized(env, who, docs) && indexes == Positions(docs, IsPermitted(env, who))
    ensures entries == Map(docs, Inspected(env, who))
    ensures safe == Candidates(env, who, docs) && safeIndexes == Positions(docs, IsCandidate(env, who))
  {
    PermittedPositions(env, who, docs);
    entries, safe, safeIndexes := pending, [], [];
    for i := 0 to |authorized|
      invariant entries == InspectedAt(env, who, docs, indexes[..i])
      invariant safe == Candidates(env, who, authorized[..i])
      invariant safeIndexes == Narrowed(env, who, docs, indexes[..i])
    {
      InspectStep(env, who, docs, i);
      var d, at := authorized[i], indexes[i];
      var result := Inspect(env, d);
      entries := entries[at := entries[at].(decision := result.decision, reason := result.reason)];
      if result.decision == Block {
        continue;
      }
      safe := safe + [d.(content := result.sanitized)];
      safeIndexes := safeIndexes + [at];
    }
    assert authorized[..|authorized|] == authorized && indexes[..|indexes|] == indexes;
    CandidatesOfAuthorized(env, who, docs);
    NarrowedPositions(env, who, docs);
    InspectedAtAll(env, who, docs);
  }

  lemma CandidatesOfAuthorized(env: Env, who: Identity, docs: seq<Document>)
    ensures Candidates(env, who, Authorized(env, who, docs)) == Candidates(env, who, docs)
  {
    FilterOfFilter(docs, IsPermitted(env, who), IsCandidate(env, who));
  }

  lemma PermittedPositions(env: Env, who: Identity, docs: seq<Document>)
    ensures |Positions(docs, IsPermitted(env, who))| == |Authorized(env, who, docs)|
    ensures InspectedAt(env, who, docs, []) == Map(docs, Opening(env, who))
  {
    PositionsExact(docs, IsPermitted(env, who));
  }

  lemma PermittedAt(env: Env, who: Identity, docs: seq<Document>, i: nat)
    requires i < |Authorized(env, who, docs)|
    ensures var ps := Positions(docs, IsPermitted(env, who));
            i < |ps| && Authorized(env, who, docs)[i] == docs[ps[i]] && Permitted(env, who, docs[ps[i]]) &&
            ps[i] !in ps[..i]
  {
    PositionsExact(docs, IsPermitted(env, who));
    assert Positions(docs, IsPermitted(env, who))[i] in Positions(docs, IsPermitted(env, who));
  }

  /** One turn of the inspection loop. */
  lemma InspectStep(env: Env, who: Identity, docs: seq<Document>, i: nat)
    requires i < |Authorized(env, who, docs)|
    ensures var ps, xs := Positions(docs, IsPermitted(env, who)), Authorized(env, who, docs);
            && i < |ps| == |xs|
            && var before, result := InspectedAt(env, who, docs, ps[..i]), Inspection(env, xs[i]);
            && InspectedAt(env, who, docs, ps[..i + 1]) ==
               before[ps[i] := before[ps[i]].(decision := result.decision, reason := result.reason)]
            && Candidates(env, who, xs[..i + 1]) ==
               Candidates(env, who, xs[..i]) + (if result.decision != Block then [Sanitized(env, xs[i])] else [])
            && Narrowed(env, who, docs, ps[..i + 1]) ==
               Narrowed(env, who, docs, ps[..i]) + (if result.decision != Block then [ps[i]] else [])
  {
    var ps, xs := Positions(docs, IsPermitted(env, who)), Authorized(env, who, docs);
    PermittedPositions(env, who, docs);
    PermittedAt(env, who, docs, i);
    PrefixSnoc(xs, i);
    PrefixSnoc(ps, i);
    InspectOne(env, who, docs, ps[..i], ps[i]);
    CandidatesSnoc(env, who, xs[..i], xs[i]);
    NarrowedSnoc(env, who, docs, ps[..i], ps[i]);
  }

  lemma InspectOne(env: Env, who: Identity, docs: seq<Document>, ps: seq<nat>, at: nat)
    requires at < |docs| && at !in ps && Permitted(env, who, docs[at])
    ensures var before, result := InspectedAt(env, who, docs, ps), Inspection(env, docs[at]);
            InspectedAt(env, who, docs, ps + [at]) ==
            before[at := before[at].(decision := result.decision, reason := result.reason)]
  {
  }

  lemma CandidatesSnoc(env: Env, who: Identity, docs: seq<Document>, d: Document)
    ensures Candidates(env, who, docs + [d]) ==
            Candidates(env, who, docs) + if Candidate(env, who, d) then [Sanitized(env, d)] else []
  {
    assert (docs + [d])[..|docs|] == docs;
  }

  lemma NarrowedSnoc(env: Env, who: Identity, docs: seq<Document>, ps: seq<nat>, at: nat)
    requires at < |docs| && forall i :: 0 <= i < |ps| ==> ps[i] < |docs|
    ensures Narrowed(env, who, docs, ps + [at]) ==
            Narrowed(env, who, docs, ps) + if Candidate(env, who, docs[at]) then [at] else []
  {
    assert (ps + [at])[..|ps|] == ps;
  }

  lemma InspectedAtAll(env: Env, who: Identity, docs: seq<Document>)
    ensures InspectedAt(env, who, docs, Positions(docs, IsPermitted(env, who))) == Map(docs, Inspected(env, who))
  {
    PositionsExact(docs, IsPermitted(env, who));
  }

  function IncludedAt(entries: seq<ContextEntry>, ps: seq<nat>): seq<ContextEntry> {
    seq(|entries|, k requires 0 <= k < |entries| => if k in ps then entries[k].(included := true) else entries[k])
  }

  /** Stage 5: admit what is left. */
  method AdmitAll(entries: seq<ContextEntry>, safe: seq<Document>, safeIndexes: seq<nat>)
    returns (admitted: seq<ContextEntry>, context: seq<Document>)
    requires |safe| == |safeIndexes| && forall i :: 0 <= i < |safeIndexes| ==> safeIndexes[i] < |entries|
    ensures context == safe && admitted == IncludedAt(entries, safeIndexes)
  {
    admitted, context := entries, [];
    for i := 0 to |safe|
      invariant context == safe[..i] && admitted == IncludedAt(entries, safeIndexes[..i])
    {
      PrefixSnoc(safe, i);
      PrefixSnoc(safeIndexes, i);
      var at := safeIndexes[i];
      admitted := admitted[at := admitted[at].(included := true)];
      context := context + [safe[i]];
    }
    assert safe[..|safe|] == safe && safeIndexes[..|safeIndexes|] == safeIndexes;
  }

  /** The three ways out write the entries that are specified. */
  lemma RawExit(env: Env, who: Identity, docs: seq<Document>)
    requires ModeOf(env, who, docs) == RawDirty
    ensures BlockedAt(Map(docs, Opening(env, who)), Positions(docs, IsPermitted(env, who)), CombinedDirty) ==
            Entries(env, who, docs)
  {
    PositionsExact(docs, IsPermitted(env, who));
  }

  lemma SafeExit(env: Env, who: Identity, docs: seq<Document>)
    requires ModeOf(env, who, docs) == SafeDirty
    ensures BlockedAt(Map(docs, Inspected(env, who)), Positions(docs, IsCandidate(env, who)), SanitizedDirty) ==
            Entries(env, who, docs)
  {
    PositionsExact(docs, IsCandidate(env, who));
  }

  lemma AdmittingExit(env: Env, who: Identity, docs: seq<Document>)
    requires ModeOf(env, who, docs) == Admitting
    ensures IncludedAt(Map(docs, Inspected(env, who)), Positions(docs, IsCandidate(env, who))) ==
            Entries(env, who, docs)
  {
    PositionsExact(docs, IsCandidate(env, who));
    forall k: nat | k < |docs|
      ensures InspectedEntry(env, who, docs[k]).(included := Candidate(env, who, docs[k])) ==
              EntryOf(env, who, Admitting, docs[k])
    {
      AdmittedEntry(env, who, docs[k]);
    }
  }

  lemma AdmittedEntry(env: Env, who: Identity, d: Document)
    ensures InspectedEntry(env, who, d).(included := Candidate(env, who, d)) == EntryOf(env, who, Admitting, d)
  {
  }

  /** The five stages together are the specification. */
  method BuildContext(env: Env, requestID: string, who: Identity, docs: seq<Document>, now: int)
    returns (result: PipelineResult)
    ensures result.trace == ContextTrace(requestID, now, Entries(env, who, docs))
    ensures result.context == Context(env, who, docs)
  {
    var entries, authorized, indexes := AuthorizeAll(env, who, docs);
    var raw := Combine(authorized);
    if |env.scan(raw)| > 0 && |authorized| > 1 {
      RawExit(env, who, docs);
      entries := BlockAll(entries, indexes, CombinedDirty);
      return PipelineResult([], ContextTrace(requestID, now, entries));
    }
    var safe, safeIndexes;
    entries, safe, safeIndexes := InspectAll(env, who, docs, entries, authorized, indexes);
    var combined := Combine(safe);
    if |env.scan(combined)| > 0 {
      SafeExit(env, who, docs);
      entries := BlockAll(entries, safeIndexes, SanitizedDirty);
      return PipelineResult([], ContextTrace(requestID, now, entries));
    }
    AdmittingExit(env, who, docs);
    PositionsExact(docs, IsCandidate(env, who));
    var context;
    entries, context := AdmitAll(entries, safe, safeIndexes);
    result := PipelineResult(context, ContextTrace(requestID, now, entries));
  }

  // ---------- what the specification promises ----------

  /** The trace has one entry for each document, in order; it says included exactly when it does
      not say blocked; and no entry is left pending. */
  lemma TraceIsComplete(env: Env, who: Identity, docs: seq<Document>, k: nat)
    requires k < |docs|
    ensures |Entries(env, who, docs)| == |docs|
    ensures var e := Entries(env, who, docs)[k];
            && e == EntryFor(docs[k], e.decision, e.included, e.reason)
            && (e.included <==> e.decision != Block)
            && Wording(e.reason) != Wording(Pending)
  {
    OnlyPendingReadsPending(Entries(env, who, docs)[k].reason);
  }

  function IsIncluded(): ContextEntry -> bool {
    (e: ContextEntry) => e.included
  }

  /** The context is the sanitised documents at the included positions, in their order. */
  lemma ContextIsTheIncluded(env: Env, who: Identity, docs: seq<Document>)
    ensures |Entries(env, who, docs)| == |docs|
    ensures Context(env, who, docs) == Map(At(docs, Positions(Entries(env, who, docs), IsIncluded())), Sanitize(env))
  {
    IncludedPositions(env, who, docs);
    PositionsExact(docs, IsCandidate(env, who));
  }

  lemma IncludedPositions(env: Env, who: Identity, docs: seq<Document>)
    ensures Positions(Entries(env, who, docs), IsIncluded()) ==
            if ModeOf(env, who, docs) == Admitting then Positions(docs, IsCandidate(env, who)) else []
  {
    var entries, mode := Entries(env, who, docs), ModeOf(env, who, docs);
    forall k | 0 <= k < |docs| ensures entries[k].included <==> mode == Admitting && Candidate(env, who, docs[k]) {
      EntryIncluded(env, who, mode, docs[k]);
    }
    if mode == Admitting {
      PositionsAlike(docs, entries, IsCandidate(env, who), IsIncluded());
    } else {
      NoPositions(entries, IsIncluded());
    }
  }

  lemma EntryIncluded(env: Env, who: Identity, mode: Mode, d: Document)
    ensures EntryOf(env, who, mode, d).included <==> mode == Admitting && Candidate(env, who, d)
  {
  }

  /** Every document of the context is one the caller may see, changed in its text alone. An
      allowed one keeps its text but for the trim, and that text scans clean; a filtered one is
      not from an untrusted source. */
  lemma ContextIsAuthorized(env: Env, who: Identity, docs: seq<Document>, i: nat)
    requires i < |Context(env, who, docs)|
    ensures exists k :: 0 <= k < |docs| && Permitted(env, who, docs[k]) &&
                        Context(env, who, docs)[i] == docs[k].(content := Context(env, who, docs)[i].content) &&
                        if Dirty(env, TrimSpace(docs[k].content)) then docs[k].trustLevel != UntrustedExternal
                        else Context(env, who, docs)[i].content == TrimSpace(docs[k].content)
  {
    FilterElements(docs, IsCandidate(env, who), i);
  }

  /** The context as one text scans clean, exactly when there is a context or the empty text
      scans clean. */
  lemma ContextScansClean(env: Env, who: Identity, docs: seq<Document>)
    ensures !Dirty(env, Combined(Context(env, who, docs))) <==> Context(env, who, docs) != [] || !Dirty(env, "")
  {
  }

  /** Nothing the caller may not see has any influence: two retrievals with the same permitted
      documents give the same context, and the same entries for the permitted documents. */
  lemma NonInterference(env: Env, who: Identity, docs: seq<Document>, others: seq<Document>)
    requires Authorized(env, who, docs) == Authorized(env, who, others)
    ensures Context(env, who, docs) == Context(env, who, others)
    ensures |Entries(env, who, docs)| == |docs| && |Entries(env, who, others)| == |others|
    ensures At(Entries(env, who, docs), Positions(docs, IsPermitted(env, who))) ==
            At(Entries(env, who, others), Positions(others, IsPermitted(env, who)))
  {
    CandidatesOfAuthorized(env, who, docs);
    CandidatesOfAuthorized(env, who, others);
    PositionsExact(docs, IsPermitted(env, who));
    PositionsExact(others, IsPermitted(env, who));
  }

  /** In particular, taking the other documents out changes nothing. */
  lemma DeniedDocumentsAreInvisible(env: Env, who: Identity, docs: seq<Document>)
    ensures Context(env, who, docs) == Context(env, who, Authorized(env, who, docs))
    ensures |Entries(env, who, docs)| == |docs|
    ensures At(Entries(env, who, docs), Positions(docs, IsPermitted(env, who))) ==
            Entries(env, who, Authorized(env, who, docs))
  {
    var authorized := Authorized(env, who, docs);
    FilterOfFilter(docs, IsPermitted(env, who), IsPermitted(env, who));
    NonInterference(env, who, docs, authorized);
    PositionsExact(docs, IsPermitted(env, who));
    PositionsExact(authorized, IsPermitted(env, who));
  }
}
