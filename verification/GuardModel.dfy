/** The traffic guard as a transition system: any number of requests, of any keys, interleaved
    between their calls of tracker, limiter and handler, with restarts in between. */
module GuardModel {
  import opened Machines
  import Abuse = AbuseState
  import opened AbuseTracker
  import opened RateLimit
  import opened TrafficGuard

  datatype Config = Config(params: Abuse.Params, limits: Limits)

  /** Where a request stands. */
  datatype Stage =
    | Arrived                // before RegisterKey
    | Known                  // before Check
    | Passed                 // before Allow
    | Admitted               // before the handler
    | Replied(o: Outcome)    // before Add
    | Finished(o: Outcome)
    | Killed                 // with its process

  /** The calls that one process's limiter has seen up to, and including, call `at`. */
  datatype Window = Window(from: nat, at: nat)

  /** History: `checked` and `charged` are the positions of the request's Check and Add among the
      tracker's operations, `limited` is its call of the limiter. */
  datatype Request = Request(
    key: int, path: string, stage: Stage, checked: Option<nat>, limited: Option<Window>, charged: Option<nat>)

  /** `acts` and `outs` are the tracker's operations and their answers, `log` the limiter calls, the
      current process's from `from` on, and `handled` the requests that reached the handler. */
  datatype State = State(
    requests: map<nat, Request>, acts: seq<Act>, outs: seq<Abuse.Out>, log: seq<Call>, from: nat, handled: seq<nat>)

  function Init(): State {
    State(map[], [], [], [], 0, [])
  }

  datatype RequestAct =
    | Begin(key: int, path: string)
    | Register
    | Check(now: int)
    | Allow(now: int)
    | Handle(status: int)
    | Charge(now: int)

  datatype Action = Serve(r: nat, act: RequestAct) | Kill

  function At(s: State, r: nat, q: Request): State {
    s.(requests := s.requests[r := q])
  }

  /** The answer of one tracker operation. */
  function AnswerOf(c: Config, s: State, act: Act): Abuse.Out {
    Do(c.params, Final(c.params, FRESH, s.acts), act).1
  }

  function Track(c: Config, s: State, act: Act): State {
    s.(acts := s.acts + [act], outs := s.outs + [AnswerOf(c, s, act)])
  }

  /** The key's clock readings in a window. */
  function Seen(log: seq<Call>, w: Window, key: int): seq<int> {
    if w.from <= w.at < |log| then Readings(log[w.from..w.at + 1], KeyFor(key)) else []
  }

  predicate LetIn(c: Config, times: seq<int>) {
    |times| > 0 && Admits(c.limits, times)
  }

  function AfterCheck(q: Request, i: nat, out: Abuse.Out): Request {
    q.(checked := Some(i),
       stage := if out.Checked? && out.blocked then Finished(CoolingDown(out.retryAfter)) else Passed)
  }

  function Advice(c: Config, times: seq<int>): int {
    if |times| > 0 then RetryAfter(c.limits, Found(c.limits, times).tokens) else 0
  }

  function AfterAllow(c: Config, log: seq<Call>, q: Request, w: Window): Request {
    q.(limited := Some(w),
       stage := if LetIn(c, Seen(log, w, q.key)) then Admitted
                else Replied(RateLimited(Advice(c, Seen(log, w, q.key)))))
  }

  function Points(q: Request, o: Outcome): int {
    AbusePoints(q.path, StatusCode(o))
  }

  function RequestStep(c: Config, s: State, r: nat, a: RequestAct): Option<State> {
    if r !in s.requests then
      if a.Begin? then Some(At(s, r, Request(a.key, a.path, Arrived, None, None, None))) else None
    else
      var q := s.requests[r];
      match (q.stage, a)
      case (Arrived, Register) => Some(At(Track(c, s, Act.Register(q.key)), r, q.(stage := Known)))
      case (Known, Check(now)) =>
        var act := Use(q.key, Abuse.Check(now));
        Some(At(Track(c, s, act), r, AfterCheck(q, |s.acts|, AnswerOf(c, s, act))))
      case (Passed, Allow(now)) =>
        var log := s.log + [Call(KeyFor(q.key), now)];
        Some(At(s.(log := log), r, AfterAllow(c, log, q, Window(s.from, |s.log|))))
      case (Admitted, Handle(status)) =>
        Some(At(s.(handled := s.handled + [r]), r, q.(stage := Replied(Handled(status)))))
      case (Replied(o), Charge(now)) =>
        if Points(q, o) == 0 then Some(At(s, r, q.(stage := Finished(o))))
        else Some(At(Track(c, s, Use(q.key, Abuse.Add(Points(q, o), now))), r,
                     q.(stage := Finished(o), charged := Some(|s.acts|))))
      case _ => None
  }

  /** The process dies: its memory, its buckets and the requests in flight are gone. */
  function Stopped(q: Request): Request {
    if q.stage.Finished? then q else q.(stage := Killed)
  }

  function KillStep(c: Config, s: State): State {
    Track(c, s, Restart).(from := |s.log|, requests := map r | r in s.requests :: Stopped(s.requests[r]))
  }

  function Step(c: Config, s: State, a: Action): Option<State> {
    match a
    case Serve(r, act) => RequestStep(c, s, r, act)
    case Kill => Some(KillStep(c, s))
  }

  function Machine(c: Config): (State, Action) -> Option<State> {
    (s: State, a: Action) => Step(c, s, a)
  }

  function Reached(c: Config, actions: seq<Action>): Option<State> {
    Run(Machine(c), Init(), actions)
  }
}

/** What holds of every interleaving. */
module GuardTheorems {
  import opened Machines
  import Abuse = AbuseState
  import opened AbuseTracker
  import opened RateLimit
  import opened TrafficGuard
  import opened GuardModel

  /** Position `i` is a check of this key, and whether it blocked. */
  ghost predicate Checks(s: State, q: Request, i: nat, blocked: bool) {
    && i < |s.acts| && i < |s.outs| && s.acts[i].Use? && s.acts[i].id == q.key && s.acts[i].op.Check?
    && s.outs[i].Checked? && s.outs[i].blocked == blocked
  }

  ghost predicate ChecksOut(s: State, q: Request) {
    q.checked.Some? && Checks(s, q, q.checked.value, false)
  }

  ghost predicate LetThrough(c: Config, s: State, q: Request) {
    ChecksOut(s, q) && q.limited.Some? && LetIn(c, Seen(s.log, q.limited.value, q.key))
  }

  /** What a request's stage says about its history. */
  ghost predicate StageInv(c: Config, s: State, r: nat, q: Request) {
    match q.stage
    case Arrived => q.checked == None && q.limited == None && r !in s.handled
    case Known => q.checked == None && q.limited == None && r !in s.handled && q.key in Live(s.acts)
    case Passed => ChecksOut(s, q) && q.limited == None && r !in s.handled && q.key in Live(s.acts)
    case Admitted => LetThrough(c, s, q) && r !in s.handled && q.key in Live(s.acts)
    case Replied(o) => OutcomeInv(c, s, r, q, o) && !o.CoolingDown? && q.key in Live(s.acts)
    case Finished(o) => OutcomeInv(c, s, r, q, o)
    case Killed => true
  }

  /** The outcome of a request: which of the gates it has passed. */
  ghost predicate OutcomeInv(c: Config, s: State, r: nat, q: Request, o: Outcome) {
    match o
    case CoolingDown(retry) =>
      && q.checked.Some? && Checks(s, q, q.checked.value, true) && s.outs[q.checked.value].retryAfter == retry
      && q.limited == None && r !in s.handled
    case RateLimited(_) =>
      ChecksOut(s, q) && q.limited.Some? && !LetIn(c, Seen(s.log, q.limited.value, q.key)) && r !in s.handled
    case Handled(_) => LetThrough(c, s, q) && r in s.handled
    case Unauthenticated => false
  }

  ghost predicate RequestInv(c: Config, s: State, r: nat) {
    r in s.requests &&
    var q := s.requests[r];
    && StageInv(c, s, r, q)
    && (q.limited.Some? ==> q.limited.value.from <= q.limited.value.at < |s.log|)
    && (r in s.handled ==> LetThrough(c, s, q))
    && (q.charged.Some? <==> q.stage.Finished? && !q.stage.o.CoolingDown? && Points(q, q.stage.o) != 0)
    && (q.charged.Some? ==> q.charged.value < |s.acts| && ChargeOf(q, s.acts[q.charged.value]))
  }

  ghost predicate ChargeOf(q: Request, act: Act) {
    act.Use? && act.op.Add? && act.id == q.key && q.stage.Finished? && act.op.points == Points(q, q.stage.o)
  }

  ghost predicate IsAdd(act: Act) {
    act.Use? && act.op.Add?
  }

  /** Every Add is one request's charge. */
  ghost predicate ChargeInv(s: State) {
    && (forall i :: 0 <= i < |s.acts| && IsAdd(s.acts[i]) ==>
          exists r :: r in s.requests && s.requests[r].charged == Some(i))
    && OwnCharges(s)
  }

  /** No two requests share a charge. */
  ghost predicate OwnCharges(s: State) {
    forall q, r :: q in s.requests && r in s.requests && q != r && s.requests[q].charged.Some? ==>
                     s.requests[q].charged != s.requests[r].charged
  }

  ghost predicate HistoryInv(c: Config, s: State) {
    && Guarded(s.acts) && s.outs == Outs(c.params, FRESH, s.acts) && |s.outs| == |s.acts|
    && s.from <= |s.log|
    && (forall i, j :: 0 <= i < j < |s.handled| ==> s.handled[i] != s.handled[j])
    && (forall r :: r in s.handled ==> r in s.requests)
  }

  ghost predicate Inv(c: Config, s: State) {
    HistoryInv(c, s) && ChargeInv(s) && forall r :: r in s.requests ==> RequestInv(c, s, r)
  }

  // ---------- growth ----------

  /** The histories only grow, and with them who is registered. */
  ghost predicate Grows(s: State, t: State) {
    s.acts <= t.acts && s.outs <= t.outs && s.log <= t.log && s.handled <= t.handled && Live(s.acts) <= Live(t.acts)
  }

  lemma SeenGrows(log: seq<Call>, more: seq<Call>, w: Window, key: int)
    requires log <= more && w.from <= w.at < |log|
    ensures Seen(log, w, key) == Seen(more, w, key)
  {
    assert log[w.from..w.at + 1] == more[w.from..w.at + 1];
  }

  lemma RequestKept(c: Config, s: State, t: State, r: nat)
    requires RequestInv(c, s, r) && Grows(s, t) && r in t.requests && t.requests[r] == s.requests[r]
    requires r in t.handled <==> r in s.handled
    ensures RequestInv(c, t, r)
  {
    var q := s.requests[r];
    if q.limited.Some? {
      SeenGrows(s.log, t.log, q.limited.value, q.key);
    }
  }

  lemma TrackGrows(c: Config, s: State, act: Act)
    requires HistoryInv(c, s) && !act.Miss? && (act.Use? ==> act.id in Live(s.acts))
    ensures var t := Track(c, s, act);
            && HistoryInv(c, t) && Live(t.acts) == LiveAfter(Live(s.acts), act)
            && |t.acts| == |s.acts| + 1 && t.acts[|s.acts|] == act && t.outs[|s.acts|] == AnswerOf(c, s, act)
            && s.acts <= t.acts && s.outs <= t.outs
  {
    GuardedSnoc(s.acts, act);
    FinalSnoc(c.params, FRESH, s.acts, act);
  }

  lemma ChargesKept(s: State, t: State, r: nat)
    requires ChargeInv(s) && r in t.requests && t.requests == s.requests[r := t.requests[r]]
    requires t.requests[r].charged == if r in s.requests then s.requests[r].charged else None
    requires s.acts <= t.acts && forall i :: |s.acts| <= i < |t.acts| ==> !IsAdd(t.acts[i])
    ensures ChargeInv(t)
  {
    forall i | 0 <= i < |t.acts| && IsAdd(t.acts[i])
      ensures exists x :: x in t.requests && t.requests[x].charged == Some(i)
    {
      assert t.acts[i] == s.acts[i];
      var x :| x in s.requests && s.requests[x].charged == Some(i);
      assert x in t.requests && t.requests[x].charged == Some(i);
    }
  }

  lemma ChargeAdded(s: State, t: State, r: nat)
    requires ChargeInv(s) && r in s.requests && s.requests[r].charged == None
    requires forall q :: q in s.requests && s.requests[q].charged.Some? ==> s.requests[q].charged.value < |s.acts|
    requires r in t.requests && t.requests == s.requests[r := t.requests[r]] && t.requests[r].charged == Some(|s.acts|)
    requires s.acts <= t.acts && |t.acts| == |s.acts| + 1
    ensures ChargeInv(t)
  {
    forall i | 0 <= i < |t.acts| && IsAdd(t.acts[i])
      ensures exists x :: x in t.requests && t.requests[x].charged == Some(i)
    {
      if i < |s.acts| {
        assert t.acts[i] == s.acts[i];
        var x :| x in s.requests && s.requests[x].charged == Some(i);
        assert x in t.requests && t.requests[x].charged == Some(i);
      } else {
        assert t.requests[r].charged == Some(i);
      }
    }
  }

  /** A request's step keeps the invariant if it keeps its own part. */
  lemma KeptByOne(c: Config, s: State, t: State, r: nat)
    requires Inv(c, s) && HistoryInv(c, t) && ChargeInv(t) && Grows(s, t) && RequestInv(c, t, r)
    requires r in t.requests && t.requests == s.requests[r := t.requests[r]]
    requires forall x :: x != r ==> (x in t.handled <==> x in s.handled)
    ensures Inv(c, t)
  {
    forall x | x in t.requests ensures RequestInv(c, t, x) {
      if x != r {
        RequestKept(c, s, t, x);
      }
    }
  }

  // ---------- the steps ----------

  lemma BeginKept(c: Config, s: State, r: nat, key: int, path: string)
    requires Inv(c, s) && r !in s.requests
    ensures Inv(c, At(s, r, Request(key, path, Arrived, None, None, None)))
  {
    var t := At(s, r, Request(key, path, Arrived, None, None, None));
    ChargesKept(s, t, r);
    KeptByOne(c, s, t, r);
  }

  lemma RegisterKept(c: Config, s: State, r: nat)
    requires Inv(c, s) && r in s.requests && s.requests[r].stage.Arrived?
    ensures Inv(c, RequestStep(c, s, r, RequestAct.Register).value)
  {
    var q := s.requests[r];
    var act := Act.Register(q.key);
    var t := At(Track(c, s, act), r, q.(stage := Known));
    assert RequestInv(c, s, r);
    TrackGrows(c, s, act);
    ChargesKept(s, t, r);
    KeptByOne(c, s, t, r);
  }

  lemma CheckKept(c: Config, s: State, r: nat, now: int)
    requires Inv(c, s) && r in s.requests && s.requests[r].stage.Known?
    ensures Inv(c, RequestStep(c, s, r, RequestAct.Check(now)).value)
  {
    var q := s.requests[r];
    var act := Use(q.key, Abuse.Check(now));
    var t := At(Track(c, s, act), r, AfterCheck(q, |s.acts|, AnswerOf(c, s, act)));
    assert RequestInv(c, s, r);
    TrackGrows(c, s, act);
    ChargesKept(s, t, r);
    KeptByOne(c, s, t, r);
  }

  lemma AllowKept(c: Config, s: State, r: nat, now: int)
    requires Inv(c, s) && r in s.requests && s.requests[r].stage.Passed?
    ensures Inv(c, RequestStep(c, s, r, RequestAct.Allow(now)).value)
  {
    var q := s.requests[r];
    var log := s.log + [Call(KeyFor(q.key), now)];
    var t := At(s.(log := log), r, AfterAllow(c, log, q, Window(s.from, |s.log|)));
    assert RequestInv(c, s, r);
    ChargesKept(s, t, r);
    KeptByOne(c, s, t, r);
  }

  lemma HandleKept(c: Config, s: State, r: nat, status: int)
    requires Inv(c, s) && r in s.requests && s.requests[r].stage.Admitted?
    ensures Inv(c, RequestStep(c, s, r, RequestAct.Handle(status)).value)
  {
    var q := s.requests[r];
    var t := At(s.(handled := s.handled + [r]), r, q.(stage := Replied(Handled(status))));
    assert RequestInv(c, s, r);
    assert t.handled[|s.handled|] == r;
    ChargesKept(s, t, r);
    KeptByOne(c, s, t, r);
  }

  lemma FreeKept(c: Config, s: State, r: nat)
    requires Inv(c, s) && r in s.requests && s.requests[r].stage.Replied?
    requires Points(s.requests[r], s.requests[r].stage.o) == 0
    ensures Inv(c, At(s, r, s.requests[r].(stage := Finished(s.requests[r].stage.o))))
  {
    var q := s.requests[r];
    var t := At(s, r, q.(stage := Finished(q.stage.o)));
    assert RequestInv(c, s, r);
    ChargesKept(s, t, r);
    KeptByOne(c, s, t, r);
  }

  lemma PaidKept(c: Config, s: State, r: nat, act: Act, t: State)
    requires Inv(c, s) && r in s.requests && s.requests[r].stage.Replied?
    requires var q := s.requests[r];
             && Points(q, q.stage.o) != 0 && act.Use? && act.op.Add? && act.id == q.key &&
               act.op.points == Points(q, q.stage.o)
             && t == At(Track(c, s, act), r, q.(stage := Finished(q.stage.o), charged := Some(|s.acts|)))
    ensures Inv(c, t)
  {
    assert RequestInv(c, s, r);
    TrackGrows(c, s, act);
    forall x | x in s.requests && s.requests[x].charged.Some? ensures s.requests[x].charged.value < |s.acts| {
      assert RequestInv(c, s, x);
    }
    ChargeAdded(s, t, r);
    KeptByOne(c, s, t, r);
  }

  lemma ChargeKept(c: Config, s: State, r: nat, now: int)
    requires Inv(c, s) && r in s.requests && s.requests[r].stage.Replied?
    ensures Inv(c, RequestStep(c, s, r, RequestAct.Charge(now)).value)
  {
    var q := s.requests[r];
    if Points(q, q.stage.o) == 0 {
      FreeKept(c, s, r);
    } else {
      var act := Use(q.key, Abuse.Add(Points(q, q.stage.o), now));
      PaidKept(c, s, r, act, At(Track(c, s, act), r, q.(stage := Finished(q.stage.o), charged := Some(|s.acts|))));
    }
  }

  lemma KillKept(c: Config, s: State)
    requires Inv(c, s)
    ensures Inv(c, KillStep(c, s))
  {
    var t := KillStep(c, s);
    TrackGrows(c, s, Restart);
    forall r | r in t.requests ensures RequestInv(c, t, r) {
      assert RequestInv(c, s, r);
    }
    forall i | 0 <= i < |t.acts| && IsAdd(t.acts[i])
      ensures exists x :: x in t.requests && t.requests[x].charged == Some(i)
    {
      assert t.acts[i] == s.acts[i];
      var x :| x in s.requests && s.requests[x].charged == Some(i);
      assert x in t.requests && t.requests[x].charged == Some(i);
    }
  }

  lemma InvKept(c: Config, s: State, a: Action)
    requires Inv(c, s) && Step(c, s, a).Some?
    ensures Inv(c, Step(c, s, a).value)
  {
    match a
    case Kill => KillKept(c, s);
    case Serve(r, act) =>
      match act
      case Begin(key, path) => BeginKept(c, s, r, key, path);
      case Register => RegisterKept(c, s, r);
      case Check(now) => CheckKept(c, s, r, now);
      case Allow(now) => AllowKept(c, s, r, now);
      case Handle(status) => HandleKept(c, s, r, status);
      case Charge(now) => ChargeKept(c, s, r, now);
  }

  lemma Reaches(c: Config, actions: seq<Action>)
    requires Reached(c, actions).Some?
    ensures Inv(c, Reached(c, actions).value)
  {
    forall t: State, a | Inv(c, t) && Machine(c)(t, a).Some? ensures Inv(c, Machine(c)(t, a).value) {
      InvKept(c, t, a);
    }
    RunKeeps(Machine(c), (t: State) => Inv(c, t), Init(), actions);
  }

  // ---------- the theorems ----------

  /** When the check at position `i` blocks: exactly while the last cooldown its key has entered is
      not over and has not been cleared, by the key's own operations alone. */
  ghost predicate InCooldown(c: Config, acts: seq<Act>, i: nat)
    requires i < |acts| && acts[i].Use? && acts[i].op.Check?
  {
    var before, now := OpsOn(acts[..i], acts[i].id), acts[i].op.now;
    || (exists k :: Abuse.Uncleared(c.params, before, k) && now < Abuse.EndOf(c.params, before, k))
    || (now < Abuse.ZERO_TIME && Abuse.After(c.params, before).Some?
        && forall k :: !Abuse.Uncleared(c.params, before, k))
  }

  lemma CheckMeans(c: Config, s: State, q: Request, i: nat, blocked: bool)
    requires HistoryInv(c, s) && Checks(s, q, i, blocked)
    ensures blocked <==> InCooldown(c, s.acts, i)
  {
    CheckAnswer(c.params, s.acts, i);
    Abuse.BlockedExactly(c.params, OpsOn(s.acts[..i], s.acts[i].id), s.acts[i].op.now);
  }

  /** The gates hold in every interleaving. A finished request was refused for abuse if and only if
      its key was in a cooldown at its own check, and then it reached neither limiter nor handler;
      otherwise it was refused by the limiter if and only if its call exceeds some window of the
      key's calls of that process, and then it did not reach the handler; otherwise it did. */
  lemma GatesHold(c: Config, actions: seq<Action>, r: nat)
    requires Reached(c, actions).Some?
    requires var s := Reached(c, actions).value; r in s.requests && s.requests[r].stage.Finished?
    ensures var s := Reached(c, actions).value; var q := s.requests[r]; var o := q.stage.o;
            && q.checked.Some? && q.checked.value < |s.acts|
            && s.acts[q.checked.value].Use? && s.acts[q.checked.value].id == q.key && s.acts[q.checked.value].op.Check?
            && (o.CoolingDown? <==> InCooldown(c, s.acts, q.checked.value))
            && (o.CoolingDown? <==> q.limited == None)
            && (q.limited.Some? ==> (o.Handled? <==> Fits(c, s, q)))
            && (o.Handled? <==> r in s.handled)
  {
    Reaches(c, actions);
    var s := Reached(c, actions).value;
    var q := s.requests[r];
    assert RequestInv(c, s, r) && OutcomeInv(c, s, r, q, q.stage.o);
    CheckMeans(c, s, q, q.checked.value, q.stage.o.CoolingDown?);
    if q.limited.Some? {
      FitsIff(c, s, q);
    }
  }

  /** The request's call and those its key made before it in that process exceed no window. */
  ghost predicate Fits(c: Config, s: State, q: Request) {
    q.limited.Some? &&
    var times := Seen(s.log, q.limited.value, q.key);
    |times| > 0 && FitsEveryWindow(c.limits, times)
  }

  lemma FitsIff(c: Config, s: State, q: Request)
    requires q.limited.Some?
    ensures LetIn(c, Seen(s.log, q.limited.value, q.key)) <==> Fits(c, s, q)
  {
    var times := Seen(s.log, q.limited.value, q.key);
    if |times| > 0 {
      BucketDecidesWindows(c.limits, times);
    }
  }

  /** The handler serves no request twice, and only requests whose key was in no cooldown at their
      check and whose call fits every window; also those whose process died later. */
  lemma HandlerIsGuarded(c: Config, actions: seq<Action>)
    requires Reached(c, actions).Some?
    ensures var s := Reached(c, actions).value;
            && (forall i, j :: 0 <= i < j < |s.handled| ==> s.handled[i] != s.handled[j])
            && (forall r :: r in s.handled ==>
                  && r in s.requests && s.requests[r].checked.Some? && s.requests[r].checked.value < |s.acts|
                  && s.acts[s.requests[r].checked.value].Use? && s.acts[s.requests[r].checked.value].op.Check?
                  && !InCooldown(c, s.acts, s.requests[r].checked.value) && Fits(c, s, s.requests[r]))
  {
    Reaches(c, actions);
    var s := Reached(c, actions).value;
    forall r | r in s.handled
      ensures r in s.requests && LetThrough(c, s, s.requests[r]) && Fits(c, s, s.requests[r])
      ensures !InCooldown(c, s.acts, s.requests[r].checked.value)
    {
      var q := s.requests[r];
      assert RequestInv(c, s, r);
      FitsIff(c, s, q);
      CheckMeans(c, s, q, q.checked.value, false);
    }
  }

  /** Charging is exact in every interleaving: the Adds of the whole history are the finished
      requests that cost points, one for one, with that request's key and points. */
  lemma ChargesAreExact(c: Config, actions: seq<Action>)
    requires Reached(c, actions).Some?
    ensures var s := Reached(c, actions).value;
            && (forall i :: 0 <= i < |s.acts| && IsAdd(s.acts[i]) ==>
                  exists r :: r in s.requests && s.requests[r].charged == Some(i) && ChargeOf(s.requests[r], s.acts[i]))
            && OwnCharges(s)
            && (forall r :: r in s.requests && s.requests[r].stage.Finished? ==>
                  (s.requests[r].charged.Some? <==>
                     !s.requests[r].stage.o.CoolingDown? && Points(s.requests[r], s.requests[r].stage.o) != 0))
  {
    Reaches(c, actions);
    var s := Reached(c, actions).value;
    forall i | 0 <= i < |s.acts| && IsAdd(s.acts[i])
      ensures exists r :: r in s.requests && s.requests[r].charged == Some(i) && ChargeOf(s.requests[r], s.acts[i])
    {
      var r :| r in s.requests && s.requests[r].charged == Some(i);
      assert RequestInv(c, s, r);
    }
    forall r | r in s.requests ensures RequestInv(c, s, r) {
    }
  }
}
