/** The traffic guard: abuse check, then rate limit, then the handler, then the points. */
module TrafficGuard {
  import opened Machines
  import Abuse = AbuseState
  import opened AbuseTracker
  import opened RateLimit

  /** The points a response costs its key. */
  function AbusePoints(path: string, status: int): (points: int)
    ensures points >= 0
  {
    if status == 429 then 1
    else if status == 403 && (path == "/v1/chat/completions" || path == "/v1/rag/chat") then 3
    else 0
  }

  /** How far a request gets. */
  datatype Outcome =
    | Unauthenticated
    | CoolingDown(retryAfter: int)
    | RateLimited(retry: int)
    | Handled(status: int)

  function StatusCode(o: Outcome): int {
    match o
    case Unauthenticated => 401
    case CoolingDown(_) => 429
    case RateLimited(_) => 429
    case Handled(status) => status
  }

  /** The tracker operations of one request: the check and, if it passes and the response costs
      points, the points. */
  function RequestActs(id: int, path: string, o: Outcome, checkedAt: int, addedAt: int): seq<Act> {
    var points := if o.CoolingDown? then 0 else AbusePoints(path, StatusCode(o));
    [Register(id), Use(id, Abuse.Check(checkedAt))] + if points == 0 then [] else [Use(id, Abuse.Add(points, addedAt))]
  }

  lemma GuardedSnoc(acts: seq<Act>, act: Act)
    requires Guarded(acts) && !act.Miss? && (act.Use? ==> act.id in Live(acts))
    ensures Guarded(acts + [act])
    ensures Live(acts + [act]) == LiveAfter(Live(acts), act)
  {
    assert (acts + [act])[..|acts|] == acts;
    assert forall i :: 0 <= i < |acts| ==> (acts + [act])[..i] == acts[..i];
  }

  lemma FinalSnoc(p: Abuse.Params, w: World, acts: seq<Act>, act: Act)
    ensures Final(p, w, acts + [act]) == Do(p, Final(p, w, acts), act).0
    ensures Outs(p, w, acts + [act]) == Outs(p, w, acts) + [Do(p, Final(p, w, acts), act).1]
  {
    assert (acts + [act])[..|acts|] == acts;
  }

  const FRESH := World(map[], map[], map[], Working)

  /** What a check in the middle of a guarded history answered is what its key's own operations
      up to then determine, whatever the other keys did and however often the process restarted. */
  lemma CheckAnswer(p: Abuse.Params, acts: seq<Act>, i: nat)
    requires Guarded(acts) && i < |acts| && acts[i].Use? && acts[i].op.Check?
    ensures |Outs(p, FRESH, acts)| == |acts|
    ensures var answer := Abuse.Answer(p, OpsOn(acts[..i], acts[i].id) + [acts[i].op]);
            answer.Checked? && Outs(p, FRESH, acts)[i] == answer
  {
    var all := acts[..i + 1];
    assert all[..i] == acts[..i];
    GuardedPrefix(acts, i + 1);
    OutsPrefix(p, FRESH, acts, i + 1);
    LastAnswer(p, FRESH, all);
    assert Outs(p, FRESH, acts)[..i + 1][i] == Outs(p, FRESH, acts)[i];
  }

  lemma GuardedPrefix(acts: seq<Act>, n: nat)
    requires Guarded(acts) && n <= |acts|
    ensures Guarded(acts[..n])
  {
    assert forall j :: 0 <= j < n ==> acts[..n][..j] == acts[..j];
  }

  /** The last answer of a guarded history that starts with nothing. */
  lemma LastAnswer(p: Abuse.Params, w: World, acts: seq<Act>)
    requires w.storage.Working? && w.states == map[] && w.keyIDs == map[] && w.rows == map[]
    requires Guarded(acts) && |acts| > 0 && acts[|acts| - 1].Use? && acts[|acts| - 1].op.Check?
    ensures |Outs(p, w, acts)| == |acts|
    ensures var n := |acts| - 1; var answer := Abuse.Answer(p, OpsOn(acts[..n], acts[n].id) + [acts[n].op]);
            answer.Checked? && Outs(p, w, acts)[n] == answer
  {
    var n := |acts| - 1;
    CacheIsInvisible(p, w, acts);
    assert States(w) == map[];
    OutsAreTrace(p, w, acts);
    TracePrefix(Acting(p), w, acts, n);
    KeysAreIndependent(p, acts, acts[n].id);
  }

  function Acting(p: Abuse.Params): (World, Act) -> (World, Abuse.Out) {
    (w: World, act: Act) => Do(p, w, act)
  }

  lemma {:induction false} OutsAreTrace(p: Abuse.Params, w: World, acts: seq<Act>)
    ensures Trace(Acting(p), w, acts) == (Final(p, w, acts), Outs(p, w, acts))
    decreases |acts|
  {
    if |acts| == 0 {
    } else {
      OutsAreTrace(p, w, acts[..|acts| - 1]);
    }
  }

  lemma OutsPrefix(p: Abuse.Params, w: World, acts: seq<Act>, n: nat)
    requires n <= |acts|
    ensures |Outs(p, w, acts)| == |acts| && |Outs(p, w, acts[..n])| == n
    ensures Outs(p, w, acts)[..n] == Outs(p, w, acts[..n])
  {
    OutsAreTrace(p, w, acts);
    OutsAreTrace(p, w, acts[..n]);
    TracePrefix(Acting(p), w, acts, n);
  }

  /** Cooldowns are enforced: in a guarded history whose clock does not go back for that key, a
      check lets the key through exactly when all its cooldown entries are over. */
  lemma CooldownEnforced(p: Abuse.Params, acts: seq<Act>, i: nat)
    requires Guarded(acts) && i < |acts| && acts[i].Use? && acts[i].op.Check?
    requires Abuse.Monotone(OpsOn(acts[..i], acts[i].id) + [acts[i].op])
    ensures |Outs(p, FRESH, acts)| == |acts| && Outs(p, FRESH, acts)[i].Checked?
    ensures Outs(p, FRESH, acts)[i].blocked <==>
            exists e :: e in Abuse.Entries(p, OpsOn(acts[..i], acts[i].id) + [acts[i].op]) &&
              acts[i].op.now < e + p.cooldown
  {
    CheckAnswer(p, acts, i);
    Abuse.BlockedIff(p, OpsOn(acts[..i], acts[i].id) + [acts[i].op]);
  }

  class Guard {
    const params: Abuse.Params
    const store: AbuseStore
    var tracker: Tracker
    var limiter: Limiter

    /** The key ids of the requests that reached the handler. */
    var handled: seq<int>

    /** Every tracker operation so far, restarts included, and what it answered. */
    ghost var acts: seq<Act>
    ghost var answers: seq<Abuse.Out>

    ghost predicate Valid()
      reads this, tracker, tracker.store, limiter
    {
      && tracker.params == params && tracker.store == store && store.working
      && limiter.Valid()
      && Guarded(acts) && answers == Outs(params, FRESH, acts)
      && tracker.Contents() == Final(params, FRESH, acts)
    }

    constructor (params: Abuse.Params, capacity: int, refillPerSecond: real)
      ensures Valid() && acts == [] && handled == [] && limiter.log == []
      ensures fresh(tracker) && fresh(store) && fresh(limiter)
    {
      this.params := params;
      var s := new AbuseStore();
      store := s;
      tracker := new Tracker(params, s);
      limiter := new Limiter(capacity, refillPerSecond);
      handled, acts, answers := [], [], [];
    }

    /** The process is killed and started again: the stored scores are all that is left. */
    method RestartProcess()
      requires Valid()
      modifies this
      ensures Valid() && acts == old(acts) + [Restart] && handled == old(handled)
      ensures fresh(tracker) && fresh(limiter) && limiter.log == []
    {
      GuardedSnoc(acts, Restart);
      FinalSnoc(params, FRESH, acts, Restart);
      acts, answers := acts + [Restart], answers + [Abuse.Silent];
      tracker := new Tracker(params, store);
      limiter := new Limiter(limiter.limits.capacity, limiter.limits.refillRate);
    }

    /** Account for one tracker operation. */
    ghost method Log(act: Act, before: World, out: Abuse.Out)
      requires Guarded(acts) && answers == Outs(params, FRESH, acts)
      requires !act.Miss? && (act.Use? ==> act.id in Live(acts))
      requires before == Final(params, FRESH, acts) && out == Do(params, before, act).1
      modifies `acts, `answers
      ensures acts == old(acts) + [act] && answers == old(answers) + [out]
      ensures Guarded(acts) && answers == Outs(params, FRESH, acts) && Live(acts) == LiveAfter(Live(old(acts)), act)
      ensures Final(params, FRESH, acts) == Do(params, before, act).0
    {
      GuardedSnoc(acts, act);
      FinalSnoc(params, FRESH, acts, act);
      acts, answers := acts + [act], answers + [out];
    }

    /** Register the key, then check it. */
    method CheckKey(id: int, now: int) returns (blocked: bool, retryAfter: int, score: int)
      requires Valid()
      modifies `acts, `answers, tracker, store
      ensures Valid() && id in Live(acts)
      ensures acts == old(acts) + [Register(id), Use(id, Abuse.Check(now))]
      ensures answers == old(answers) + [Abuse.Silent, Abuse.Checked(blocked, retryAfter, score)]
    {
      LoadKey(id);
      blocked, retryAfter, score := CheckLoaded(id, now);
      OneByOne(old(acts), Register(id), Use(id, Abuse.Check(now)));
      OneByOne(old(answers), Abuse.Silent, Abuse.Checked(blocked, retryAfter, score));
    }

    method CheckLoaded(id: int, now: int) returns (blocked: bool, retryAfter: int, score: int)
      requires Valid() && id in Live(acts)
      modifies `acts, `answers, tracker, store
      ensures Valid() && id in Live(acts)
      ensures acts == old(acts) + [Use(id, Abuse.Check(now))]
      ensures answers == old(answers) + [Abuse.Checked(blocked, retryAfter, score)]
    {
      ghost var w := tracker.Contents();
      blocked, retryAfter, score := tracker.Check(KeyFor(id), now);
      Log(Use(id, Abuse.Check(now)), w, Abuse.Checked(blocked, retryAfter, score));
    }

    method LoadKey(id: int)
      requires Valid()
      modifies `acts, `answers, tracker
      ensures Valid() && id in Live(acts)
      ensures acts == old(acts) + [Register(id)] && answers == old(answers) + [Abuse.Silent]
    {
      ghost var w := tracker.Contents();
      tracker.RegisterKey(KeyFor(id), id, true);
      Log(Register(id), w, Abuse.Silent);
    }

    /** The points of a response, if it has any. */
    method Charge(id: int, points: int, now: int)
      requires Valid() && id in Live(acts)
      modifies `acts, `answers, tracker, store
      ensures Valid() && old(answers) <= answers
      ensures acts == old(acts) + if points == 0 then [] else [Use(id, Abuse.Add(points, now))]
    {
      if points != 0 {
        ghost var w := tracker.Contents();
        var score, until, entered := tracker.Add(KeyFor(id), points, now);
        Log(Use(id, Abuse.Add(points, now)), w, Abuse.Added(score, until, entered));
      }
    }

    /** The rate limiter in front of the handler. */
    method Limit(id: int, handlerStatus: int, now: int) returns (o: Outcome)
      requires Valid()
      modifies `handled, limiter
      ensures Valid() && (o == Handled(handlerStatus) || o.RateLimited?)
      ensures limiter.log == old(limiter.log) + [Call(KeyFor(id), now)]
      ensures o.Handled? <==> FitsEveryWindow(limiter.limits, Readings(limiter.log, KeyFor(id)))
      ensures handled == old(handled) + if o.Handled? then [id] else []
    {
      var allowed, retry := limiter.Allow(KeyFor(id), now);
      if allowed {
        handled := handled + [id];
        o := Handled(handlerStatus);
      } else {
        o := RateLimited(retry);
      }
    }

    /** A request past the abuse check: limiter, handler, points. */
    method Proceed(id: int, path: string, handlerStatus: int, limitedAt: int, addedAt: int) returns (o: Outcome)
      requires Valid() && id in Live(acts)
      modifies `handled, `acts, `answers, tracker, store, limiter
      ensures Valid() && old(answers) <= answers && (o == Handled(handlerStatus) || o.RateLimited?)
      ensures var points := AbusePoints(path, StatusCode(o));
              acts == old(acts) + if points == 0 then [] else [Use(id, Abuse.Add(points, addedAt))]
      ensures Gated(id, o, limitedAt, limiter.limits, old(limiter.log), limiter.log, old(handled), handled)
    {
      o := Limit(id, handlerStatus, limitedAt);
      Charge(id, AbusePoints(path, StatusCode(o)), addedAt);
    }

    /** One request. A cooling-down key reaches neither limiter nor handler and gets no points;
        a rate-limited one does not reach the handler; points follow the response. */
    method ServeKey(id: int, path: string, handlerStatus: int, checkedAt: int, limitedAt: int, addedAt: int)
      returns (o: Outcome)
      requires Valid()
      modifies `handled, `acts, `answers, tracker, store, limiter
      ensures Valid() && !o.Unauthenticated? && (o.Handled? ==> o.status == handlerStatus)
      ensures acts == old(acts) + RequestActs(id, path, o, checkedAt, addedAt)
      ensures old(answers) < answers && Decides(answers[|old(answers)|..], o)
      ensures Gated(id, o, limitedAt, limiter.limits, old(limiter.log), limiter.log, old(handled), handled)
    {
      ghost var acts0, answers0 := acts, answers;
      var blocked, retryAfter, score := CheckKey(id, checkedAt);
      ghost var acts1, answers1 := acts, answers;
      if blocked {
        o := CoolingDown(retryAfter);
      } else {
        o := Proceed(id, path, handlerStatus, limitedAt, addedAt);
      }
      RequestAssembled(o, acts0, acts1, acts, RequestActs(id, path, o, checkedAt, addedAt), answers0, answers1,
        answers);
    }

    /** One request, authenticated or not. */
    method Serve(principal: Option<int>, path: string, handlerStatus: int, checkedAt: int, limitedAt: int, addedAt: int)
      returns (o: Outcome)
      requires Valid()
      modifies `handled, `acts, `answers, tracker, store, limiter
      ensures Valid() && (principal.None? <==> o.Unauthenticated?) && (o.Handled? ==> o.status == handlerStatus)
      ensures principal.None? ==> acts == old(acts) && answers == old(answers)
      ensures principal.None? ==> limiter.log == old(limiter.log) && handled == old(handled)
      ensures principal.Some? ==> acts == old(acts) + RequestActs(principal.value, path, o, checkedAt, addedAt)
      ensures principal.Some? ==> old(answers) < answers && Decides(answers[|old(answers)|..], o)
      ensures principal.Some? ==>
        Gated(principal.value, o, limitedAt, limiter.limits, old(limiter.log), limiter.log, old(handled), handled)
    {
      if principal.None? {
        return Unauthenticated;
      }
      o := ServeKey(principal.value, path, handlerStatus, checkedAt, limitedAt, addedAt);
    }
  }

  lemma OneByOne<T>(s: seq<T>, x: T, y: T)
    ensures s + [x] + [y] == s + [x, y]
  {
  }

  /** The acts and answers of a request, put together from its two parts. */
  lemma RequestAssembled(o: Outcome, acts0: seq<Act>, acts1: seq<Act>, acts2: seq<Act>, all: seq<Act>,
                         answers0: seq<Abuse.Out>, answers1: seq<Abuse.Out>, answers2: seq<Abuse.Out>)
    requires |all| >= 2 && acts1 == acts0 + all[..2] && acts2 == acts1 + all[2..]
    requires |answers1| == |answers0| + 2 && answers0 <= answers1 <= answers2
    requires var check := answers1[|answers0| + 1];
             check.Checked? && (o.CoolingDown? <==> check.blocked) &&
               (o.CoolingDown? ==> o.retryAfter == check.retryAfter)
    ensures acts2 == acts0 + all
    ensures answers0 < answers2 && Decides(answers2[|answers0|..], o)
  {
    assert all == all[..2] + all[2..];
  }

  /** What a request of key `id` means for limiter and handler. */
  ghost predicate Gated(id: int, o: Outcome, limitedAt: int, limits: Limits, log: seq<Call>, newLog: seq<Call>,
                        handled: seq<int>, newHandled: seq<int>)
  {
    && newHandled == handled + (if o.Handled? then [id] else [])
    && if o.RateLimited? || o.Handled? then
         newLog == log + [Call(KeyFor(id), limitedAt)] &&
           (o.Handled? <==> FitsEveryWindow(limits, Readings(newLog, KeyFor(id))))
       else newLog == log
  }

  /** The second answer of a request, to its check, decides whether it goes on. */
  ghost predicate Decides(answers: seq<Abuse.Out>, o: Outcome) {
    && |answers| >= 2 && answers[1].Checked?
    && (o.CoolingDown? <==> answers[1].blocked)
    && (o.CoolingDown? ==> o.retryAfter == answers[1].retryAfter)
  }
}
