/** The abuse tracker: a write-through cache of the stored scores, many keys, restarts. */
module AbuseTracker {
  import opened Machines
  import opened AbuseState

  // ---------- key names ----------

  function Digit(d: nat): (c: char)
    requires d < 10
    ensures c != '-' && c as int == '0' as int + d
  {
    ('0' as int + d) as char
  }

  function Digits(n: nat): string {
    (if n < 10 then [] else Digits(n / 10)) + [Digit(n % 10)]
  }

  function Decimal(n: int): string {
    if n < 0 then ['-'] + Digits(-n) else Digits(n)
  }

  /** The key under which the middleware tracks an API key: "api_key:%d". */
  function KeyFor(id: int): string {
    "api_key:" + Decimal(id)
  }

  lemma {:induction false} DigitsInjective(m: nat, n: nat)
    requires Digits(m) == Digits(n)
    ensures m == n
    decreases m
  {
    var a, b := Digits(m), Digits(n);
    assert a[|a| - 1] == b[|b| - 1];
    assert a[..|a| - 1] == b[..|b| - 1];
    DigitsNonempty(m / 10);
    DigitsNonempty(n / 10);
    assert m % 10 == n % 10;
    if m < 10 || n < 10 {
    } else {
      assert a[..|a| - 1] == Digits(m / 10) && b[..|b| - 1] == Digits(n / 10);
      DigitsInjective(m / 10, n / 10);
    }
  }

  lemma {:induction false} DigitsNonempty(n: nat)
    ensures |Digits(n)| > 0 && Digits(n)[0] != '-'
    decreases n
  {
    if n < 10 {
    } else {
      DigitsNonempty(n / 10);
    }
  }

  lemma DecimalSign(n: int)
    ensures |Decimal(n)| > 0 && (Decimal(n)[0] == '-' <==> n < 0)
  {
    DigitsNonempty(if n < 0 then -n else n);
  }

  lemma DecimalInjective(a: int, b: int)
    requires Decimal(a) == Decimal(b)
    ensures a == b
  {
    DecimalSign(a);
    DecimalSign(b);
    if a < 0 {
      assert Decimal(a)[1..] == Digits(-a) && Decimal(b)[1..] == Digits(-b);
      DigitsInjective(-a, -b);
    } else {
      DigitsInjective(a, b);
    }
  }

  /** Different API keys are tracked apart. */
  lemma KeyForInjective(a: int, b: int)
    requires KeyFor(a) == KeyFor(b)
    ensures a == b
  {
    var prefix := "api_key:";
    assert KeyFor(a)[|prefix|..] == Decimal(a) && KeyFor(b)[|prefix|..] == Decimal(b);
    DecimalInjective(a, b);
  }

  // ---------- memory and store ----------

  datatype Stored = Stored(score: int, lastUpdated: int, cooldownUntil: Option<int>)

  function ToStored(s: State): Stored {
    Stored(s.score, s.lastUpdated, if s.cooldownUntil == ZERO_TIME then None else Some(s.cooldownUntil))
  }

  function FromStored(r: Stored): State {
    State(r.score, r.lastUpdated, if r.cooldownUntil.Some? then r.cooldownUntil.value else ZERO_TIME)
  }

  /** No store at all, one whose calls fail, or one that works. */
  datatype Storage = Absent | Failing | Working

  /** The tracker's maps and the store's table. */
  datatype World = World(states: map<string, State>, keyIDs: map<string, int>, rows: map<int, Stored>, storage: Storage)

  function Persisted(w: World, key: string): World {
    if !w.storage.Working? || key !in w.keyIDs || key !in w.states then w
    else w.(rows := w.rows[w.keyIDs[key] := ToStored(w.states[key])])
  }

  /** A registration whose load fails. */
  function Missed(w: World, key: string, id: int): World {
    w.(keyIDs := w.keyIDs[key := id])
  }

  function Registered(w: World, key: string, id: int): World {
    var u := Missed(w, key, id);
    if u.storage.Working? && id in u.rows then u.(states := u.states[key := FromStored(u.rows[id])]) else u
  }

  function Held(w: World, key: string): Option<State> {
    if key in w.states then Some(w.states[key]) else None
  }

  function Used(p: Params, w: World, key: string, op: Op): (World, Out) {
    var (t, out) := Step(p, Held(w, key), op);
    (if t.None? then w else Persisted(w.(states := w.states[key := t.value]), key), out)
  }

  class AbuseStore {
    var rows: map<int, Stored>
    var working: bool

    constructor ()
      ensures rows == map[] && working
    {
      rows, working := map[], true;
    }

    method Save(id: int, state: Stored)
      modifies `rows
      ensures rows == if working then old(rows)[id := state] else old(rows)
    {
      if working {
        rows := rows[id := state];
      }
    }

    method Load(id: int) returns (state: Option<Stored>)
      ensures state == if working && id in rows then Some(rows[id]) else None
    {
      state := if working && id in rows then Some(rows[id]) else None;
    }
  }

  class Tracker {
    const params: Params
    const store: AbuseStore?
    var states: map<string, State>
    var keyIDs: map<string, int>

    function Contents(): World
      reads this, store
    {
      if store == null then World(states, keyIDs, map[], Absent)
      else World(states, keyIDs, store.rows, if store.working then Working else Failing)
    }

    constructor (params: Params, store: AbuseStore?)
      ensures states == map[] && keyIDs == map[] && this.params == params && this.store == store
    {
      this.params, this.store := params, store;
      states, keyIDs := map[], map[];
    }

    /** `sent`: the load, which goes out on the request's own context, is not cancelled. */
    method RegisterKey(key: string, id: int, sent: bool)
      modifies this
      ensures Contents() == if sent then Registered(old(Contents()), key, id) else Missed(old(Contents()), key, id)
    {
      keyIDs := keyIDs[key := id];
      if store != null && sent {
        var stored := store.Load(id);
        if stored.Some? {
          states := states[key := FromStored(stored.value)];
        }
      }
    }

    method Persist(key: string)
      requires key in states
      modifies store
      ensures Contents() == Persisted(old(Contents()), key)
    {
      if store != null && key in keyIDs {
        store.Save(keyIDs[key], ToStored(states[key]));
      }
    }

    method Add(key: string, points: int, now: int) returns (score: int, cooldownUntil: int, entered: bool)
      modifies this, store
      ensures (Contents(), Added(score, cooldownUntil, entered)) ==
              Used(params, old(Contents()), key, Op.Add(points, now))
    {
      var s := if key in states then states[key] else State(0, now, ZERO_TIME);
      s := Decay(params, s, now);
      s := s.(score := s.score + points, lastUpdated := now);
      entered := s.score >= params.threshold && now >= s.cooldownUntil;
      if entered {
        s := s.(cooldownUntil := now + params.cooldown);
      }
      states := states[key := s];
      Persist(key);
      score, cooldownUntil := s.score, s.cooldownUntil;
    }

    method Check(key: string, now: int) returns (blocked: bool, retryAfter: int, score: int)
      modifies this, store
      ensures (Contents(), Checked(blocked, retryAfter, score)) == Used(params, old(Contents()), key, Op.Check(now))
    {
      if key !in states {
        return false, 0, 0;
      }
      var s := Decay(params, states[key], now);
      score := s.score;
      blocked := now < s.cooldownUntil;
      retryAfter := if blocked then s.cooldownUntil - now else 0;
      if !blocked && s.cooldownUntil != ZERO_TIME {
        s := s.(cooldownUntil := ZERO_TIME);
      }
      states := states[key := s];
      Persist(key);
    }

    method Score(key: string, now: int) returns (score: int)
      modifies this, store
      ensures (Contents(), Scored(score)) == Used(params, old(Contents()), key, Op.Score(now))
    {
      if key !in states {
        return 0;
      }
      states := states[key := Decay(params, states[key], now)];
      Persist(key);
      score := states[key].score;
    }
  }

  // ---------- the tracker without memory ----------

  /** What the middleware does, request by request and process by process. `Miss` is a registration
      whose load fails. `Restart` loses the memory, and with it every request in flight. */
  datatype Act = Register(id: int) | Miss(id: int) | Use(id: int, op: Op) | Restart

  function Do(p: Params, w: World, act: Act): (World, Out) {
    match act
    case Register(id) => (Registered(w, KeyFor(id), id), Silent)
    case Miss(id) => (Missed(w, KeyFor(id), id), Silent)
    case Use(id, op) => Used(p, w, KeyFor(id), op)
    case Restart => (w.(states := map[], keyIDs := map[]), Silent)
  }

  function Final(p: Params, w: World, acts: seq<Act>): World {
    if |acts| == 0 then w else Do(p, Final(p, w, acts[..|acts| - 1]), acts[|acts| - 1]).0
  }

  function Outs(p: Params, w: World, acts: seq<Act>): seq<Out> {
    if |acts| == 0 then []
    else Outs(p, w, acts[..|acts| - 1]) + [Do(p, Final(p, w, acts[..|acts| - 1]), acts[|acts| - 1]).1]
  }

  /** The same, on the stored states alone: registering and restarting do nothing. */
  function Pure(p: Params, m: map<int, State>, act: Act): (map<int, State>, Out) {
    match act
    case Use(id, op) =>
      var (t, out) := Step(p, if id in m then Some(m[id]) else None, op);
      (if t.None? then m else m[id := t.value], out)
    case _ => (m, Silent)
  }

  function PureFinal(p: Params, m: map<int, State>, acts: seq<Act>): map<int, State> {
    if |acts| == 0 then m else Pure(p, PureFinal(p, m, acts[..|acts| - 1]), acts[|acts| - 1]).0
  }

  function PureOuts(p: Params, m: map<int, State>, acts: seq<Act>): seq<Out> {
    if |acts| == 0 then []
    else PureOuts(p, m, acts[..|acts| - 1]) + [Pure(p, PureFinal(p, m, acts[..|acts| - 1]), acts[|acts| - 1]).1]
  }

  /** The ids registered since the last restart. */
  function Live(acts: seq<Act>): set<int> {
    if |acts| == 0 then {} else LiveAfter(Live(acts[..|acts| - 1]), acts[|acts| - 1])
  }

  function LiveAfter(live: set<int>, act: Act): set<int> {
    match act
    case Register(id) => live + {id}
    case Restart => {}
    case _ => live
  }

  /** Every request registers its key before it uses it, as the middleware does, and no load fails. */
  ghost predicate Guarded(acts: seq<Act>) {
    forall i :: 0 <= i < |acts| ==> !acts[i].Miss? && (acts[i].Use? ==> acts[i].id in Live(acts[..i]))
  }

  /** The live ids are registered, under their own names. */
  ghost predicate Named(w: World, live: set<int>) {
    && (forall id :: id in live ==> KeyFor(id) in w.keyIDs)
    && (forall key :: key in w.keyIDs ==> key == KeyFor(w.keyIDs[key]))
  }

  /** Memory and store agree on every key in memory, and what is registered and stored is there. */
  ghost predicate Mirrored(w: World) {
    && w.storage.Working?
    && (forall key :: key in w.states ==>
          key in w.keyIDs && w.keyIDs[key] in w.rows && w.rows[w.keyIDs[key]] == ToStored(w.states[key]))
    && (forall key :: key in w.keyIDs && w.keyIDs[key] in w.rows ==> key in w.states)
  }

  ghost predicate Synced(w: World, live: set<int>) {
    Named(w, live) && Mirrored(w)
  }

  function States(w: World): map<int, State> {
    map id | id in w.rows :: FromStored(w.rows[id])
  }

  lemma StoredRoundTrip(s: State)
    ensures FromStored(ToStored(s)) == s
  {
  }

  /** A name and its id belong to each other alone. */
  ghost predicate Belong(w: World, key: string, id: int) {
    && (key in w.keyIDs ==> w.keyIDs[key] == id)
    && (forall k :: k in w.keyIDs && w.keyIDs[k] == id ==> k == key)
  }

  lemma NamesBelong(w: World, live: set<int>, id: int)
    requires Named(w, live)
    ensures Belong(w, KeyFor(id), id)
  {
    if KeyFor(id) in w.keyIDs {
      KeyForInjective(id, w.keyIDs[KeyFor(id)]);
    }
  }

  /** A live key's memory is the stored state. */
  lemma HeldIsStored(w: World, live: set<int>, id: int)
    requires Synced(w, live) && id in live
    ensures Held(w, KeyFor(id)) == if id in States(w) then Some(States(w)[id]) else None
    ensures KeyFor(id) in w.keyIDs && w.keyIDs[KeyFor(id)] == id
  {
    NamesBelong(w, live, id);
    if KeyFor(id) in w.states {
      StoredRoundTrip(w.states[KeyFor(id)]);
    }
  }

  /** No row marks "no cooldown" by the zero time, as the tracker writes them. */
  ghost predicate Canonical(w: World) {
    forall id :: id in w.rows ==> w.rows[id].cooldownUntil != Some(ZERO_TIME)
  }

  lemma RegisterSynced(w: World, live: set<int>, id: int)
    requires Synced(w, live) && Canonical(w)
    ensures Synced(Registered(w, KeyFor(id), id), live + {id})
  {
    NamesBelong(w, live, id);
    RegisterMirrors(w, KeyFor(id), id);
    RegisterNames(w, live, id, Registered(w, KeyFor(id), id));
  }

  lemma RegisterNames(w: World, live: set<int>, id: int, u: World)
    requires Named(w, live) && u.keyIDs == w.keyIDs[KeyFor(id) := id]
    ensures Named(u, live + {id})
  {
  }

  lemma RegisterMirrors(w: World, key: string, id: int)
    requires Mirrored(w) && Canonical(w) && Belong(w, key, id)
    ensures Mirrored(Registered(w, key, id))
  {
    if id in w.rows {
      assert ToStored(FromStored(w.rows[id])) == w.rows[id];
    }
  }

  lemma UseSynced(p: Params, w: World, live: set<int>, id: int, op: Op)
    requires Synced(w, live) && Canonical(w) && id in live
    ensures var (u, out) := Used(p, w, KeyFor(id), op);
            Synced(u, live) && Canonical(u) && (States(u), out) == Pure(p, States(w), Use(id, op))
  {
    HeldIsStored(w, live, id);
    var t := Step(p, Held(w, KeyFor(id)), op).0;
    if t.Some? {
      WriteSynced(w, live, id, t.value);
    }
  }

  lemma WriteSynced(w: World, live: set<int>, id: int, t: State)
    requires Synced(w, live) && Canonical(w) && id in live
    ensures var u := Persisted(w.(states := w.states[KeyFor(id) := t]), KeyFor(id));
            Synced(u, live) && Canonical(u) && States(u) == States(w)[id := t]
  {
    NamesBelong(w, live, id);
    WriteMirrors(w, KeyFor(id), id, t);
  }

  lemma WriteMirrors(w: World, key: string, id: int, t: State)
    requires Mirrored(w) && Canonical(w) && Belong(w, key, id) && key in w.keyIDs
    ensures var u := Persisted(w.(states := w.states[key := t]), key);
            && Mirrored(u) && Canonical(u) && u.keyIDs == w.keyIDs && States(u) == States(w)[id := t]
  {
    StoredRoundTrip(t);
    var u := Persisted(w.(states := w.states[key := t]), key);
    assert u.rows == w.rows[id := ToStored(t)];
    assert States(u) == States(w)[id := t];
  }

  lemma RestartSynced(p: Params, w: World, live: set<int>)
    requires Synced(w, live) && Canonical(w)
    ensures var u := Do(p, w, Restart).0; Synced(u, {}) && Canonical(u) && States(u) == States(w)
  {
  }

  /** One act: memory and store stay in step, and the answer is that of the stored states. */
  lemma DoSynced(p: Params, w: World, live: set<int>, act: Act)
    requires Synced(w, live) && Canonical(w) && !act.Miss? && (act.Use? ==> act.id in live)
    ensures var (u, out) := Do(p, w, act);
            Synced(u, LiveAfter(live, act)) && Canonical(u) && (States(u), out) == Pure(p, States(w), act)
  {
    match act {
      case Register(id) => RegisterSynced(w, live, id);
      case Use(id, op) => UseSynced(p, w, live, id, op);
      case Restart => RestartSynced(p, w, live);
    }
  }

  /** The cache is invisible: over every guarded series of requests, of any number of keys and
      with restarts anywhere, the tracker answers as the stored states alone determine, and
      memory and store agree after every act. */
  lemma {:induction false} CacheIsInvisible(p: Params, w: World, acts: seq<Act>)
    requires w.storage.Working? && w.states == map[] && w.keyIDs == map[] && Canonical(w) && Guarded(acts)
    ensures Outs(p, w, acts) == PureOuts(p, States(w), acts)
    ensures States(Final(p, w, acts)) == PureFinal(p, States(w), acts)
    ensures Synced(Final(p, w, acts), Live(acts)) && Canonical(Final(p, w, acts))
    decreases |acts|
  {
    if |acts| == 0 {
    } else {
      var before, act := acts[..|acts| - 1], acts[|acts| - 1];
      assert forall i :: 0 <= i < |before| ==> before[..i] == acts[..i];
      CacheIsInvisible(p, w, before);
      DoSynced(p, Final(p, w, before), Live(before), act);
    }
  }

  /** Registering a key that is already registered changes nothing. */
  lemma ReloadIsNoop(w: World, live: set<int>, id: int)
    requires Synced(w, live) && id in live
    ensures Registered(w, KeyFor(id), id) == w
  {
    HeldIsStored(w, live, id);
    assert w.keyIDs[KeyFor(id) := id] == w.keyIDs;
    if id in w.rows {
      assert w.states[KeyFor(id) := FromStored(w.rows[id])] == w.states;
    }
  }

  /** The uses among the acts. */
  function Uses(acts: seq<Act>): seq<Act> {
    if |acts| == 0 then []
    else Uses(acts[..|acts| - 1]) + if acts[|acts| - 1].Use? then [acts[|acts| - 1]] else []
  }

  function Answers(outs: seq<Out>): seq<Out> {
    if |outs| == 0 then []
    else Answers(outs[..|outs| - 1]) + if outs[|outs| - 1] == Silent then [] else [outs[|outs| - 1]]
  }

  lemma PureSnoc(p: Params, m: map<int, State>, acts: seq<Act>, act: Act)
    ensures PureFinal(p, m, acts + [act]) == Pure(p, PureFinal(p, m, acts), act).0
    ensures PureOuts(p, m, acts + [act]) == PureOuts(p, m, acts) + [Pure(p, PureFinal(p, m, acts), act).1]
  {
    assert (acts + [act])[..|acts|] == acts;
  }

  lemma AnswersSnoc(outs: seq<Out>, out: Out)
    ensures Answers(outs + [out]) == Answers(outs) + if out == Silent then [] else [out]
  {
    assert (outs + [out])[..|outs|] == outs;
  }

  lemma SilentOrUse(p: Params, m: map<int, State>, act: Act)
    ensures Pure(p, m, act).1 == Silent <==> !act.Use?
    ensures !act.Use? ==> Pure(p, m, act).0 == m
  {
  }

  lemma UsesSnoc(acts: seq<Act>)
    requires |acts| > 0
    ensures var before, act := acts[..|acts| - 1], acts[|acts| - 1];
            Uses(acts) == if act.Use? then Uses(before) + [act] else Uses(before)
  {
  }

  lemma {:induction false} PureFinalOfUses(p: Params, m: map<int, State>, acts: seq<Act>)
    ensures PureFinal(p, m, acts) == PureFinal(p, m, Uses(acts))
    decreases |acts|
  {
    if |acts| == 0 {
    } else {
      var before, act := acts[..|acts| - 1], acts[|acts| - 1];
      PureFinalOfUses(p, m, before);
      SilentOrUse(p, PureFinal(p, m, before), act);
      UsesSnoc(acts);
      PureSnoc(p, m, Uses(before), act);
    }
  }

  lemma {:induction false} PureOutsOfUses(p: Params, m: map<int, State>, acts: seq<Act>)
    ensures Answers(PureOuts(p, m, acts)) == PureOuts(p, m, Uses(acts))
    decreases |acts|
  {
    if |acts| == 0 {
    } else {
      var before, act := acts[..|acts| - 1], acts[|acts| - 1];
      var out := Pure(p, PureFinal(p, m, before), act).1;
      PureOutsOfUses(p, m, before);
      PureFinalOfUses(p, m, before);
      SilentOrUse(p, PureFinal(p, m, before), act);
      UsesSnoc(acts);
      PureSnoc(p, m, Uses(before), act);
      AnswersSnoc(PureOuts(p, m, before), out);
      assert PureOuts(p, m, acts) == PureOuts(p, m, before) + [out];
    }
  }

  /** Killing and restarting the process between requests is invisible: two histories with the
      same uses, however often each was restarted and registered, answer alike and store alike. */
  lemma RestartsAreInvisible(p: Params, w: World, one: seq<Act>, two: seq<Act>)
    requires w.storage.Working? && w.states == map[] && w.keyIDs == map[] && Canonical(w)
    requires Guarded(one) && Guarded(two) && Uses(one) == Uses(two)
    ensures Answers(Outs(p, w, one)) == Answers(Outs(p, w, two))
    ensures States(Final(p, w, one)) == States(Final(p, w, two))
  {
    CacheIsInvisible(p, w, one);
    CacheIsInvisible(p, w, two);
    PureFinalOfUses(p, States(w), one);
    PureFinalOfUses(p, States(w), two);
    PureOutsOfUses(p, States(w), one);
    PureOutsOfUses(p, States(w), two);
  }

  /** The operations on one key. */
  function OpsOn(acts: seq<Act>, id: int): seq<Op> {
    if |acts| == 0 then []
    else
      var act := acts[|acts| - 1];
      OpsOn(acts[..|acts| - 1], id) + if act.Use? && act.id == id then [act.op] else []
  }

  function Lookup(m: map<int, State>, id: int): Option<State> {
    if id in m then Some(m[id]) else None
  }

  /** An operation reads and writes its own key's state. */
  lemma PureTouchesOne(p: Params, m: map<int, State>, act: Act, id: int)
    ensures var (n, out) := Pure(p, m, act);
            if act.Use? && act.id == id then
              out == Step(p, Lookup(m, id), act.op).1 &&
                Lookup(n, id) == (var t := Step(p, Lookup(m, id), act.op).0; if t.None? then Lookup(m, id) else t)
            else Lookup(n, id) == Lookup(m, id)
  {
  }

  /** Keys are independent: each key's stored state, and each answer, is what its own operations
      alone produce. */
  lemma {:induction false} KeysAreIndependent(p: Params, acts: seq<Act>, id: int)
    ensures Lookup(PureFinal(p, map[], acts), id) == After(p, OpsOn(acts, id))
    ensures |acts| > 0 && acts[|acts| - 1].Use? && acts[|acts| - 1].id == id ==>
              var outs := PureOuts(p, map[], acts);
              |outs| > 0 && outs[|outs| - 1] == Answer(p, OpsOn(acts, id))
    decreases |acts|
  {
    if |acts| == 0 {
    } else {
      var before, act := acts[..|acts| - 1], acts[|acts| - 1];
      KeysAreIndependent(p, before, id);
      PureTouchesOne(p, PureFinal(p, map[], before), act, id);
      if act.Use? && act.id == id {
        AfterSnoc(p, OpsOn(before, id), act.op);
      } else {
        assert OpsOn(acts, id) == OpsOn(before, id);
      }
    }
  }

  /** With non-negative points no stored score is ever negative. */
  lemma {:induction false} ScoresStayNonNegative(p: Params, acts: seq<Act>)
    requires forall i :: 0 <= i < |acts| && acts[i].Use? && acts[i].op.Add? ==> acts[i].op.points >= 0
    ensures forall id :: id in PureFinal(p, map[], acts) ==> PureFinal(p, map[], acts)[id].score >= 0
    decreases |acts|
  {
    if |acts| == 0 {
    } else {
      ScoresStayNonNegative(p, acts[..|acts| - 1]);
    }
  }
}
