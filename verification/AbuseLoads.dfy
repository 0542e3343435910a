/** Loads that fail: RegisterKey loads on the request's own context, so a cancelled request goes on
    with whatever memory holds. Exactly when does a stored cooldown outlive a restart? */
module AbuseLoads {
  import opened Machines
  import opened AbuseState
  import opened AbuseTracker

  /** A key's stored history, and whether the tracker's memory has it. */
  datatype Memory = Memory(ops: seq<Op>, held: bool)

  /** What memory does not have is invisible to reads and overwritten by additions. */
  function Remember(m: Memory, act: Act, id: int): Memory {
    match act
    case Register(k) => if k == id then m.(held := true) else m
    case Miss(_) => m
    case Restart => m.(held := false)
    case Use(k, op) =>
      if k != id then m
      else if m.held then m.(ops := m.ops + [op])
      else if op.Add? then Memory([op], true)
      else m
  }

  function MemoryFrom(m: Memory, acts: seq<Act>, id: int): Memory {
    if |acts| == 0 then m else Remember(MemoryFrom(m, acts[..|acts| - 1], id), acts[|acts| - 1], id)
  }

  function MemoryOf(acts: seq<Act>, id: int): Memory {
    MemoryFrom(Memory([], false), acts, id)
  }

  /** The operations that the next one finds done. */
  function Visible(m: Memory): seq<Op> {
    if m.held then m.ops else []
  }

  /** The ids whose keys are registered since the last restart, loaded or not. */
  function Known(acts: seq<Act>): set<int> {
    if |acts| == 0 then {} else KnownAfter(Known(acts[..|acts| - 1]), acts[|acts| - 1])
  }

  function KnownAfter(known: set<int>, act: Act): set<int> {
    match act
    case Register(id) => known + {id}
    case Miss(id) => known + {id}
    case Use(_, _) => known
    case Restart => {}
  }

  /** Every request calls RegisterKey before it uses its key, whether or not the load succeeds. */
  ghost predicate Announced(acts: seq<Act>) {
    forall i :: 0 <= i < |acts| && acts[i].Use? ==> acts[i].id in Known(acts[..i])
  }

  // ---------- one act ----------

  function Row(w: World, id: int): Option<State> {
    if id in w.rows then Some(FromStored(w.rows[id])) else None
  }

  /** The store has the key's history, memory has it or nothing. */
  ghost predicate Remembers(p: Params, w: World, id: int, m: Memory) {
    && Row(w, id) == After(p, m.ops)
    && Held(w, KeyFor(id)) == After(p, Visible(m))
  }

  /** A use that leaves no state was a read of none. */
  lemma UseRemembers(p: Params, m: Memory, op: Op, id: int)
    ensures var u := Remember(m, Use(id, op), id);
            && After(p, Visible(u)) == Step(p, After(p, Visible(m)), op).0
            && After(p, u.ops) == if After(p, Visible(u)).Some? then After(p, Visible(u)) else After(p, m.ops)
  {
    AfterSnoc(p, Visible(m), op);
    assert [] + [op] == [op];
  }

  /** Another key's operation reaches neither this key's memory nor its row. */
  lemma UseElsewhere(p: Params, w: World, key: string, op: Op, other: string, id: int)
    requires key != other && (key in w.keyIDs ==> w.keyIDs[key] != id)
    ensures var u := Used(p, w, key, op).0; Row(u, id) == Row(w, id) && Held(u, other) == Held(w, other)
  {
  }

  /** A use writes what it leaves to memory and store. */
  lemma UseHere(p: Params, w: World, key: string, id: int, op: Op)
    requires w.storage.Working? && key in w.keyIDs && w.keyIDs[key] == id
    ensures var u, t := Used(p, w, key, op).0, Step(p, Held(w, key), op).0;
            Held(u, key) == t && Row(u, id) == if t.Some? then t else Row(w, id)
  {
    var t := Step(p, Held(w, key), op).0;
    if t.Some? {
      StoredRoundTrip(t.value);
    }
  }

  lemma OtherName(w: World, known: set<int>, k: int, id: int)
    requires Named(w, known) && k != id
    ensures KeyFor(k) != KeyFor(id) && (KeyFor(k) in w.keyIDs ==> w.keyIDs[KeyFor(k)] != id)
  {
    if KeyFor(k) == KeyFor(id) {
      KeyForInjective(k, id);
    }
    NamesBelong(w, known, k);
  }

  lemma RemembersUse(p: Params, w: World, known: set<int>, id: int, m: Memory, act: Act)
    requires w.storage.Working? && Named(w, known) && Remembers(p, w, id, m) && act.Use? && act.id in known
    ensures Remembers(p, Do(p, w, act).0, id, Remember(m, act, id))
    ensures act.id == id ==> Do(p, w, act).1 == Answer(p, Visible(m) + [act.op])
  {
    if act.id == id {
      NamesBelong(w, known, id);
      UseHere(p, w, KeyFor(id), id, act.op);
      UseRemembers(p, m, act.op, id);
      AfterSnoc(p, Visible(m), act.op);
    } else {
      OtherName(w, known, act.id, id);
      UseElsewhere(p, w, KeyFor(act.id), act.op, KeyFor(id), id);
    }
  }

  lemma RemembersRegister(p: Params, w: World, known: set<int>, id: int, m: Memory, k: int)
    requires w.storage.Working? && Named(w, known) && Remembers(p, w, id, m)
    ensures Remembers(p, Do(p, w, Register(k)).0, id, Remember(m, Register(k), id))
  {
    if k != id {
      OtherName(w, known, k, id);
    }
  }

  lemma RemembersAct(p: Params, w: World, known: set<int>, id: int, m: Memory, act: Act)
    requires w.storage.Working? && Named(w, known) && Remembers(p, w, id, m) && (act.Use? ==> act.id in known)
    ensures Remembers(p, Do(p, w, act).0, id, Remember(m, act, id))
    ensures act.Use? && act.id == id ==> Do(p, w, act).1 == Answer(p, Visible(m) + [act.op])
  {
    match act {
      case Register(k) => RemembersRegister(p, w, known, id, m, k);
      case Miss(_) =>
      case Use(_, _) => RemembersUse(p, w, known, id, m, act);
      case Restart =>
    }
  }

  lemma NamedAct(p: Params, w: World, known: set<int>, act: Act)
    requires Named(w, known)
    ensures Named(Do(p, w, act).0, KnownAfter(known, act)) && Do(p, w, act).0.storage == w.storage
  {
    match act {
      case Register(id) => RegisterNames(w, known, id, Do(p, w, act).0);
      case Miss(id) => RegisterNames(w, known, id, Do(p, w, act).0);
      case Use(id, op) => assert Do(p, w, act).0.keyIDs == w.keyIDs;
      case Restart =>
    }
  }

  // ---------- every history ----------

  lemma {:induction false} Remembered(p: Params, w: World, acts: seq<Act>, id: int)
    requires w.storage.Working? && w.states == map[] && w.keyIDs == map[] && w.rows == map[] && Announced(acts)
    ensures var u := Final(p, w, acts);
            u.storage.Working? && Named(u, Known(acts)) && Remembers(p, u, id, MemoryOf(acts, id))
    decreases |acts|
  {
    if |acts| == 0 {
    } else {
      var before, act := acts[..|acts| - 1], acts[|acts| - 1];
      assert forall i :: 0 <= i < |before| ==> before[..i] == acts[..i];
      Remembered(p, w, before, id);
      NamedAct(p, Final(p, w, before), Known(before), act);
      RemembersAct(p, Final(p, w, before), Known(before), id, MemoryOf(before, id), act);
    }
  }

  /** Whatever loads fail and however often the process restarts: an operation is answered from the
      key's stored history if memory has it, and otherwise as for a new key. */
  lemma AnswersFromMemory(p: Params, w: World, acts: seq<Act>, id: int, op: Op)
    requires w.storage.Working? && w.states == map[] && w.keyIDs == map[] && w.rows == map[]
    requires Announced(acts + [Use(id, op)])
    ensures Do(p, Final(p, w, acts), Use(id, op)).1 == Answer(p, Visible(MemoryOf(acts, id)) + [op])
    ensures Row(Final(p, w, acts), id) == After(p, MemoryOf(acts, id).ops)
  {
    var all := acts + [Use(id, op)];
    assert all[..|acts|] == acts && all[|acts|].id in Known(acts);
    assert forall i :: 0 <= i < |acts| ==> all[..i] == acts[..i] && all[i] == acts[i];
    Remembered(p, w, acts, id);
    RemembersAct(p, Final(p, w, acts), Known(acts), id, MemoryOf(acts, id), Use(id, op));
  }

  // ---------- a stored cooldown ----------

  /** Points are added to the key while memory does not have its history. */
  predicate Overwrites(m: Memory, act: Act, id: int) {
    act.Use? && act.id == id && act.op.Add? && !m.held
  }

  /** At some point of the acts. */
  predicate Overwritten(m: Memory, acts: seq<Act>, id: int) {
    |acts| > 0 &&
    var n := |acts| - 1;
    Overwritten(m, acts[..n], id) || Overwrites(MemoryFrom(m, acts[..n], id), acts[n], id)
  }

  ghost predicate Before(acts: seq<Act>, id: int, until: int) {
    forall i :: 0 <= i < |acts| && acts[i].Use? && acts[i].id == id ==> Time(acts[i].op) < until
  }

  /** Unless it is overwritten the history is only extended. */
  lemma {:induction false} HistoryKept(m: Memory, acts: seq<Act>, id: int, until: int) returns (more: seq<Op>)
    requires !Overwritten(m, acts, id) && Before(acts, id, until)
    ensures MemoryFrom(m, acts, id).ops == m.ops + more && forall op :: op in more ==> Time(op) < until
    decreases |acts|
  {
    if |acts| == 0 {
      more := [];
    } else {
      var n := |acts| - 1;
      more := HistoryKept(m, acts[..n], id, until);
      var mid, act := MemoryFrom(m, acts[..n], id), acts[n];
      if act.Use? && act.id == id && mid.held {
        assert m.ops + more + [act.op] == m.ops + (more + [act.op]);
        more := more + [act.op];
      }
    }
  }

  /** Whether memory has the history does not depend on what the history is. */
  lemma {:induction false} HeldAlike(m: Memory, l: Memory, acts: seq<Act>, id: int)
    requires m.held == l.held
    ensures MemoryFrom(m, acts, id).held == MemoryFrom(l, acts, id).held
    decreases |acts|
  {
    if |acts| == 0 {
    } else {
      HeldAlike(m, l, acts[..|acts| - 1], id);
    }
  }

  /** Once it is overwritten nothing depends on it. */
  lemma {:induction false} HistoryForgotten(m: Memory, l: Memory, acts: seq<Act>, id: int)
    requires Overwritten(m, acts, id) && m.held == l.held
    ensures MemoryFrom(m, acts, id) == MemoryFrom(l, acts, id)
    decreases |acts|
  {
    var n := |acts| - 1;
    HeldAlike(m, l, acts[..n], id);
    if Overwritten(m, acts[..n], id) {
      HistoryForgotten(m, l, acts[..n], id);
    }
  }

  lemma {:induction false} MemoryConcat(m: Memory, first: seq<Act>, rest: seq<Act>, id: int)
    ensures MemoryFrom(m, first + rest, id) == MemoryFrom(MemoryFrom(m, first, id), rest, id)
    decreases |rest|
  {
    if |rest| == 0 {
      assert first + rest == first;
    } else {
      var n := |rest| - 1;
      assert (first + rest)[..|first| + n] == first + rest[..n];
      MemoryConcat(m, first, rest[..n], id);
    }
  }

  /** Exactly when a stored cooldown outlives restarts and failed loads. `first` ends the key's
      history with the entry of a cooldown, and no reading of its operations since has reached the
      end. If no points were added while memory did not have the history, a check blocks if and
      only if memory has it. Otherwise the cooldown is lost: the check is answered as if the key's
      history before `rest` had been empty. */
  lemma CooldownSurvivesLoads(p: Params, w: World, first: seq<Act>, rest: seq<Act>, id: int, now: int)
    requires w.storage.Working? && w.states == map[] && w.keyIDs == map[] && w.rows == map[]
    requires Announced(first + rest + [Use(id, Check(now))])
    requires |MemoryOf(first, id).ops| > 0
    requires var out := Answer(p, MemoryOf(first, id).ops);
             out.Added? && out.entered && Before(rest, id, out.cooldownUntil) && now < out.cooldownUntil
    ensures var m, until := MemoryOf(first, id), Answer(p, MemoryOf(first, id).ops).cooldownUntil;
            var out := Do(p, Final(p, w, first + rest), Use(id, Check(now))).1;
            && out.Checked?
            && (!Overwritten(m, rest, id) ==>
                  (out.blocked <==> MemoryFrom(m, rest, id).held) && (out.blocked ==> out.retryAfter == until - now))
            && (Overwritten(m, rest, id) ==>
                  out == Answer(p, Visible(MemoryFrom(Memory([], m.held), rest, id)) + [Check(now)]))
  {
    var m := MemoryOf(first, id);
    var until := Answer(p, m.ops).cooldownUntil;
    AnswersFromMemory(p, w, first + rest, id, Check(now));
    MemoryConcat(Memory([], false), first, rest, id);
    if Overwritten(m, rest, id) {
      HistoryForgotten(m, Memory([], m.held), rest, id);
    } else {
      var more := HistoryKept(m, rest, id, until);
      CheckAfter(p, m.ops, more, now, MemoryFrom(m, rest, id));
    }
  }

  lemma CheckAfter(p: Params, ops: seq<Op>, more: seq<Op>, now: int, m: Memory)
    requires |ops| > 0 && Answer(p, ops).Added? && Answer(p, ops).entered && m.ops == ops + more
    requires (forall op :: op in more ==> Time(op) < Answer(p, ops).cooldownUntil) && now < Answer(p, ops).cooldownUntil
    ensures var out := Answer(p, Visible(m) + [Check(now)]);
            && out.Checked? && (out.blocked <==> m.held)
            && (out.blocked ==> out.retryAfter == Answer(p, ops).cooldownUntil - now)
  {
    AfterSnoc(p, Visible(m), Check(now));
    if m.held {
      CooldownHolds(p, ops, more);
      DecayKeepsCooldown(p, After(p, ops + more).value, now);
    }
  }

  lemma OneMore(acts: seq<Act>, act: Act, id: int)
    requires Announced(acts) && (act.Use? ==> act.id in Known(acts))
    ensures Announced(acts + [act]) && Known(acts + [act]) == KnownAfter(Known(acts), act)
    ensures MemoryOf(acts + [act], id) == Remember(MemoryOf(acts, id), act, id)
  {
    assert (acts + [act])[..|acts|] == acts;
    assert forall i :: 0 <= i < |acts| ==> (acts + [act])[..i] == acts[..i];
  }

  /** A cooldown lost to a failed load: a key cools down, the process restarts, and a request whose
      load fails gets a point; the next check lets the key through although its load succeeds. */
  lemma FailedLoadLosesCooldown(w: World) returns (p: Params, first: seq<Act>, rest: seq<Act>)
    requires w.storage.Working? && w.states == map[] && w.keyIDs == map[] && w.rows == map[]
    ensures Announced(first + rest + [Use(1, Check(3))])
    ensures Do(p, Final(p, w, first), Use(1, Check(3))).1 == Checked(true, 98, 10)
    ensures Do(p, Final(p, w, first + rest), Use(1, Check(3))).1 == Checked(false, 0, 1)
  {
    p := Params(10, 100, 0);
    first := CoolingFirst(p, w);
    rest := LostRest(first);
    OneMore(first + rest, Use(1, Check(3)), 1);
    AnswersFromMemory(p, w, first + rest, 1, Check(3));
    AfterSnoc(p, [], Add(1, 2));
    AfterSnoc(p, [] + [Add(1, 2)], Check(3));
  }

  lemma CoolingFirst(p: Params, w: World) returns (first: seq<Act>)
    requires w.storage.Working? && w.states == map[] && w.keyIDs == map[] && w.rows == map[]
    requires p == Params(10, 100, 0)
    ensures Announced(first) && Do(p, Final(p, w, first), Use(1, Check(3))).1 == Checked(true, 98, 10)
  {
    first := [] + [Register(1)];
    OneMore([], Register(1), 1);
    OneMore(first, Use(1, Add(10, 1)), 1);
    first := first + [Use(1, Add(10, 1))];
    OneMore(first, Use(1, Check(3)), 1);
    AnswersFromMemory(p, w, first, 1, Check(3));
    AfterSnoc(p, [], Add(10, 1));
    AfterSnoc(p, [] + [Add(10, 1)], Check(3));
  }

  /** A restart, a point after a failed load, and a load. */
  lemma LostRest(first: seq<Act>) returns (rest: seq<Act>)
    requires Announced(first)
    ensures Announced(first + rest) && 1 in Known(first + rest)
    ensures MemoryOf(first + rest, 1) == Memory([] + [Add(1, 2)], true)
  {
    assert first + [] == first;
    OneMoreAfter(first, [], Restart, 1);
    rest := [] + [Restart];
    OneMoreAfter(first, rest, Miss(1), 1);
    rest := rest + [Miss(1)];
    OneMoreAfter(first, rest, Use(1, Add(1, 2)), 1);
    rest := rest + [Use(1, Add(1, 2))];
    OneMoreAfter(first, rest, Register(1), 1);
    rest := rest + [Register(1)];
    assert [Add(1, 2)] == [] + [Add(1, 2)];
  }

  lemma OneMoreAfter(first: seq<Act>, rest: seq<Act>, act: Act, id: int)
    requires Announced(first + rest) && (act.Use? ==> act.id in Known(first + rest))
    ensures Announced(first + (rest + [act])) && Known(first + (rest + [act])) == KnownAfter(Known(first + rest), act)
    ensures MemoryOf(first + (rest + [act]), id) == Remember(MemoryOf(first + rest, id), act, id)
  {
    assert first + (rest + [act]) == (first + rest) + [act];
    OneMore(first + rest, act, id);
  }
}
