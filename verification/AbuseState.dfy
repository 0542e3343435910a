/** One key's abuse score: lazy decay, and the cooldown it can enter.
    Times are integer nanoseconds since the zero time. */
module AbuseState {
  import opened Machines

  const ZERO_TIME := 0

  datatype Params = Params(threshold: int, cooldown: int, decayEvery: int)

  /** `cooldownUntil` is the zero time when there is no cooldown. */
  datatype State = State(score: int, lastUpdated: int, cooldownUntil: int)

  function Decay(p: Params, s: State, now: int): State {
    var elapsed := now - s.lastUpdated;
    if p.decayEvery <= 0 || elapsed < p.decayEvery then s
    else
      var steps := elapsed / p.decayEvery;
      s.(score := if s.score - steps < 0 then 0 else s.score - steps,
         lastUpdated := s.lastUpdated + steps * p.decayEvery)
  }

  datatype Op = Add(points: int, now: int) | Check(now: int) | Score(now: int)

  datatype Out =
    | Added(score: int, cooldownUntil: int, entered: bool)
    | Checked(blocked: bool, retryAfter: int, score: int)
    | Scored(score: int)
    | Silent

  function AddTo(p: Params, s: State, points: int, now: int): (State, Out) {
    var d := Decay(p, s, now);
    var t := d.(score := d.score + points, lastUpdated := now);
    if t.score >= p.threshold && now >= t.cooldownUntil then
      (t.(cooldownUntil := now + p.cooldown), Added(t.score, now + p.cooldown, true))
    else (t, Added(t.score, t.cooldownUntil, false))
  }

  function CheckOn(p: Params, s: State, now: int): (State, Out) {
    var d := Decay(p, s, now);
    if now < d.cooldownUntil then (d, Checked(true, d.cooldownUntil - now, d.score))
    else (d.(cooldownUntil := ZERO_TIME), Checked(false, 0, d.score))
  }

  /** One operation on a key, which may not have a state yet. */
  function Step(p: Params, s: Option<State>, op: Op): (Option<State>, Out) {
    match op
    case Add(points, now) =>
      var (t, out) := AddTo(p, if s.Some? then s.value else State(0, now, ZERO_TIME), points, now);
      (Some(t), out)
    case Check(now) =>
      if s.None? then (None, Checked(false, 0, 0))
      else var (t, out) := CheckOn(p, s.value, now); (Some(t), out)
    case Score(now) =>
      if s.None? then (None, Scored(0))
      else (Some(Decay(p, s.value, now)), Scored(Decay(p, s.value, now).score))
  }

  // ---------- lazy decay ----------

  lemma Divide(elapsed: int, k: int, d: int)
    requires d > 0
    ensures (elapsed - k * d) / d == elapsed / d - k
    ensures elapsed / d * d <= elapsed < elapsed / d * d + d
  {
    var q, r := elapsed / d, elapsed % d;
    assert elapsed - k * d == (q - k) * d + r;
    Unique(elapsed - k * d, q - k, d, r);
  }

  lemma Unique(e: int, q: int, d: int, r: int)
    requires d > 0 && 0 <= r < d && e == q * d + r
    ensures e / d == q
  {
    var q' := e / d;
    if q > q' {
      AtLeast(q - q', d);
    } else if q < q' {
      AtLeast(q' - q, d);
    }
  }

  lemma AtLeast(a: int, d: int)
    requires a >= 1 && d > 0
    ensures a * d >= d
  {
    assert a * d == (a - 1) * d + d;
  }

  /** The state that any reads up to time `now` leave, in closed form. */
  lemma DecayClosedForm(p: Params, s: State, now: int)
    requires p.decayEvery > 0
    ensures var steps := (now - s.lastUpdated) / p.decayEvery;
            steps >= 1 ==>
              && Decay(p, s, now).score == (if s.score <= steps then 0 else s.score - steps)
              && now - p.decayEvery < Decay(p, s, now).lastUpdated <= now
    ensures (now - s.lastUpdated) / p.decayEvery < 1 ==> Decay(p, s, now) == s
    ensures Decay(p, s, now).cooldownUntil == s.cooldownUntil
  {
    Divide(now - s.lastUpdated, 0, p.decayEvery);
    var steps := (now - s.lastUpdated) / p.decayEvery;
    if steps < 1 {
      assert steps * p.decayEvery <= 0;
    } else {
      assert steps * p.decayEvery >= p.decayEvery;
    }
  }

  /** Decaying twice is decaying once, to the later of the two times. */
  lemma DecayTwice(p: Params, s: State, t1: int, t2: int)
    ensures Decay(p, Decay(p, s, t1), t2) == Decay(p, s, if t1 > t2 then t1 else t2)
  {
    if p.decayEvery > 0 && t1 - s.lastUpdated >= p.decayEvery {
      var k := (t1 - s.lastUpdated) / p.decayEvery;
      Divide(t1 - s.lastUpdated, 0, p.decayEvery);
      Divide(t2 - s.lastUpdated, k, p.decayEvery);
      var m := Decay(p, s, t1);
      assert t2 - m.lastUpdated == t2 - s.lastUpdated - k * p.decayEvery;
      if t2 > t1 && t2 - m.lastUpdated >= p.decayEvery {
        var n := (t2 - s.lastUpdated) / p.decayEvery;
        assert m.lastUpdated + (n - k) * p.decayEvery == s.lastUpdated + n * p.decayEvery;
        Divide(t2 - s.lastUpdated, 0, p.decayEvery);
        assert n >= k;
      } else if t2 > t1 {
        Divide(t2 - s.lastUpdated, 0, p.decayEvery);
        SameSteps(t1 - s.lastUpdated, t2 - s.lastUpdated, k, p.decayEvery);
      }
    } else {
      assert Decay(p, s, t1) == s;
    }
  }

  lemma SameSteps(e1: int, e2: int, k: int, d: int)
    requires d > 0 && k == e1 / d && e1 <= e2 && e2 - k * d < d
    ensures e2 / d == k
  {
    Divide(e1, 0, d);
    Unique(e2, k, d, e2 - k * d);
  }

  function Latest(times: seq<int>): int
    requires |times| > 0
  {
    var n := |times| - 1;
    if n == 0 then times[0]
    else if times[n] > Latest(times[..n]) then times[n] else Latest(times[..n])
  }

  // ---------- cooldowns ----------

  function Time(op: Op): int {
    op.now
  }

  function After(p: Params, ops: seq<Op>): Option<State> {
    if |ops| == 0 then None else Step(p, After(p, ops[..|ops| - 1]), ops[|ops| - 1]).0
  }

  /** What the last operation answers. */
  function Answer(p: Params, ops: seq<Op>): Out
    requires |ops| > 0
  {
    Step(p, After(p, ops[..|ops| - 1]), ops[|ops| - 1]).1
  }

  lemma AfterSnoc(p: Params, ops: seq<Op>, op: Op)
    ensures After(p, ops + [op]) == Step(p, After(p, ops), op).0
    ensures Answer(p, ops + [op]) == Step(p, After(p, ops), op).1
  {
    assert (ops + [op])[..|ops|] == ops;
  }

  function Times(ops: seq<Op>): (times: seq<int>)
    ensures |times| == |ops|
  {
    seq(|ops|, i requires 0 <= i < |ops| => Time(ops[i]))
  }

  function Max(a: int, b: int): int {
    if a > b then a else b
  }

  /** Decay looks at score and time alone. */
  lemma DecayOf(p: Params, s: State, t: State, now: int)
    requires s.score == t.score && s.lastUpdated == t.lastUpdated
    ensures Decay(p, s, now).score == Decay(p, t, now).score
    ensures Decay(p, s, now).lastUpdated == Decay(p, t, now).lastUpdated
  {
  }

  lemma FadedScore(p: Params, s: State, now: int)
    requires p.decayEvery > 0 && s.score >= 0
    ensures Decay(p, s, now).score == Max(0, s.score - Max(0, (now - s.lastUpdated) / p.decayEvery))
  {
    DecayClosedForm(p, s, now);
  }

  /** One more read: it decays what the reads before it left. */
  lemma OneMoreRead(p: Params, before: seq<Op>, read: Op, s: State, latest: int)
    requires !read.Add? && After(p, before).Some?
    requires var t := After(p, before).value;
             t.score == Decay(p, s, latest).score && t.lastUpdated == Decay(p, s, latest).lastUpdated
    ensures After(p, before + [read]).Some?
    ensures var u, d := After(p, before + [read]).value, Decay(p, s, Max(latest, Time(read)));
            u.score == d.score && u.lastUpdated == d.lastUpdated
  {
    assert (before + [read])[..|before|] == before;
    DecayOf(p, After(p, before).value, Decay(p, s, latest), Time(read));
    DecayTwice(p, s, latest, Time(read));
  }

  /** Reads never change later scores: after any series of checks and score reads, whatever the
      order of the clock readings, the score is what the latest of them alone makes of it. */
  lemma {:induction false} ReadsLeaveNoTrace(p: Params, ops: seq<Op>, looks: seq<Op>)
    requires After(p, ops).Some? && |looks| > 0 && forall i :: 0 <= i < |looks| ==> !looks[i].Add?
    ensures After(p, ops + looks).Some?
    ensures var s, t, latest := After(p, ops).value, After(p, ops + looks).value, Latest(Times(looks));
            && t.score == Decay(p, s, latest).score && t.lastUpdated == Decay(p, s, latest).lastUpdated
            && (p.decayEvery > 0 && s.score >= 0 ==>
                  t.score == Max(0, s.score - Max(0, (latest - s.lastUpdated) / p.decayEvery)))
    decreases |looks|
  {
    var n := |looks| - 1;
    var s := After(p, ops).value;
    assert (ops + looks[..n]) + [looks[n]] == ops + looks;
    assert Times(looks)[..n] == Times(looks[..n]);
    if n == 0 {
      assert ops + looks[..0] == ops;
      FirstRead(p, ops, looks[0]);
    } else {
      ReadsLeaveNoTrace(p, ops, looks[..n]);
      OneMoreRead(p, ops + looks[..n], looks[n], s, Latest(Times(looks[..n])));
    }
    if p.decayEvery > 0 && s.score >= 0 {
      FadedScore(p, s, Latest(Times(looks)));
    }
  }

  lemma FirstRead(p: Params, ops: seq<Op>, read: Op)
    requires !read.Add? && After(p, ops).Some?
    ensures After(p, ops + [read]).Some?
    ensures var u, d := After(p, ops + [read]).value, Decay(p, After(p, ops).value, Time(read));
            u.score == d.score && u.lastUpdated == d.lastUpdated
  {
    assert (ops + [read])[..|ops|] == ops;
  }

  /** The times at which the key entered a cooldown. */
  function Entries(p: Params, ops: seq<Op>): seq<int> {
    if |ops| == 0 then []
    else
      var out := Answer(p, ops);
      Entries(p, ops[..|ops| - 1]) + if out.Added? && out.entered then [Time(ops[|ops| - 1])] else []
  }

  ghost predicate Monotone(ops: seq<Op>) {
    && (forall i :: 0 <= i < |ops| ==> Time(ops[i]) >= ZERO_TIME)
    && (forall i, j :: 0 <= i < j < |ops| ==> Time(ops[i]) <= Time(ops[j]))
  }

  lemma DecayKeepsCooldown(p: Params, s: State, now: int)
    ensures Decay(p, s, now).cooldownUntil == s.cooldownUntil
  {
  }

  /** The recorded cooldown is the last entry's, or has been cleared after its end. */
  ghost predicate Tracks(p: Params, s: Option<State>, entries: seq<int>, latest: int) {
    && latest >= ZERO_TIME
    && (s.None? ==> entries == [])
    && (s.Some? && s.value.cooldownUntil != ZERO_TIME ==>
          |entries| > 0 && s.value.cooldownUntil == entries[|entries| - 1] + p.cooldown)
    && (s.Some? && s.value.cooldownUntil == ZERO_TIME && |entries| > 0 ==>
          latest >= entries[|entries| - 1] + p.cooldown)
    && (forall i :: 0 <= i < |entries| - 1 ==> entries[i] + p.cooldown <= entries[i + 1])
    && (forall i :: 0 <= i < |entries| ==> entries[i] <= latest)
    && (forall i :: 0 <= i < |entries| ==> entries[i] <= entries[|entries| - 1])
  }

  function EntriesAfter(entries: seq<int>, op: Op, out: Out): seq<int> {
    entries + if out.Added? && out.entered then [Time(op)] else []
  }

  lemma TracksStep(p: Params, s: Option<State>, entries: seq<int>, latest: int, op: Op)
    requires Tracks(p, s, entries, latest) && latest <= Time(op)
    ensures var (t, out) := Step(p, s, op); Tracks(p, t, EntriesAfter(entries, op, out), Time(op))
  {
    if s.Some? {
      DecayKeepsCooldown(p, s.value, op.now);
    } else if op.Add? {
      DecayKeepsCooldown(p, State(0, op.now, ZERO_TIME), op.now);
    }
  }

  lemma {:induction false} CooldownTracked(p: Params, ops: seq<Op>)
    requires Monotone(ops)
    ensures Tracks(p, After(p, ops), Entries(p, ops), if |ops| > 0 then Time(ops[|ops| - 1]) else ZERO_TIME)
    decreases |ops|
  {
    if |ops| == 0 {
    } else {
      var before, op := ops[..|ops| - 1], ops[|ops| - 1];
      CooldownTracked(p, before);
      var latest := if |before| > 0 then Time(before[|before| - 1]) else ZERO_TIME;
      assert latest <= Time(op);
      TracksStep(p, After(p, before), Entries(p, before), latest, op);
    }
  }

  /** A check blocks exactly while some cooldown entry is less than a cooldown old, and says
      precisely how long; entries are at least a cooldown apart, so later points neither extend
      nor shorten a running cooldown. */
  lemma BlockedIff(p: Params, ops: seq<Op>)
    requires Monotone(ops) && |ops| > 0 && ops[|ops| - 1].Check?
    ensures var entries, now, out := Entries(p, ops), Time(ops[|ops| - 1]), Answer(p, ops);
            && (out.blocked <==> exists e :: e in entries && now < e + p.cooldown)
            && (out.blocked ==> |entries| > 0 && out.retryAfter == entries[|entries| - 1] + p.cooldown - now)
            && (forall i :: 0 <= i < |entries| - 1 ==> entries[i] + p.cooldown <= entries[i + 1])
  {
    var before, op := ops[..|ops| - 1], ops[|ops| - 1];
    CooldownTracked(p, before);
    var s, entries := After(p, before), Entries(p, before);
    assert Entries(p, ops) == entries;
    assert |before| > 0 ==> Time(before[|before| - 1]) <= Time(op);
    if s.Some? {
      DecayKeepsCooldown(p, s.value, op.now);
      assert |entries| > 0 ==> entries[|entries| - 1] in entries;
    }
  }

  /** Whatever the order of the clock readings: until one of them reaches the end of the
      cooldown, it stays as it is, and every check blocks until exactly that end. */
  lemma {:induction false} CooldownHolds(p: Params, first: seq<Op>, rest: seq<Op>)
    requires |first| > 0 && Answer(p, first).Added? && Answer(p, first).entered
    requires forall op :: op in rest ==> Time(op) < Answer(p, first).cooldownUntil
    ensures var until := Answer(p, first).cooldownUntil;
            && After(p, first + rest).Some? && After(p, first + rest).value.cooldownUntil == until
            && Entries(p, first + rest) == Entries(p, first)
            && (|rest| > 0 && rest[|rest| - 1].Check? ==>
                  Answer(p, first + rest).blocked &&
                  Answer(p, first + rest).retryAfter == until - Time(rest[|rest| - 1]))
    decreases |rest|
  {
    if |rest| == 0 {
      assert first + rest == first;
    } else {
      var n := |rest| - 1;
      CooldownHolds(p, first, rest[..n]);
      assert (first + rest)[..|first + rest| - 1] == first + rest[..n];
      assert rest[n] in rest;
      DecayKeepsCooldown(p, After(p, first + rest[..n]).value, rest[n].now);
    }
  }

  /** With a clock that goes back the cooldown can be lost: a check past its end clears it. */
  lemma ClockBackLosesCooldown() returns (p: Params, ops: seq<Op>)
    ensures |ops| > 0 && ops[|ops| - 1].Check? && !Answer(p, ops).blocked
    ensures exists e :: e in Entries(p, ops) && e <= Time(ops[|ops| - 1]) < e + p.cooldown
  {
    p := Params(1, 10, 0);
    ops := [Add(1, 5), Check(20), Check(6)];
    assert ops[..2] == [Add(1, 5), Check(20)] && ops[..2][..1] == [Add(1, 5)] && [Add(1, 5)][..0] == [];
    assert After(p, ops[..2][..1]) == Some(State(1, 5, 15));
    assert After(p, ops[..2]) == Some(State(1, 5, ZERO_TIME));
    assert Entries(p, ops[..2][..1]) == [5];
    assert Entries(p, ops[..2]) == [5] && Entries(p, ops) == [5];
    assert 5 in Entries(p, ops);
  }

  // ---------- cooldowns under any clock ----------

  ghost predicate IsEntry(p: Params, ops: seq<Op>, k: nat) {
    k < |ops| && Answer(p, ops[..k + 1]).Added? && Answer(p, ops[..k + 1]).entered
  }

  ghost predicate LastEntry(p: Params, ops: seq<Op>, k: nat) {
    IsEntry(p, ops, k) && forall i :: k < i < |ops| ==> !IsEntry(p, ops, i)
  }

  /** When the cooldown entered by operation `k` is over. */
  function EndOf(p: Params, ops: seq<Op>, k: nat): int
    requires k < |ops|
  {
    Time(ops[k]) + p.cooldown
  }

  /** `k` is the last entry, and no check since has had a reading at its end or later. */
  ghost predicate Uncleared(p: Params, ops: seq<Op>, k: nat) {
    LastEntry(p, ops, k) && forall i :: k < i < |ops| && ops[i].Check? ==> Time(ops[i]) < EndOf(p, ops, k)
  }

  lemma EntryOfPrefix(p: Params, ops: seq<Op>, op: Op, k: nat)
    requires k < |ops|
    ensures IsEntry(p, ops + [op], k) <==> IsEntry(p, ops, k)
    ensures IsEntry(p, ops + [op], |ops|) <==> Answer(p, ops + [op]).Added? && Answer(p, ops + [op]).entered
  {
    assert (ops + [op])[..k + 1] == ops[..k + 1];
    assert (ops + [op])[..|ops| + 1] == ops + [op];
  }

  lemma UnclearedSnoc(p: Params, ops: seq<Op>, op: Op, k: nat)
    requires k < |ops|
    ensures Uncleared(p, ops + [op], k) <==>
            Uncleared(p, ops, k) && !IsEntry(p, ops + [op], |ops|) && (op.Check? ==> Time(op) < EndOf(p, ops, k))
  {
    forall i | 0 <= i < |ops| ensures IsEntry(p, ops + [op], i) <==> IsEntry(p, ops, i) {
      EntryOfPrefix(p, ops, op, i);
    }
    if Uncleared(p, ops + [op], k) {
      assert forall i :: k < i < |ops| ==> (ops + [op])[i] == ops[i];
    }
  }

  /** What the tracker has recorded about a key's cooldown. */
  ghost predicate Records(p: Params, ops: seq<Op>, s: Option<State>) {
    && (forall k :: Uncleared(p, ops, k) ==> s.Some? && s.value.cooldownUntil == EndOf(p, ops, k))
    && ((forall k :: !Uncleared(p, ops, k)) && s.Some? ==> s.value.cooldownUntil == ZERO_TIME)
  }

  lemma {:induction false} CooldownRecorded(p: Params, ops: seq<Op>)
    ensures Records(p, ops, After(p, ops))
    decreases |ops|
  {
    if |ops| == 0 {
    } else {
      var before, op := ops[..|ops| - 1], ops[|ops| - 1];
      assert ops == before + [op] && ops[..|ops|] == ops;
      CooldownRecorded(p, before);
      if IsEntry(p, ops, |before|) {
        EntryRecorded(p, before, op);
      } else {
        RecordKept(p, before, op);
      }
    }
  }

  lemma EntryRecorded(p: Params, before: seq<Op>, op: Op)
    requires IsEntry(p, before + [op], |before|)
    ensures Records(p, before + [op], After(p, before + [op]))
  {
    var ops := before + [op];
    assert ops[..|before|] == before && ops[..|before| + 1] == ops;
    assert Uncleared(p, ops, |before|);
    forall k: nat | Uncleared(p, ops, k) ensures k == |before| {
      if k < |before| {
        UnclearedSnoc(p, before, op, k);
      }
    }
  }

  /** Only a check at the end or later clears the record. */
  lemma CooldownAfter(p: Params, s: Option<State>, op: Op)
    requires !(Step(p, s, op).1.Added? && Step(p, s, op).1.entered)
    ensures s.None? && Step(p, s, op).0.Some? ==> Step(p, s, op).0.value.cooldownUntil == ZERO_TIME
    ensures s.Some? ==> Step(p, s, op).0.Some? && Step(p, s, op).0.value.cooldownUntil ==
                        if op.Check? && Time(op) >= s.value.cooldownUntil then ZERO_TIME else s.value.cooldownUntil
  {
    if s.Some? {
      DecayKeepsCooldown(p, s.value, op.now);
    } else {
      DecayKeepsCooldown(p, State(0, op.now, ZERO_TIME), op.now);
    }
  }

  lemma RecordKept(p: Params, before: seq<Op>, op: Op)
    requires Records(p, before, After(p, before)) && !IsEntry(p, before + [op], |before|)
    ensures Records(p, before + [op], After(p, before + [op]))
  {
    var ops := before + [op];
    assert ops[..|before|] == before && ops[..|before| + 1] == ops;
    CooldownAfter(p, After(p, before), op);
    forall k: nat | k < |before|
      ensures Uncleared(p, ops, k) <==> Uncleared(p, before, k) && (op.Check? ==> Time(op) < EndOf(p, before, k))
      ensures EndOf(p, ops, k) == EndOf(p, before, k)
    {
      UnclearedSnoc(p, before, op, k);
    }
    assert forall k: nat :: Uncleared(p, ops, k) ==> k < |before|;
    assert forall k: nat :: Uncleared(p, before, k) ==> k < |before|;
  }

  /** Exactly when a check blocks, for every history and clock: the last entry's end lies ahead and
      no check since its entry has had a reading at that end or later. (Before the zero time, which
      no clock shows, the mark for "no cooldown" itself lies ahead.) */
  lemma BlockedExactly(p: Params, ops: seq<Op>, now: int)
    ensures var out := Answer(p, ops + [Check(now)]);
            && out.Checked?
            && (out.blocked <==>
                  (exists k :: Uncleared(p, ops, k) && now < EndOf(p, ops, k)) ||
                  (now < ZERO_TIME && After(p, ops).Some? && forall k :: !Uncleared(p, ops, k)))
            && forall k :: Uncleared(p, ops, k) && out.blocked ==> out.retryAfter == EndOf(p, ops, k) - now
  {
    CooldownRecorded(p, ops);
    assert (ops + [Check(now)])[..|ops|] == ops;
    if After(p, ops).Some? {
      DecayKeepsCooldown(p, After(p, ops).value, now);
    }
  }

  /** A cooldown that is not over, whatever came before its entry, is enforced if and only if no
      check since its entry has had a reading at its end or later. */
  lemma CooldownSurvivesIff(p: Params, ops: seq<Op>, k: nat, now: int)
    requires LastEntry(p, ops, k) && ZERO_TIME <= now < EndOf(p, ops, k)
    ensures Answer(p, ops + [Check(now)]).Checked?
    ensures Answer(p, ops + [Check(now)]).blocked <==>
            forall i :: k < i < |ops| && ops[i].Check? ==> Time(ops[i]) < EndOf(p, ops, k)
  {
    BlockedExactly(p, ops, now);
    assert forall j :: LastEntry(p, ops, j) ==> j == k;
  }
}
