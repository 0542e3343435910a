/** The token-bucket limiter, and the rule about windows of time that it decides.
    Token counts are real numbers; times are integer nanoseconds. */
module RateLimit {
  import opened Machines

  const SECOND := 1_000_000_000
  const MILLISECOND := 1_000_000

  function Seconds(nanos: int): real {
    nanos as real / 1_000_000_000.0
  }

  /** What is refilled in that time. */
  function Gain(l: Limits, nanos: int): real {
    Seconds(nanos) * l.refillRate
  }

  datatype Bucket = Bucket(tokens: real, lastRefill: int)

  datatype Limits = Limits(capacity: int, refillRate: real)

  /** Refill for the time since the last refill; a clock that went back refills nothing. */
  function Refill(l: Limits, b: Bucket, now: int): Bucket {
    if now > b.lastRefill then
      var tokens := b.tokens + Gain(l, now - b.lastRefill);
      Bucket(if tokens > l.capacity as real then l.capacity as real else tokens, now)
    else b
  }

  function Full(l: Limits, now: int): Bucket {
    Bucket(l.capacity as real, now)
  }

  function Spend(b: Bucket): Bucket {
    if b.tokens >= 1.0 then b.(tokens := b.tokens - 1.0) else b
  }

  /** The retry advice for a request denied with `tokens` left. */
  function RetryAfter(l: Limits, tokens: real): int {
    if l.refillRate <= 0.0 then SECOND
    else
      var retry := ExactWait(l, tokens).Floor;
      if retry < MILLISECOND then MILLISECOND else retry
  }

  /** The nanoseconds until one token is there. */
  function ExactWait(l: Limits, tokens: real): real
    requires l.refillRate > 0.0
  {
    (1.0 - tokens) / l.refillRate * 1_000_000_000.0
  }

  // ---------- one key's history ----------

  /** The running maximum of the clock readings. */
  function Clock(times: seq<int>): (t: int)
    requires |times| > 0
    ensures t in times && forall k :: 0 <= k < |times| ==> times[k] <= t
  {
    var n := |times| - 1;
    if n == 0 then times[0]
    else
      var before := Clock(times[..n]);
      assert forall k :: 0 <= k < n ==> times[..n][k] == times[k];
      if times[n] > before then times[n] else before
  }

  /** The bucket as the last of these requests finds it, refilled. */
  function Found(l: Limits, times: seq<int>): Bucket
    requires |times| > 0
    decreases |times|
  {
    var n := |times| - 1;
    if n == 0 then Full(l, times[0]) else Refill(l, Spend(Found(l, times[..n])), times[n])
  }

  predicate Admits(l: Limits, times: seq<int>)
    requires |times| > 0
  {
    Found(l, times).tokens >= 1.0
  }

  /** How many of the requests from `j` up to, not including, the last were admitted. */
  function Admitted(l: Limits, times: seq<int>, j: nat): nat
    decreases |times|
  {
    var n := |times| - 1;
    if n <= j then 0 else Admitted(l, times[..n], j) + if Admits(l, times[..n]) then 1 else 0
  }

  /** What the window from request `j` to the last still allows. */
  function Allowance(l: Limits, times: seq<int>, j: nat): real
    requires j < |times|
  {
    l.capacity as real + Gain(l, Clock(times) - Clock(times[..j + 1])) - Admitted(l, times, j) as real
  }

  /** The last request and those admitted from `j` on do not exceed capacity plus refill. */
  predicate FitsWindow(l: Limits, times: seq<int>, j: nat)
    requires j < |times|
  {
    Admitted(l, times, j) as real + 1.0 <= l.capacity as real + Gain(l, Clock(times) - Clock(times[..j + 1]))
  }

  /** The declarative rule: the last request and those admitted before it fit every window that
      ends with it. */
  ghost predicate FitsEveryWindow(l: Limits, times: seq<int>) {
    forall j :: 0 <= j < |times| ==> FitsWindow(l, times, j)
  }

  lemma FitsByAllowance(l: Limits, times: seq<int>, j: nat)
    requires j < |times|
    ensures FitsWindow(l, times, j) <==> Allowance(l, times, j) >= 1.0
  {
  }

  lemma {:induction false} FoundClock(l: Limits, times: seq<int>)
    requires |times| > 0
    ensures Found(l, times).lastRefill == Clock(times)
    ensures Found(l, times).tokens <= l.capacity as real
    decreases |times|
  {
    if |times| == 1 {
    } else {
      FoundClock(l, times[..|times| - 1]);
    }
  }

  lemma GainAdds(l: Limits, a: int, b: int)
    ensures Gain(l, a + b) == Gain(l, a) + Gain(l, b)
    ensures Gain(l, 0) == 0.0
  {
    assert Seconds(a + b) == Seconds(a) + Seconds(b);
  }

  /** Every window's allowance changes alike from one request to the next. */
  lemma AllowanceStep(l: Limits, times: seq<int>, j: nat)
    requires |times| > 1 && j < |times| - 1
    ensures var n := |times| - 1; var before := times[..n];
            Allowance(l, times, j) == Allowance(l, before, j) + Gain(l, Clock(times) - Clock(before))
                                        - (if Admits(l, before) then 1.0 else 0.0)
  {
    var n := |times| - 1;
    var before := times[..n];
    assert before[..j + 1] == times[..j + 1];
    GainAdds(l, Clock(before) - Clock(times[..j + 1]), Clock(times) - Clock(before));
  }

  function Grown(l: Limits, times: seq<int>): real
    requires |times| > 1
  {
    var before := times[..|times| - 1];
    Found(l, before).tokens - (if Admits(l, before) then 1.0 else 0.0) + Gain(l, Clock(times) - Clock(before))
  }

  lemma FoundStep(l: Limits, times: seq<int>)
    requires |times| > 1
    ensures Found(l, times).tokens ==
            if Grown(l, times) > l.capacity as real then l.capacity as real else Grown(l, times)
  {
    FoundClock(l, times[..|times| - 1]);
    GainAdds(l, 0, 0);
  }

  lemma LastWindow(l: Limits, times: seq<int>)
    requires |times| > 0
    ensures Allowance(l, times, |times| - 1) == l.capacity as real
  {
    assert times[..|times|] == times;
    GainAdds(l, 0, 0);
  }

  /** `x` is the smallest allowance over the windows from the first `n` requests on. */
  ghost predicate IsLeast(l: Limits, times: seq<int>, n: nat, x: real)
    requires n <= |times|
  {
    && (forall j :: 0 <= j < n ==> x <= Allowance(l, times, j))
    && (exists j :: 0 <= j < n && x == Allowance(l, times, j))
  }

  /** What the earlier windows allow changes as the bucket does before it is capped. */
  lemma GrownIsLeast(l: Limits, times: seq<int>, before: seq<int>)
    requires |times| > 1 && before == times[..|times| - 1]
    requires IsLeast(l, before, |before|, Found(l, before).tokens)
    ensures IsLeast(l, times, |before|, Grown(l, times))
  {
    forall j | 0 <= j < |before| ensures Grown(l, times) <= Allowance(l, times, j) {
      AllowanceStep(l, times, j);
    }
    var k :| 0 <= k < |before| && Found(l, before).tokens == Allowance(l, before, k);
    AllowanceStep(l, times, k);
    assert Grown(l, times) == Allowance(l, times, k);
  }

  /** The last window allows the capacity, which is the cap. */
  lemma CappedIsLeast(l: Limits, times: seq<int>, n: nat, x: real)
    requires n == |times| - 1 && IsLeast(l, times, n, x)
    ensures IsLeast(l, times, |times|, if x > l.capacity as real then l.capacity as real else x)
  {
    LastWindow(l, times);
    var cap := l.capacity as real;
    var least := if x > cap then cap else x;
    forall j | 0 <= j < |times| ensures least <= Allowance(l, times, j) {
      if j < n {
        assert x <= Allowance(l, times, j);
      }
    }
    var k :| 0 <= k < n && x == Allowance(l, times, k);
    if x > cap {
      assert least == Allowance(l, times, n);
    } else {
      assert least == Allowance(l, times, k);
    }
  }

  /** The one number in the bucket is the smallest allowance over all windows. */
  lemma {:induction false} FoundIsLeastAllowance(l: Limits, times: seq<int>)
    requires |times| > 0
    ensures IsLeast(l, times, |times|, Found(l, times).tokens)
    decreases |times|
  {
    var n := |times| - 1;
    if n == 0 {
      LastWindow(l, times);
      assert Found(l, times).tokens == Allowance(l, times, 0);
    } else {
      FoundIsLeastAllowance(l, times[..n]);
      GrownIsLeast(l, times, times[..n]);
      CappedIsLeast(l, times, n, Grown(l, times));
      FoundStep(l, times);
    }
  }

  /** The bucket decides the rule, for every capacity and rate and however the clock jumps. */
  lemma BucketDecidesWindows(l: Limits, times: seq<int>)
    requires |times| > 0
    ensures Admits(l, times) <==> FitsEveryWindow(l, times)
  {
    FoundIsLeastAllowance(l, times);
    forall j: nat | j < |times|
      ensures FitsWindow(l, times, j) <==> Allowance(l, times, j) >= 1.0
    {
      FitsByAllowance(l, times, j);
    }
    if FitsEveryWindow(l, times) {
      var j: nat :| j < |times| && Found(l, times).tokens == Allowance(l, times, j);
      assert FitsWindow(l, times, j);
    }
  }

  // ---------- the retry advice ----------

  /** When a denied key's next request, `wait` after the latest clock reading, is admitted. */
  lemma AdmittedAfter(l: Limits, times: seq<int>, wait: int)
    requires |times| > 0 && !Admits(l, times)
    ensures Admits(l, times + [Clock(times) + wait]) <==>
            l.capacity >= 1 && l.refillRate > 0.0 && wait > 0 && ExactWait(l, Found(l, times).tokens) <= wait as real
  {
    AdmittedByGain(l, times, wait);
    if wait > 0 {
      GainReaches(l, Found(l, times).tokens, wait);
    }
  }

  lemma AdmittedByGain(l: Limits, times: seq<int>, wait: int)
    requires |times| > 0 && !Admits(l, times)
    ensures Admits(l, times + [Clock(times) + wait]) <==>
            wait > 0 && l.capacity >= 1 && Found(l, times).tokens + Gain(l, wait) >= 1.0
  {
    FoundClock(l, times);
    assert (times + [Clock(times) + wait])[..|times|] == times;
    RefillReaches(l, Found(l, times), wait);
  }

  lemma RefillReaches(l: Limits, b: Bucket, wait: int)
    requires b.tokens < 1.0
    ensures Refill(l, b, b.lastRefill + wait).tokens >= 1.0 <==>
            wait > 0 && l.capacity >= 1 && b.tokens + Gain(l, wait) >= 1.0
  {
    assert l.capacity >= 1 <==> l.capacity as real >= 1.0;
  }

  lemma GainReaches(l: Limits, tokens: real, wait: int)
    requires tokens < 1.0 && wait > 0
    ensures tokens + Gain(l, wait) >= 1.0 <==> l.refillRate > 0.0 && ExactWait(l, tokens) <= wait as real
  {
    if l.refillRate > 0.0 {
      PositiveRate(l, tokens, Seconds(wait));
    } else {
      var r := -l.refillRate;
      assert Seconds(wait) * r >= 0.0;
    }
  }

  lemma PositiveRate(l: Limits, tokens: real, w: real)
    requires l.refillRate > 0.0
    ensures tokens + w * l.refillRate >= 1.0 <==> (1.0 - tokens) / l.refillRate <= w
  {
    var q := (1.0 - tokens) / l.refillRate;
    assert q * l.refillRate == 1.0 - tokens;
    if w >= q {
      assert (w - q) * l.refillRate >= 0.0;
    } else {
      assert (q - w) * l.refillRate > 0.0;
    }
  }

  /** The advice is the exact wait, cut to whole nanoseconds and raised to the floor. */
  lemma AdviceIsTight(l: Limits, tokens: real)
    ensures RetryAfter(l, tokens) >= MILLISECOND
    ensures l.refillRate > 0.0 ==> ExactWait(l, tokens) <= (RetryAfter(l, tokens) + 1) as real
    ensures l.refillRate > 0.0 && RetryAfter(l, tokens) > MILLISECOND ==>
      RetryAfter(l, tokens) as real <= ExactWait(l, tokens)
  {
  }

  /** Above the floor, anything shorter than the advice by a nanosecond fails. */
  lemma TooEarly(l: Limits, times: seq<int>, wait: int)
    requires |times| > 0 && !Admits(l, times) && l.refillRate > 0.0
    requires RetryAfter(l, Found(l, times).tokens) > MILLISECOND && wait <= RetryAfter(l, Found(l, times).tokens) - 1
    ensures !Admits(l, times + [Clock(times) + wait])
  {
    AdmittedAfter(l, times, wait);
    AdviceIsTight(l, Found(l, times).tokens);
  }

  /** A nanosecond more than `retry` is at least the exact wait, if there is one. */
  predicate Covers(l: Limits, tokens: real, retry: int) {
    retry >= 0 && (l.refillRate > 0.0 ==> ExactWait(l, tokens) <= (retry + 1) as real)
  }

  lemma AdviceCovers(l: Limits, tokens: real)
    ensures Covers(l, tokens, RetryAfter(l, tokens))
  {
    AdviceIsTight(l, tokens);
  }

  /** The advice suffices one nanosecond later exactly when the key can ever be admitted again. */
  lemma RetrySuffices(l: Limits, times: seq<int>)
    requires |times| > 0 && !Admits(l, times)
    ensures Admits(l, times + [Clock(times) + (RetryAfter(l, Found(l, times).tokens) + 1)])
            <==> l.capacity >= 1 && l.refillRate > 0.0
  {
    var tokens := Found(l, times).tokens;
    AdviceCovers(l, tokens);
    AnyAdviceSuffices(l, times, tokens, RetryAfter(l, tokens));
  }

  lemma AnyAdviceSuffices(l: Limits, times: seq<int>, tokens: real, retry: int)
    requires |times| > 0 && !Admits(l, times) && tokens == Found(l, times).tokens
    requires Covers(l, tokens, retry)
    ensures Admits(l, times + [Clock(times) + (retry + 1)]) <==> l.capacity >= 1 && l.refillRate > 0.0
  {
    AdmittedAfter(l, times, retry + 1);
  }

  /** A caller counts the advice from its own clock reading `now`, which may lag behind the latest
      one. One nanosecond after the advice it is admitted exactly when what is left of the wait,
      its lag taken off, is the exact wait or more. */
  lemma RetryForCaller(l: Limits, times: seq<int>)
    requires |times| > 0 && !Admits(l, times)
    ensures var tokens, now := Found(l, times).tokens, times[|times| - 1];
            var left := RetryAfter(l, tokens) + 1 - (Clock(times) - now);
            Admits(l, times + [now + RetryAfter(l, tokens) + 1]) <==>
              l.capacity >= 1 && l.refillRate > 0.0 && left > 0 && ExactWait(l, tokens) <= left as real
  {
    CallerAdmitted(l, times, RetryAfter(l, Found(l, times).tokens));
  }

  lemma CallerAdmitted(l: Limits, times: seq<int>, retry: int)
    requires |times| > 0 && !Admits(l, times)
    ensures var tokens, now := Found(l, times).tokens, times[|times| - 1];
            var left := retry + 1 - (Clock(times) - now);
            Admits(l, times + [now + retry + 1]) <==>
              l.capacity >= 1 && l.refillRate > 0.0 && left > 0 && ExactWait(l, tokens) <= left as real
  {
    AdmittedAt(l, times, times[|times| - 1] + retry + 1, retry + 1 - (Clock(times) - times[|times| - 1]));
  }

  lemma AdmittedAt(l: Limits, times: seq<int>, next: int, wait: int)
    requires |times| > 0 && !Admits(l, times) && next == Clock(times) + wait
    ensures Admits(l, times + [next]) <==>
            l.capacity >= 1 && l.refillRate > 0.0 && wait > 0 && ExactWait(l, Found(l, times).tokens) <= wait as real
  {
    AdmittedAfter(l, times, wait);
  }

  /** Of a limiter with one token and one more each second: a caller whose clock lags by two
      nanoseconds is denied, takes the advice, and is denied again. */
  lemma LaggingCallerDenied() returns (l: Limits, times: seq<int>)
    ensures |times| > 0 && !Admits(l, times) && l.capacity >= 1 && l.refillRate > 0.0
    ensures times[|times| - 1] == Clock(times) - 2
    ensures !Admits(l, times + [times[|times| - 1] + RetryAfter(l, Found(l, times).tokens) + 1])
  {
    l, times := Limits(1, 1.0), [10, 8];
    assert times[..1] == [10] && [10][..0] == [];
    assert Found(l, times).tokens == 0.0;
    assert ExactWait(l, 0.0) == 1_000_000_000.0 && RetryAfter(l, 0.0) == SECOND;
    RetryForCaller(l, times);
  }

  // ---------- the limiter ----------

  datatype Call = Call(key: string, at: int)

  /** One key's clock readings among the calls. */
  function Readings(log: seq<Call>, key: string): seq<int> {
    if |log| == 0 then []
    else Readings(log[..|log| - 1], key) + if log[|log| - 1].key == key then [log[|log| - 1].at] else []
  }

  lemma ReadingsSnoc(log: seq<Call>, call: Call)
    ensures forall key :: Readings(log + [call], key) == Readings(log, key) + if key == call.key then [call.at] else []
  {
    assert (log + [call])[..|log|] == log;
  }

  class Limiter {
    const limits: Limits
    var buckets: map<string, Bucket>

    /** All calls so far, in the order in which the mutex let them in. */
    ghost var log: seq<Call>

    /** Each bucket is what its key's own calls have left. */
    ghost predicate Valid()
      reads this
    {
      forall key {:trigger key in buckets} {:trigger Readings(log, key)} ::
        (key in buckets <==> |Readings(log, key)| > 0) &&
        (key in buckets ==> buckets[key] == Spend(Found(limits, Readings(log, key))))
    }

    constructor (capacity: int, refillPerSecond: real)
      ensures Valid() && limits == Limits(capacity, refillPerSecond) && log == []
    {
      limits := Limits(capacity, refillPerSecond);
      buckets := map[];
      log := [];
    }

    /** Admission is decided by the key's own calls, and by the rule about windows. */
    method Allow(key: string, now: int) returns (allowed: bool, retry: int)
      requires Valid()
      modifies this
      ensures Valid() && log == old(log) + [Call(key, now)]
      ensures Readings(log, key) == old(Readings(log, key)) + [now]
      ensures forall other :: other != key ==> Readings(log, other) == old(Readings(log, other))
      ensures allowed <==> FitsEveryWindow(limits, Readings(log, key))
      ensures retry == if allowed then 0 else RetryAfter(limits, Found(limits, Readings(log, key)).tokens)
    {
      ghost var before := Readings(log, key);
      log := log + [Call(key, now)];
      ReadingsSnoc(old(log), Call(key, now));
      var times := before + [now];
      assert times[..|before|] == before;
      BucketDecidesWindows(limits, times);

      var b := if key in buckets then buckets[key] else Full(limits, now);
      var elapsed := now - b.lastRefill;
      if elapsed > 0 {
        var tokens := b.tokens + Gain(limits, elapsed);
        if tokens > limits.capacity as real {
          tokens := limits.capacity as real;
        }
        b := Bucket(tokens, now);
      }
      assert b == Found(limits, times);
      allowed := b.tokens >= 1.0;
      if allowed {
        retry := 0;
        b := b.(tokens := b.tokens - 1.0);
      } else {
        retry := RetryAfter(limits, b.tokens);
      }
      assert b == Spend(Found(limits, times));
      buckets := buckets[key := b];
      forall other | other != key
        ensures Readings(log, other) == old(Readings(log, other))
      {
      }
    }
  }
}
