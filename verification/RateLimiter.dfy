/** The per-user token bucket of internal/middleware/ratelimit.go.

    A bucket is two numbers.  The theorems say what those two numbers mean for a whole
    history of requests: an exact admission test over all pairs of requests, a bound on
    every window, independence of keys, recovery after a denial, and the harmlessness of
    sweeping full buckets.  `float64` is modelled by `real`, so rounding is not captured. */
module RateLimiter {
  import opened Numbers

  datatype Params = Params(rate: real, burst: int)
  datatype Level = Level(tokens: real, lastRefill: real)
  datatype Request = Request(key: string, time: real)

  /** The values of all buckets, by key. */
  type Levels = map<string, Level>

  // ---------------------------------------------------------------- one locked step

  /** What a span of `dt` seconds adds before the cap. */
  function Refill(p: Params, dt: real): real { dt * p.rate }

  function Pay(burst: real, refilled: real): real {
    (if refilled > burst then burst else refilled) - 1.0
  }

  /** Refill, cap at the burst, and pay one token -- also when the result is a denial. */
  function Charge(p: Params, before: Level, now: real): Level {
    Level(Pay(p.burst as real, before.tokens + Refill(p, now - before.lastRefill)), now)
  }

  function LevelOf(p: Params, m: Levels, r: Request): Level {
    if r.key in m then m[r.key] else Level(p.burst as real, r.time)
  }

  function Step(p: Params, m: Levels, r: Request): Levels {
    m[r.key := Charge(p, LevelOf(p, m, r), r.time)]
  }

  predicate Admits(p: Params, m: Levels, r: Request) {
    Charge(p, LevelOf(p, m, r), r.time).tokens >= 0.0
  }

  function Run(p: Params, m: Levels, reqs: seq<Request>): Levels {
    if reqs == [] then m else Step(p, Run(p, m, reqs[..|reqs|-1]), reqs[|reqs|-1])
  }

  /** Was request `n` of the history admitted, starting from no buckets at all? */
  predicate Admitted(p: Params, reqs: seq<Request>, n: nat)
    requires n < |reqs|
  {
    Admits(p, Run(p, map[], reqs[..n]), reqs[n])
  }

  /** The arrival times of one key, in order of arrival. */
  function TimesOf(reqs: seq<Request>, key: string): (ts: seq<real>)
  {
    if reqs == [] then []
    else
      var before, r := TimesOf(reqs[..|reqs|-1], key), reqs[|reqs|-1];
      if r.key == key then before + [r.time] else before
  }

  /** The bucket of a key that has seen exactly these arrivals. */
  function After(p: Params, ts: seq<real>): Level
    requires ts != []
  {
    var now := ts[|ts|-1];
    Charge(p, if |ts| == 1 then Level(p.burst as real, now) else After(p, ts[..|ts|-1]), now)
  }

  // ---------------------------------------------------------------- independence of keys

  /** The bucket of a key depends on that key's requests alone. */
  lemma {:induction false} BucketSeesOnlyItsKey(p: Params, reqs: seq<Request>, key: string)
    ensures key in Run(p, map[], reqs) <==> TimesOf(reqs, key) != []
    ensures TimesOf(reqs, key) != [] ==> Run(p, map[], reqs)[key] == After(p, TimesOf(reqs, key))
  {
    if reqs != [] {
      var shorter, r := reqs[..|reqs|-1], reqs[|reqs|-1];
      BucketSeesOnlyItsKey(p, shorter, key);
      if r.key == key {
        var ts := TimesOf(reqs, key);
        assert ts[..|ts|-1] == TimesOf(shorter, key);
      }
    }
  }

  function OnlyKey(reqs: seq<Request>, key: string): seq<Request> {
    if reqs == [] then []
    else
      var before, r := OnlyKey(reqs[..|reqs|-1], key), reqs[|reqs|-1];
      if r.key == key then before + [r] else before
  }

  lemma {:induction false} OnlyKeyKeepsTimes(reqs: seq<Request>, key: string)
    ensures TimesOf(OnlyKey(reqs, key), key) == TimesOf(reqs, key)
  {
    if reqs != [] {
      var shorter, r := reqs[..|reqs|-1], reqs[|reqs|-1];
      OnlyKeyKeepsTimes(shorter, key);
      if r.key == key {
        var own := OnlyKey(reqs, key);
        assert own[..|own|-1] == OnlyKey(shorter, key);
      }
    }
  }

  /** Deleting every other key's requests from the past changes no decision about `r`. */
  lemma KeysAreIndependent(p: Params, past: seq<Request>, r: Request)
    ensures Admits(p, Run(p, map[], past), r) == Admits(p, Run(p, map[], OnlyKey(past, r.key)), r)
  {
    BucketSeesOnlyItsKey(p, past, r.key);
    BucketSeesOnlyItsKey(p, OnlyKey(past, r.key), r.key);
    OnlyKeyKeepsTimes(past, r.key);
  }

  // ---------------------------------------------------------------- the history test

  /** Requests j..|ts|-1, denied ones included, fit into the burst plus what was refilled since j. */
  ghost predicate Fits(p: Params, ts: seq<real>, j: nat)
    requires j < |ts|
  {
    (|ts| - j) as real <= p.burst as real + Refill(p, ts[|ts|-1] - ts[j])
  }

  ghost predicate EveryStretchFits(p: Params, ts: seq<real>) {
    forall j | 0 <= j < |ts| :: Fits(p, ts, j)
  }

  // To keep multiplication out of the inductions, time is measured in refilled tokens.

  function Scaled(p: Params, ts: seq<real>): (vs: seq<real>)
    ensures |vs| == |ts|
    ensures forall i | 0 <= i < |ts| :: vs[i] == Refill(p, ts[i])
  {
    seq(|ts|, i requires 0 <= i < |ts| => Refill(p, ts[i]))
  }

  lemma RefillBetween(p: Params, s: real, t: real)
    ensures Refill(p, t - s) == Refill(p, t) - Refill(p, s)
  {
  }

  function Drain(burst: real, vs: seq<real>): real
    requires vs != []
  {
    var n := |vs| - 1;
    Pay(burst, if n == 0 then burst else Drain(burst, vs[..n]) + (vs[n] - vs[n-1]))
  }

  lemma AfterOneMore(p: Params, ts: seq<real>, now: real)
    requires ts != []
    ensures After(p, ts + [now]) == Charge(p, After(p, ts), now)
    ensures After(p, ts).lastRefill == ts[|ts|-1]
  {
    assert (ts + [now])[..|ts|] == ts;
  }

  lemma DrainOneMore(burst: real, vs: seq<real>, v: real)
    requires vs != []
    ensures Drain(burst, vs + [v]) == Pay(burst, Drain(burst, vs) + (v - vs[|vs|-1]))
  {
    assert (vs + [v])[..|vs|] == vs;
  }

  lemma ChargeIsPay(p: Params, before: Level, now: real)
    ensures Charge(p, before, now)
            == Level(Pay(p.burst as real, before.tokens + (Refill(p, now) - Refill(p, before.lastRefill))), now)
  {
    RefillBetween(p, before.lastRefill, now);
    hide Refill, Pay;
  }

  lemma AfterFirst(p: Params, t: real)
    ensures After(p, [t]) == Level(Drain(p.burst as real, [Refill(p, t)]), t)
  {
    hide Refill, Pay;
    ChargeIsPay(p, Level(p.burst as real, t), t);
  }

  lemma {:induction false} AfterIsDrain(p: Params, ts: seq<real>)
    requires ts != []
    ensures After(p, ts) == Level(Drain(p.burst as real, Scaled(p, ts)), ts[|ts|-1])
  {
    hide Refill, Pay, Charge, After, Drain;
    var n := |ts| - 1;
    if n == 0 {
      AfterFirst(p, ts[0]);
      assert ts == [ts[0]] && Scaled(p, ts) == [Refill(p, ts[0])];
    } else {
      var before, now := ts[..n], ts[n];
      assert ts == before + [now] && Scaled(p, ts) == Scaled(p, before) + [Refill(p, now)];
      AfterIsDrain(p, before);
      AfterOneMore(p, before, now);
      ChargeIsPay(p, After(p, before), now);
      DrainOneMore(p.burst as real, Scaled(p, before), Refill(p, now));
    }
  }

  /** How much room the requests j.. of the history leave. */
  ghost function Slack(burst: real, vs: seq<real>, j: nat): real
    requires j < |vs|
  {
    burst + vs[|vs|-1] - vs[j] - (|vs| - j) as real
  }

  /** The number in the bucket is the smallest slack of all. */
  lemma {:induction false} DrainIsTightestSlack(burst: real, vs: seq<real>)
    requires vs != []
    ensures forall j | 0 <= j < |vs| :: Drain(burst, vs) <= Slack(burst, vs, j)
    ensures exists j :: 0 <= j < |vs| && Drain(burst, vs) == Slack(burst, vs, j)
  {
    var n := |vs| - 1;
    assert Slack(burst, vs, n) == burst - 1.0;
    if n > 0 {
      var before := vs[..n];
      DrainIsTightestSlack(burst, before);
      forall j | 0 <= j < n
        ensures Slack(burst, vs, j) == Slack(burst, before, j) + vs[n] - vs[n-1] - 1.0
      {
      }
      var w :| 0 <= w < n && Drain(burst, before) == Slack(burst, before, w);
      assert Drain(burst, vs) == Slack(burst, vs, w) || Drain(burst, vs) == Slack(burst, vs, n);
    }
  }

  lemma FitsIsSlack(p: Params, ts: seq<real>, j: nat)
    requires j < |ts|
    ensures Fits(p, ts, j) <==> Slack(p.burst as real, Scaled(p, ts), j) >= 0.0
  {
    hide Refill;
    RefillBetween(p, ts[j], ts[|ts|-1]);
  }

  /** One key: its last request is admitted exactly when every stretch ending there fits. */
  lemma KeyHistoryTest(p: Params, ts: seq<real>)
    requires ts != []
    ensures After(p, ts).tokens >= 0.0 <==> EveryStretchFits(p, ts)
  {
    AfterIsDrain(p, ts);
    var vs := Scaled(p, ts);
    DrainIsTightestSlack(p.burst as real, vs);
    forall j | 0 <= j < |ts|
      ensures Fits(p, ts, j) <==> Slack(p.burst as real, vs, j) >= 0.0
    {
      FitsIsSlack(p, ts, j);
    }
    var w :| 0 <= w < |vs| && Drain(p.burst as real, vs) == Slack(p.burst as real, vs, w);
    assert Fits(p, ts, w) <==> Slack(p.burst as real, vs, w) >= 0.0;
  }

  /** The constant-size bucket decides a property of the whole history of its key: request n
      is admitted exactly when every stretch of that key's requests ending at n fits. */
  lemma HistoryTest(p: Params, reqs: seq<Request>, n: nat)
    requires n < |reqs|
    ensures var ts := TimesOf(reqs[..n+1], reqs[n].key);
            && ts != []
            && (Admitted(p, reqs, n) <==> EveryStretchFits(p, ts))
  {
    var key := reqs[n].key;
    var ts := TimesOf(reqs[..n+1], key);
    assert reqs[..n+1][..n] == reqs[..n];
    assert ts[..|ts|-1] == TimesOf(reqs[..n], key);
    BucketSeesOnlyItsKey(p, reqs[..n], key);
    KeyHistoryTest(p, ts);
  }

  // ---------------------------------------------------------------- every window

  /** The requests admitted for one key among those at positions a..b-1 of the history. */
  function Admissions(p: Params, reqs: seq<Request>, key: string, a: nat, b: nat): nat
    requires a <= b <= |reqs|
    decreases b
  {
    if a == b then 0
    else Admissions(p, reqs, key, a, b-1) + (if reqs[b-1].key == key && Admitted(p, reqs, b-1) then 1 else 0)
  }

  ghost predicate InTime(reqs: seq<Request>) {
    forall i, j | 0 <= i <= j < |reqs| :: reqs[i].time <= reqs[j].time
  }

  lemma TimesSoFar(reqs: seq<Request>, key: string, n: nat)
    requires n < |reqs|
    ensures TimesOf(reqs[..n+1], key)
            == if reqs[n].key == key then TimesOf(reqs[..n], key) + [reqs[n].time] else TimesOf(reqs[..n], key)
  {
    assert reqs[..n+1][..n] == reqs[..n];
  }

  /** Only requests of the key are admitted for it, and they arrive within the stretch. */
  lemma {:induction false} TimesWithin(p: Params, reqs: seq<Request>, key: string, a: nat, b: nat)
    requires a <= b <= |reqs| && InTime(reqs)
    ensures var before, after := TimesOf(reqs[..a], key), TimesOf(reqs[..b], key);
            && Admissions(p, reqs, key, a, b) <= |after| - |before|
            && forall k | |before| <= k < |after| :: reqs[a].time <= after[k]
    decreases b
  {
    hide Admitted;
    if a < b {
      TimesWithin(p, reqs, key, a, b-1);
      TimesSoFar(reqs, key, b-1);
    }
  }

  /** An admitted request bounds all requests of its key since any earlier one, denied ones included. */
  lemma AdmittedBoundsRequests(p: Params, ts: seq<real>, a: nat)
    requires a < |ts| && After(p, ts).tokens >= 0.0
    ensures (|ts| - a) as real <= p.burst as real + Refill(p, ts[|ts|-1] - ts[a])
  {
    KeyHistoryTest(p, ts);
    assert Fits(p, ts, a);
  }

  lemma FittingStretchBounds(p: Params, ts: seq<real>, m: nat, count: nat, start: real)
    requires m < |ts| && Fits(p, ts, m) && count <= |ts| - m && start <= ts[m] && p.rate >= 0.0
    ensures count as real <= p.burst as real + Refill(p, ts[|ts|-1] - start)
  {
    hide Refill;
    RefillMonotone(p, ts[|ts|-1] - ts[m], ts[|ts|-1] - start);
  }

  lemma BoundAtAdmission(p: Params, reqs: seq<Request>, a: nat, b: nat)
    requires a < b <= |reqs| && InTime(reqs) && p.rate >= 0.0 && Admitted(p, reqs, b-1)
    ensures Admissions(p, reqs, reqs[b-1].key, a, b) as real
            <= p.burst as real + Refill(p, reqs[b-1].time - reqs[a].time)
  {
    hide Refill, Admitted, TimesOf, Admissions, Fits, InTime;
    var key := reqs[b-1].key;
    var first, after := |TimesOf(reqs[..a], key)|, TimesOf(reqs[..b], key);
    TimesWithin(p, reqs, key, a, b-1);
    TimesWithin(p, reqs, key, a, b);
    HistoryTest(p, reqs, b-1);
    TimesSoFar(reqs, key, b-1);
    FittingStretchBounds(p, after, first, Admissions(p, reqs, key, a, b), reqs[a].time);
  }

  /** Every window of every run over many keys admits at most burst + rate * length of each key. */
  lemma {:induction false} WindowBound(p: Params, reqs: seq<Request>, key: string, a: nat, b: nat)
    requires a < b <= |reqs| && InTime(reqs) && p.rate >= 0.0
    ensures Admissions(p, reqs, key, a, b) > 0 ==>
              Admissions(p, reqs, key, a, b) as real <= p.burst as real + Refill(p, reqs[b-1].time - reqs[a].time)
    decreases b
  {
    hide Refill, Admitted;
    if reqs[b-1].key == key && Admitted(p, reqs, b-1) {
      BoundAtAdmission(p, reqs, a, b);
    } else if a < b-1 {
      WindowBound(p, reqs, key, a, b-1);
      RefillMonotone(p, reqs[b-2].time - reqs[a].time, reqs[b-1].time - reqs[a].time);
    }
  }

  lemma RefillMonotone(p: Params, x: real, y: real)
    requires p.rate >= 0.0 && x <= y
    ensures Refill(p, x) <= Refill(p, y)
  {
    MulMonotone(p.rate, x, y);
  }

  lemma MulMonotone(r: real, x: real, y: real)
    requires r >= 0.0 && x <= y
    ensures r * x <= r * y
  {
    assert r * (y - x) >= 0.0;
  }

  // ---------------------------------------------------------------- recovery after a denial

  /** After a denial that left tau < 0, the next request passes exactly when (1 - tau) / rate has gone by. */
  lemma RecoveryTime(p: Params, denied: Level, now: real)
    requires p.rate > 0.0 && p.burst >= 1 && denied.tokens < 0.0
    ensures Charge(p, denied, now).tokens >= 0.0
            <==> now - denied.lastRefill >= (1.0 - denied.tokens) / p.rate
    ensures (1.0 - denied.tokens) / p.rate > 1.0 / p.rate
  {
    hide Refill;
    RefillReaches(p, now - denied.lastRefill, 1.0 - denied.tokens);
    RefillReaches(p, 1.0 / p.rate, 1.0 - denied.tokens);
    RefillReaches(p, 1.0 / p.rate, 1.0);
    QuotientRefills(p, 1.0);
  }

  lemma RefillReaches(p: Params, gap: real, need: real)
    requires p.rate > 0.0
    ensures Refill(p, gap) >= need <==> gap >= need / p.rate
  {
    hide Refill;
    var due := need / p.rate;
    QuotientRefills(p, need);
    assert Refill(p, due) == need;
    if gap >= due {
      RefillMonotone(p, due, gap);
    } else {
      RefillStrict(p, gap, due);
    }
  }

  lemma RefillStrict(p: Params, x: real, y: real)
    requires p.rate > 0.0 && x < y
    ensures Refill(p, x) < Refill(p, y)
  {
    assert p.rate * (y - x) > 0.0;
  }

  lemma QuotientRefills(p: Params, need: real)
    requires p.rate > 0.0
    ensures Refill(p, need / p.rate) == need
  {
  }

  lemma ShortGapNeverRecovers(p: Params, denied: Level, now: real)
    requires p.rate > 0.0 && denied.tokens < 0.0 && now - denied.lastRefill <= 1.0 / p.rate
    ensures Charge(p, denied, now).tokens < 0.0
  {
    hide Refill;
    RefillMonotone(p, now - denied.lastRefill, 1.0 / p.rate);
    QuotientRefills(p, 1.0);
  }

  /** After request d the key never pauses longer than 1/rate. */
  ghost predicate Impatient(p: Params, reqs: seq<Request>, key: string, d: nat)
    requires p.rate > 0.0
  {
    forall i | d < i < |reqs| && reqs[i].key == key ::
      var ts := TimesOf(reqs[..i], key); ts != [] && reqs[i].time - ts[|ts|-1] <= 1.0 / p.rate
  }

  lemma {:induction false} DebtStays(p: Params, reqs: seq<Request>, d: nat, n: nat)
    requires p.rate > 0.0 && d <= n < |reqs| && !Admitted(p, reqs, d) && Impatient(p, reqs, reqs[d].key, d)
    ensures var ts := TimesOf(reqs[..n+1], reqs[d].key); ts != [] && After(p, ts).tokens < 0.0
    decreases n
  {
    hide Charge;
    var key := reqs[d].key;
    TimesSoFar(reqs, key, n);
    if d == n {
      HistoryTest(p, reqs, n);
      KeyHistoryTest(p, TimesOf(reqs[..n+1], key));
    } else {
      DebtStays(p, reqs, d, n-1);
      if reqs[n].key == key {
        var before := TimesOf(reqs[..n], key);
        AfterOneMore(p, before, reqs[n].time);
        ShortGapNeverRecovers(p, After(p, before), reqs[n].time);
      }
    }
  }

  /** A client that after a denial never pauses longer than 1/rate is never admitted again, in any run. */
  lemma ImpatientIsLockedOut(p: Params, reqs: seq<Request>, d: nat, n: nat)
    requires p.rate > 0.0 && d <= n < |reqs| && reqs[n].key == reqs[d].key
    requires !Admitted(p, reqs, d) && Impatient(p, reqs, reqs[d].key, d)
    ensures !Admitted(p, reqs, n)
  {
    DebtStays(p, reqs, d, n);
    HistoryTest(p, reqs, n);
    KeyHistoryTest(p, TimesOf(reqs[..n+1], reqs[n].key));
  }

  // ---------------------------------------------------------------- obeying Retry-After

  function Ceil(x: real): int { -((-x).Floor) }

  /** The seconds announced in the Retry-After header of a denial. */
  function RetryAfter(p: Params): int
    requires p.rate > 0.0
  {
    Ceil(1.0 / p.rate)
  }

  /** The history of a key that after its last request waits for the announced seconds and tries again. */
  function Again(p: Params, ts: seq<real>): seq<real>
    requires p.rate > 0.0 && ts != []
  {
    ts + [ts[|ts|-1] + RetryAfter(p) as real]
  }

  ghost predicate Denied(p: Params, ts: seq<real>)
    requires ts != []
  {
    After(p, ts).tokens < 0.0
  }

  /** By how much the requests j.. of a history exceed what they may be. */
  ghost function Excess(p: Params, ts: seq<real>, j: nat): real
    requires j < |ts|
  {
    (|ts| - j) as real - p.burst as real - Refill(p, ts[|ts|-1] - ts[j])
  }

  lemma RoundedUp(p: Params)
    requires p.rate > 0.0
    ensures 1.0 / p.rate <= RetryAfter(p) as real < 1.0 / p.rate + 1.0
    ensures Refill(p, RetryAfter(p) as real) >= 1.0
    ensures Refill(p, RetryAfter(p) as real) > 1.0 <==> RetryAfter(p) as real > 1.0 / p.rate
  {
    RefillMonotone(p, 1.0 / p.rate, RetryAfter(p) as real);
    QuotientRefills(p, 1.0);
    if RetryAfter(p) as real > 1.0 / p.rate {
      RefillStrict(p, 1.0 / p.rate, RetryAfter(p) as real);
    }
  }

  /** Obeying Retry-After is enough exactly when no stretch of the key's history exceeds its allowance by more
      than rounding 1/rate up to a whole second brings in. */
  lemma RetryAfterSuffices(p: Params, ts: seq<real>)
    requires p.rate > 0.0 && p.burst >= 1 && ts != [] && Denied(p, ts)
    ensures !Denied(p, Again(p, ts))
            <==> forall j | 0 <= j < |ts| :: Excess(p, ts, j) <= Refill(p, RetryAfter(p) as real - 1.0 / p.rate)
  {
    hide Refill;
    var again, wait := Again(p, ts), RetryAfter(p) as real;
    KeyHistoryTest(p, again);
    RefillBetween(p, 1.0 / p.rate, wait);
    QuotientRefills(p, 1.0);
    RoundedUp(p);
    RefillBetween(p, again[|ts|], again[|ts|]);
    assert Fits(p, again, |ts|);
    forall j | 0 <= j < |ts|
      ensures Fits(p, again, j) <==> Excess(p, ts, j) <= Refill(p, wait - 1.0 / p.rate)
    {
      RefillBetween(p, ts[j], ts[|ts|-1]);
      RefillBetween(p, ts[j], again[|ts|]);
      RefillBetween(p, ts[|ts|-1], again[|ts|]);
    }
  }

  ghost predicate NonDecreasing(ts: seq<real>) {
    forall i, j | 0 <= i <= j < |ts| :: ts[i] <= ts[j]
  }

  /** Whatever rate and burst, some clients obey the header and are denied again. */
  lemma ObedientClientsAreDenied(p: Params) returns (ts: seq<real>)
    requires p.rate > 0.0 && p.burst >= 1
    ensures ts != [] && NonDecreasing(ts) && Denied(p, ts) && Denied(p, Again(p, ts))
  {
    hide Refill;
    var gain := Refill(p, RetryAfter(p) as real);
    var n := p.burst + gain.Floor + 1;
    RoundedUp(p);
    ts := seq(n, _ => 0.0);
    RefillBetween(p, 0.0, 0.0);
    KeyHistoryTest(p, ts);
    assert !Fits(p, ts, 0);
    var again := Again(p, ts);
    KeyHistoryTest(p, again);
    assert !Fits(p, again, 0);
  }

  /** A denial that waiting for the announced seconds cures. */
  ghost predicate Cured(p: Params, ts: seq<real>)
    requires p.rate > 0.0
  {
    ts != [] && NonDecreasing(ts) && Denied(p, ts) && !Denied(p, Again(p, ts))
  }

  /** The header ever helps anybody exactly when 1/rate is not a whole number of seconds. */
  lemma RetryAfterHelpsIff(p: Params)
    requires p.rate > 0.0 && p.burst >= 1
    ensures (exists ts :: Cured(p, ts)) <==> RetryAfter(p) as real != 1.0 / p.rate
  {
    hide Refill;
    RoundedUp(p);
    if ts :| Cured(p, ts) {
      var again := Again(p, ts);
      AfterOneMore(p, ts, again[|ts|]);
      if RetryAfter(p) as real == 1.0 / p.rate {
        ShortGapNeverRecovers(p, After(p, ts), again[|ts|]);
      }
    }
    if RetryAfter(p) as real > 1.0 / p.rate {
      var ts := SlightDebt(p);
      assert Cured(p, ts);
    }
  }

  /** The burst at once, and one request so soon after that it is denied by as little as the header allows. */
  lemma SlightDebt(p: Params) returns (ts: seq<real>)
    requires p.rate > 0.0 && p.burst >= 1 && RetryAfter(p) as real > 1.0 / p.rate
    ensures Cured(p, ts)
  {
    hide Refill;
    RoundedUp(p);
    var gain := Refill(p, RetryAfter(p) as real) - 1.0;
    var debt := if gain > 1.0 then 1.0 else gain;
    var t := (1.0 - debt) / p.rate;
    QuotientRefills(p, 1.0 - debt);
    RefillBetween(p, 0.0, 0.0);
    RefillReaches(p, t, 0.0);
    QuotientRefills(p, 0.0);
    assert t >= 0.0;
    ts := seq(p.burst, _ => 0.0) + [t];
    KeyHistoryTest(p, ts);
    assert !Fits(p, ts, 0);
    RetryAfterSuffices(p, ts);
    RefillBetween(p, 1.0 / p.rate, RetryAfter(p) as real);
    QuotientRefills(p, 1.0);
    RefillBetween(p, t, t);
    forall j | 0 <= j < |ts| ensures Excess(p, ts, j) <= gain {
    }
  }

  /** For a configured number of requests a minute: the header never helps exactly when it divides sixty. */
  lemma RetryAfterByConfiguration(requestsPerMinute: nat, burst: int)
    requires requestsPerMinute > 0 && burst >= 1
    ensures var p := Params(requestsPerMinute as real / 60.0, burst);
            (exists ts :: Cured(p, ts)) <==> 60 % requestsPerMinute != 0
  {
    var p := Params(requestsPerMinute as real / 60.0, burst);
    RetryAfterHelpsIff(p);
    hide Cured;
    assert 1.0 / p.rate == 60.0 / requestsPerMinute as real;
    WholePeriods(requestsPerMinute);
  }

  lemma WholePeriods(n: nat)
    requires n > 0
    ensures Ceil(60.0 / n as real) as real == 60.0 / n as real <==> 60 % n == 0
  {
    var period := 60.0 / n as real;
    assert period * n as real == 60.0;
    if 60 % n == 0 {
      var k := 60 / n;
      assert k * n == 60;
      assert period == k as real;
    }
    if Ceil(period) as real == period {
      assert (Ceil(period) * n) as real == 60.0;
      assert Ceil(period) * n == 60;
      DivisionIs(60, Ceil(period), 0, n);
    }
  }

  // ---------------------------------------------------------------- sweeping full buckets

  /** The planned background clean-up: forget a bucket that would refill to the burst. */
  datatype Event = Arrive(r: Request) | Sweep(key: string, time: real)

  function TimeOf(e: Event): real {
    match e case Arrive(r) => r.time case Sweep(_, t) => t
  }

  predicate Full(p: Params, l: Level, now: real) {
    l.tokens + Refill(p, now - l.lastRefill) >= p.burst as real
  }

  function Handle(p: Params, m: Levels, e: Event): Levels {
    match e
    case Arrive(r) => Step(p, m, r)
    case Sweep(key, t) => if key in m && Full(p, m[key], t) then m - {key} else m
  }

  function RunSwept(p: Params, es: seq<Event>): Levels {
    if es == [] then map[] else Handle(p, RunSwept(p, es[..|es|-1]), es[|es|-1])
  }

  function Arrivals(es: seq<Event>): seq<Request> {
    if es == [] then []
    else
      var before, e := Arrivals(es[..|es|-1]), es[|es|-1];
      if e.Arrive? then before + [e.r] else before
  }

  ghost predicate InOrder(es: seq<Event>) {
    forall i, j | 0 <= i <= j < |es| :: TimeOf(es[i]) <= TimeOf(es[j])
  }

  /** At time `now`, the swept map misses only buckets that are full in the other one. */
  ghost predicate SameButFull(p: Params, swept: Levels, plain: Levels, now: real) {
    && swept.Keys <= plain.Keys
    && (forall k | k in swept :: swept[k] == plain[k])
    && (forall k | k in plain && k !in swept :: Full(p, plain[k], now))
  }

  lemma FullStaysFull(p: Params, l: Level, t: real, u: real)
    requires p.rate >= 0.0 && t <= u && Full(p, l, t)
    ensures Full(p, l, u)
  {
    RefillMonotone(p, t - l.lastRefill, u - l.lastRefill);
  }

  lemma SameLater(p: Params, swept: Levels, plain: Levels, t: real, u: real)
    requires p.rate >= 0.0 && t <= u && SameButFull(p, swept, plain, t)
    ensures SameButFull(p, swept, plain, u)
  {
    forall k | k in plain && k !in swept
      ensures Full(p, plain[k], u)
    {
      FullStaysFull(p, plain[k], t, u);
    }
  }

  /** Exactly a full bucket is charged like one that was just made. */
  lemma OnlyFullLooksAbsent(p: Params, l: Level, now: real)
    ensures Charge(p, l, now) == Charge(p, Level(p.burst as real, now), now) <==> Full(p, l, now)
  {
    RefillBetween(p, now, now);
    hide Refill;
  }

  lemma FullLooksAbsent(p: Params, swept: Levels, plain: Levels, r: Request)
    requires SameButFull(p, swept, plain, r.time)
    ensures Charge(p, LevelOf(p, swept, r), r.time) == Charge(p, LevelOf(p, plain, r), r.time)
    ensures SameButFull(p, Step(p, swept, r), Step(p, plain, r), r.time)
  {
  }

  lemma {:induction false} SweptRunsStaySame(p: Params, es: seq<Event>, now: real)
    requires p.rate >= 0.0 && InOrder(es) && (es != [] ==> TimeOf(es[|es|-1]) <= now)
    ensures SameButFull(p, RunSwept(p, es), Run(p, map[], Arrivals(es)), now)
  {
    if es != [] {
      var before, e := es[..|es|-1], es[|es|-1];
      var t := TimeOf(e);
      SweptRunsStaySame(p, before, t);
      if e.Arrive? {
        assert Arrivals(es)[..|Arrivals(es)|-1] == Arrivals(before);
        FullLooksAbsent(p, RunSwept(p, before), Run(p, map[], Arrivals(before)), e.r);
      }
      assert SameButFull(p, RunSwept(p, es), Run(p, map[], Arrivals(es)), t);
      SameLater(p, RunSwept(p, es), Run(p, map[], Arrivals(es)), t, now);
    }
  }

  /** No decision, after any number of sweeps at any times, differs from the run without sweeps. */
  lemma {:induction false} SweepingIsInvisible(p: Params, es: seq<Event>, r: Request)
    requires p.rate >= 0.0 && InOrder(es) && (es != [] ==> TimeOf(es[|es|-1]) <= r.time)
    ensures Admits(p, RunSwept(p, es), r) == Admits(p, Run(p, map[], Arrivals(es)), r)
  {
    SweptRunsStaySame(p, es, r.time);
    FullLooksAbsent(p, RunSwept(p, es), Run(p, map[], Arrivals(es)), r);
  }

  // ---------------------------------------------------------------- the limiter itself

  /** A bucket made at `created` and charged a moment later behaves as if made at that moment. */
  lemma NewBucketIsFull(p: Params, created: real, now: real)
    requires p.rate >= 0.0 && created <= now
    ensures Charge(p, Level(p.burst as real, created), now) == Charge(p, Level(p.burst as real, now), now)
  {
    RefillMonotone(p, 0.0, now - created);
  }

  lemma RunAppend(p: Params, past: seq<Request>, r: Request)
    ensures var m := Run(p, map[], past);
            var after := Charge(p, LevelOf(p, m, r), r.time);
            && Run(p, map[], past + [r]) == m[r.key := after]
            && (after.tokens >= 0.0 <==> EveryStretchFits(p, TimesOf(past + [r], r.key)))
  {
    var all := past + [r];
    assert all[..|past|] == past && all[..|past|+1] == all;
    HistoryTest(p, all, |past|);
  }

  class Bucket {
    var tokens: real
    var lastRefill: real

    constructor (tokens: real, lastRefill: real)
      ensures this.tokens == tokens && this.lastRefill == lastRefill
    {
      this.tokens := tokens;
      this.lastRefill := lastRefill;
    }

    ghost function Value(): Level
      reads this
    {
      Level(tokens, lastRefill)
    }

    /** Lines 60-68: refill for the time gone by, cap, pay, decide. */
    method Take(p: Params, now: real) returns (allowed: bool)
      modifies this
      ensures Value() == Charge(p, old(Value()), now)
      ensures allowed <==> tokens >= 0.0
    {
      var elapsed := now - lastRefill;
      tokens := tokens + elapsed * p.rate;
      if tokens > p.burst as real {
        tokens := p.burst as real;
      }
      lastRefill := now;
      tokens := tokens - 1.0;
      allowed := tokens >= 0.0;
    }
  }

  class Limiter {
    var buckets: map<string, Bucket>
    const rate: real
    const burst: int
    ghost var log: seq<Request>  // every request so far, in the order the lock was taken
    ghost var levels: Levels

    ghost function P(): Params { Params(rate, burst) }

    /** Each bucket object holds the level its key has after the whole log. */
    ghost predicate Valid()
      reads this, buckets.Values
    {
      && rate >= 0.0
      && levels == Run(P(), map[], log)
      && buckets.Keys == levels.Keys
      && (forall k | k in buckets :: levels[k] == buckets[k].Value())
      && (forall k, l | k in buckets && l in buckets && k != l :: buckets[k] != buckets[l])
    }

    constructor (requestsPerMinute: nat, burst: int)
      ensures Valid() && log == [] && buckets == map[]
      ensures rate == requestsPerMinute as real / 60.0 && this.burst == burst
    {
      this.rate := requestsPerMinute as real / 60.0;
      this.burst := burst;
      this.buckets := map[];
      this.log := [];
      this.levels := map[];
    }

    /** The critical section.  A new bucket reads the clock once more than an old one, at `created`. */
    method Limit(user: string, remoteAddr: string, created: real, now: real) returns (allowed: bool)
      requires Valid() && created <= now
      modifies this, buckets.Values
      ensures Valid() && fresh(buckets.Values - old(buckets.Values))
      ensures log == old(log) + [Request(if user == "" then remoteAddr else user, now)]
      ensures allowed <==> EveryStretchFits(P(), TimesOf(log, log[|log|-1].key))
    {
      hide Charge, EveryStretchFits, Run, TimesOf;
      var key := user;
      if key == "" {
        key := remoteAddr;
      }
      ghost var r := Request(key, now);
      if key !in buckets {
        NewBucketIsFull(P(), created, now);
        var fullBucket := new Bucket(burst as real, created);
        buckets := buckets[key := fullBucket];
      }
      var userBucket := buckets[key];
      assert Charge(P(), userBucket.Value(), now) == Charge(P(), LevelOf(P(), levels, r), now);
      allowed := userBucket.Take(Params(rate, burst), now);
      RunAppend(P(), log, r);
      log, levels := log + [r], levels[key := userBucket.Value()];
    }
  }
}
