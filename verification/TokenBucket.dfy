/** The Redis token bucket (internal/cache/cache.go) in exact reals. */
module TokenBucket {
  import opened Wrappers

  /** ARGV[1] and ARGV[2]: the burst and the refill rate in tokens per second. */
  datatype Config = Config(capacity: real, rate: real) {
    predicate Valid() { capacity > 0.0 && rate > 0.0 }

    /** The seconds an idle key lives: math.ceil(capacity / rate * 2) + 1. */
    function Ttl(): int
      requires Valid()
    {
      -((-(capacity / rate * 2.0)).Floor) + 1
    }
  }

  datatype Bucket = Bucket(tokens: real, ts: real)

  datatype Verdict = Verdict(allowed: bool, tokens: real, retryAfter: real)

  datatype Call = Call(now: real, requested: real)

  function Max(a: real, b: real): real { if a >= b then a else b }
  function Min(a: real, b: real): real { if a <= b then a else b }

  /** The tokens gained between two clock readings; a clock that goes back gains none. */
  function Refill(from: real, now: real, rate: real): real {
    if now > from then (now - from) * rate else 0.0
  }

  /** The tokens a call finds after the lazy refill; an absent bucket is full. */
  function Level(b: Option<Bucket>, cfg: Config, now: real): real {
    match b
    case None => cfg.capacity
    case Some(s) => Min(cfg.capacity, s.tokens + Refill(s.ts, now, cfg.rate))
  }

  function Left(b: Option<Bucket>, cfg: Config, call: Call): Bucket {
    var level := Level(b, cfg, call.now);
    Bucket(if level >= call.requested then level - call.requested else level, call.now)
  }

  function Decide(b: Option<Bucket>, cfg: Config, call: Call): Verdict
    requires cfg.Valid()
  {
    var allowed := Level(b, cfg, call.now) >= call.requested;
    var tokens := Left(b, cfg, call).tokens;
    Verdict(allowed, tokens, if allowed then 0.0 else (call.requested - tokens) / cfg.rate)
  }

  // ---------------------------------------------------------------- the script and its caller

  datatype Entry = Entry(bucket: Bucket, expiresAt: real)

  /** What HMGET sees: an entry whose expiry has come is gone. */
  function Live(keys: map<string, Entry>, key: string, now: real): Option<Bucket> {
    if key in keys && now < keys[key].expiresAt then Some(keys[key].bucket) else None
  }

  /** The burst defaults to the per-minute budget. */
  function AllowConfig(perMinute: int, burst: int): (cfg: Config)
    requires perMinute > 0
    ensures cfg.Valid() && cfg.rate * 60.0 == perMinute as real
    ensures burst > 0 ==> cfg.capacity == burst as real
    ensures burst <= 0 ==> cfg.capacity == perMinute as real
  {
    Config((if burst <= 0 then perMinute else burst) as real, perMinute as real / 60.0)
  }

  /** time.Duration(secs * 1e9): whole nanoseconds, truncated. */
  function WaitNanos(retryAfter: real): int {
    if retryAfter > 0.0 then (retryAfter * 1000000000.0).Floor else 0
  }

  lemma TtlPositive(cfg: Config)
    requires cfg.Valid()
    ensures cfg.capacity / cfg.rate * 2.0 + 1.0 <= cfg.Ttl() as real < cfg.capacity / cfg.rate * 2.0 + 2.0
    ensures cfg.capacity / cfg.rate * 2.0 > 0.0
  {
    assert cfg.capacity / cfg.rate > 0.0;
  }

  /** The Redis keys of the rate limiter, overwritten by one atomic script run per request. */
  class BucketStore {
    var keys: map<string, Entry>

    constructor ()
      ensures keys == map[]
    {
      keys := map[];
    }

    method RunScript(key: string, cfg: Config, call: Call) returns (v: Verdict)
      requires cfg.Valid()
      modifies this
      ensures v == Decide(Live(old(keys), key, call.now), cfg, call)
      ensures
        var left, gone := Left(Live(old(keys), key, call.now), cfg, call), call.now + cfg.Ttl() as real;
        forall later: real :: Live(keys, key, later) == if later < gone then Some(left) else None
      ensures keys == old(keys)[key :=
        Entry(Left(Live(old(keys), key, call.now), cfg, call), call.now + cfg.Ttl() as real)]
    {
      var tokens, ts;
      var state := Live(keys, key, call.now);
      if state == None {
        tokens, ts := cfg.capacity, call.now;
      } else {
        tokens, ts := state.value.tokens, state.value.ts;
      }
      var delta := Max(0.0, call.now - ts);
      tokens := Min(cfg.capacity, tokens + delta * cfg.rate);
      var allowed := false;
      if tokens >= call.requested {
        tokens := tokens - call.requested;
        allowed := true;
      }
      keys := keys[key := Entry(Bucket(tokens, call.now), call.now + cfg.Ttl() as real)];
      var retryAfter := 0.0;
      if !allowed {
        retryAfter := (call.requested - tokens) / cfg.rate;
      }
      v := Verdict(allowed, tokens, retryAfter);
    }

    /** Cache.Allow: no limit configured admits, an unreachable Redis admits, the script decides the rest. */
    method Allow(clientID: string, perMinute: int, burst: int, now: real, reachable: bool)
      returns (ok: bool, waitNanos: int, failed: bool)
      modifies this
      ensures perMinute <= 0 ==> ok && waitNanos == 0 && !failed && keys == old(keys)
      ensures perMinute > 0 && !reachable ==> ok && waitNanos == 0 && failed && keys == old(keys)
      ensures perMinute > 0 && reachable ==>
        var cfg := AllowConfig(perMinute, burst);
        var before := Live(old(keys), "rl:" + clientID, now);
        && !failed
        && ok == (Level(before, cfg, now) >= 1.0)
        && waitNanos == WaitNanos(Decide(before, cfg, Call(now, 1.0)).retryAfter)
        && Live(keys, "rl:" + clientID, now) == Some(Left(before, cfg, Call(now, 1.0)))
        && forall k :: k in old(keys) && k != "rl:" + clientID ==> k in keys && keys[k] == old(keys)[k]
    {
      if perMinute <= 0 {
        return true, 0, false;
      }
      if !reachable {
        return true, 0, true;
      }
      TtlPositive(AllowConfig(perMinute, burst));
      var v := RunScript("rl:" + clientID, AllowConfig(perMinute, burst), Call(now, 1.0));
      return v.allowed, WaitNanos(v.retryAfter), false;
    }
  }

  /** int(RetryAfter.Seconds()) + 1, the Retry-After header. */
  function RetryAfterHeader(waitNanos: int): int { waitNanos / 1000000000 + 1 }

  // ---------------------------------------------------------------- arithmetic

  lemma MulNonNegative(a: real, b: real)
    requires a >= 0.0 && b >= 0.0
    ensures a * b >= 0.0
  {
  }

  lemma MulPositive(a: real, b: real)
    requires a > 0.0 && b > 0.0
    ensures a * b > 0.0
  {
  }

  lemma MulCancel(d: real, b: real)
    requires b > 0.0 && d * b == 0.0
    ensures d == 0.0
  {
    if d > 0.0 {
      MulPositive(d, b);
    } else if d < 0.0 {
      MulPositive(-d, b);
    }
  }

  lemma Distribute(a: real, b: real, rate: real)
    ensures (a + b) * rate == a * rate + b * rate
  {
  }

  lemma DivTimes(a: real, b: real)
    requires b > 0.0
    ensures (a / b) * b == a
  {
  }

  lemma DivOrder(x: real, a: real, rate: real)
    requires rate > 0.0
    ensures x * rate >= a <==> x >= a / rate
  {
    DivTimes(a, rate);
    var gap := x - a / rate;
    assert x * rate == gap * rate + a;
    if gap >= 0.0 {
      MulNonNegative(gap, rate);
    } else {
      MulPositive(-gap, rate);
    }
  }

  // ---------------------------------------------------------------- rate bound

  predicate InRange(b: Bucket, cfg: Config) { 0.0 <= b.tokens <= cfg.capacity }

  /** Tokens granted over a run of calls. */
  function Granted(b: Option<Bucket>, cfg: Config, calls: seq<Call>): real
    decreases |calls|
  {
    if calls == [] then 0.0 else
    (if Level(b, cfg, calls[0].now) >= calls[0].requested then calls[0].requested else 0.0) +
    Granted(Some(Left(b, cfg, calls[0])), cfg, calls[1..])
  }

  function After(b: Bucket, cfg: Config, calls: seq<Call>): Bucket
    decreases |calls|
  {
    if calls == [] then b else After(Left(Some(b), cfg, calls[0]), cfg, calls[1..])
  }

  /** The sum of the forward steps of the clock from `from` through the calls. */
  function Forward(from: real, calls: seq<Call>): (f: real)
    ensures f >= 0.0
    decreases |calls|
  {
    if calls == [] then 0.0 else Max(0.0, calls[0].now - from) + Forward(calls[0].now, calls[1..])
  }

  lemma RefillNonNegative(from: real, now: real, rate: real)
    requires rate > 0.0
    ensures Refill(from, now, rate) >= 0.0
  {
    if now > from {
      MulNonNegative(now - from, rate);
    }
  }

  lemma TokensInRange(b: Option<Bucket>, cfg: Config, call: Call)
    requires cfg.Valid() && call.requested >= 0.0 && (b.Some? ==> InRange(b.value, cfg))
    ensures InRange(Left(b, cfg, call), cfg)
    ensures 0.0 <= Level(b, cfg, call.now) <= cfg.capacity
  {
    if b.Some? {
      RefillNonNegative(b.value.ts, call.now, cfg.rate);
    }
  }

  predicate NonNegativeRequests(calls: seq<Call>) {
    forall i :: 0 <= i < |calls| ==> calls[i].requested >= 0.0
  }

  /** The refill of each forward step, summed. */
  function Refilled(from: real, calls: seq<Call>, rate: real): real
    decreases |calls|
  {
    if calls == [] then 0.0 else Refill(from, calls[0].now, rate) + Refilled(calls[0].now, calls[1..], rate)
  }

  lemma {:induction false} RefilledIsForward(from: real, calls: seq<Call>, rate: real)
    ensures Refilled(from, calls, rate) == Forward(from, calls) * rate
    decreases |calls|
  {
    if calls != [] {
      RefilledIsForward(calls[0].now, calls[1..], rate);
      Distribute(Max(0.0, calls[0].now - from), Forward(calls[0].now, calls[1..]), rate);
    }
  }

  lemma {:induction false} AfterInRange(b: Bucket, cfg: Config, calls: seq<Call>)
    requires cfg.Valid() && InRange(b, cfg) && NonNegativeRequests(calls)
    ensures InRange(After(b, cfg, calls), cfg)
    decreases |calls|
  {
    if calls != [] {
      TokensInRange(Some(b), cfg, calls[0]);
      AfterInRange(Left(Some(b), cfg, calls[0]), cfg, calls[1..]);
    }
  }

  lemma LevelIsPaid(b: Bucket, cfg: Config, now: real)
    ensures Level(Some(b), cfg, now) <= b.tokens + Refill(b.ts, now, cfg.rate)
  {
  }

  /** The first call moves its grant out of the tokens it finds. */
  lemma GrantStep(b: Option<Bucket>, cfg: Config, calls: seq<Call>)
    requires calls != []
    ensures var next := Left(b, cfg, calls[0]);
      Granted(b, cfg, calls) + next.tokens == Level(b, cfg, calls[0].now) + Granted(Some(next), cfg, calls[1..])
  {
  }

  lemma Settle(granted: real, next: real, level: real,
    laterGrants: real, last: real, tokens: real, step: real, rest: real)
    requires granted + next == level + laterGrants
    requires laterGrants + last <= next + rest
    requires level <= tokens + step
    ensures granted + last <= tokens + (step + rest)
  {
  }

  /** Grants and the tokens left are paid for by the tokens at hand and the refills. */
  lemma {:induction false} GrantsArePaid(b: Bucket, cfg: Config, calls: seq<Call>)
    ensures Granted(Some(b), cfg, calls) + After(b, cfg, calls).tokens <= b.tokens + Refilled(b.ts, calls, cfg.rate)
    decreases |calls|
  {
    if calls != [] {
      var next := Left(Some(b), cfg, calls[0]);
      GrantsArePaid(next, cfg, calls[1..]);
      GrantStep(Some(b), cfg, calls);
      LevelIsPaid(b, cfg, calls[0].now);
      Settle(Granted(Some(b), cfg, calls), next.tokens, Level(Some(b), cfg, calls[0].now),
             Granted(Some(next), cfg, calls[1..]), After(b, cfg, calls).tokens, b.tokens,
             Refill(b.ts, calls[0].now, cfg.rate), Refilled(calls[0].now, calls[1..], cfg.rate));
    }
  }

  lemma GrantsWithinRefill(b: Option<Bucket>, cfg: Config, calls: seq<Call>)
    requires cfg.Valid() && (b.Some? ==> InRange(b.value, cfg)) && NonNegativeRequests(calls) && calls != []
    ensures Granted(b, cfg, calls) <= cfg.capacity + Refilled(calls[0].now, calls[1..], cfg.rate)
    ensures InRange(After(Left(b, cfg, calls[0]), cfg, calls[1..]), cfg)
  {
    var next := Left(b, cfg, calls[0]);
    TokensInRange(b, cfg, calls[0]);
    AfterInRange(next, cfg, calls[1..]);
    GrantsArePaid(next, cfg, calls[1..]);
    GrantStep(b, cfg, calls);
    Settle(Granted(b, cfg, calls), next.tokens, Level(b, cfg, calls[0].now), Granted(Some(next), cfg, calls[1..]),
           After(next, cfg, calls[1..]).tokens, cfg.capacity, 0.0, Refilled(calls[0].now, calls[1..], cfg.rate));
  }

  predicate Monotone(from: real, calls: seq<Call>)
    decreases |calls|
  {
    calls == [] || (from <= calls[0].now && Monotone(calls[0].now, calls[1..]))
  }

  lemma {:induction false} RefilledIsElapsed(from: real, calls: seq<Call>, rate: real)
    requires Monotone(from, calls)
    ensures Refilled(from, calls, rate) == (if calls == [] then 0.0 else calls[|calls| - 1].now - from) * rate
    decreases |calls|
  {
    if calls != [] {
      var rest := calls[1..];
      RefilledIsElapsed(calls[0].now, rest, rate);
      if rest != [] {
        Distribute(calls[0].now - from, calls[|calls| - 1].now - calls[0].now, rate);
      }
    }
  }

  /** What the rate earns in that time. */
  function Earned(cfg: Config, time: real): real { time * cfg.rate }

  lemma RefilledIsEarned(cfg: Config, from: real, calls: seq<Call>)
    ensures Refilled(from, calls, cfg.rate) == Earned(cfg, Forward(from, calls))
  {
    RefilledIsForward(from, calls, cfg.rate);
  }

  lemma Rewrite(granted: real, capacity: real, refilled: real, earned: real)
    requires granted <= capacity + refilled && refilled == earned
    ensures granted <= capacity + earned
  {
  }

  /** Any consecutive calls, on any clock, are granted at most the capacity plus rate times the forward clock steps. */
  lemma RateBound(b: Option<Bucket>, cfg: Config, calls: seq<Call>)
    requires cfg.Valid() && (b.Some? ==> InRange(b.value, cfg)) && NonNegativeRequests(calls) && calls != []
    ensures Granted(b, cfg, calls) <= cfg.capacity + Earned(cfg, Forward(calls[0].now, calls[1..]))
  {
    GrantsWithinRefill(b, cfg, calls);
    RefilledIsEarned(cfg, calls[0].now, calls[1..]);
    Rewrite(Granted(b, cfg, calls), cfg.capacity, Refilled(calls[0].now, calls[1..], cfg.rate),
            Earned(cfg, Forward(calls[0].now, calls[1..])));
  }

  lemma ElapsedIsEarned(cfg: Config, calls: seq<Call>)
    requires calls != [] && Monotone(calls[0].now, calls[1..])
    ensures Refilled(calls[0].now, calls[1..], cfg.rate) == Earned(cfg, calls[|calls| - 1].now - calls[0].now)
  {
    RefilledIsElapsed(calls[0].now, calls[1..], cfg.rate);
  }

  /** On a clock that never goes back: the capacity plus rate times the elapsed time. */
  lemma MonotoneRateBound(b: Option<Bucket>, cfg: Config, calls: seq<Call>)
    requires cfg.Valid() && (b.Some? ==> InRange(b.value, cfg)) && NonNegativeRequests(calls)
    requires calls != [] && Monotone(calls[0].now, calls[1..])
    ensures Granted(b, cfg, calls) <= cfg.capacity + Earned(cfg, calls[|calls| - 1].now - calls[0].now)
  {
    GrantsWithinRefill(b, cfg, calls);
    ElapsedIsEarned(cfg, calls);
    Rewrite(Granted(b, cfg, calls), cfg.capacity, Refilled(calls[0].now, calls[1..], cfg.rate),
            Earned(cfg, calls[|calls| - 1].now - calls[0].now));
  }

  function Budget(perMinute: int, minutes: real): real { perMinute as real * minutes }

  lemma EarnedInMinutes(cfg: Config, perMinute: int, minutes: real, time: real)
    requires cfg.rate * 60.0 == perMinute as real && time == minutes * 60.0
    ensures Earned(cfg, time) == Budget(perMinute, minutes)
  {
    assert minutes * 60.0 * cfg.rate == minutes * (cfg.rate * 60.0);
  }

  /** What the limits mean: over so many minutes at most the burst and the per-minute budget for each minute. */
  lemma MinutesBound(b: Option<Bucket>, perMinute: int, burst: int, calls: seq<Call>, minutes: real)
    requires perMinute > 0 && (b.Some? ==> InRange(b.value, AllowConfig(perMinute, burst)))
    requires NonNegativeRequests(calls) && calls != [] && Monotone(calls[0].now, calls[1..])
    requires calls[|calls| - 1].now - calls[0].now == minutes * 60.0
    ensures Granted(b, AllowConfig(perMinute, burst), calls)
              <= (if burst > 0 then burst else perMinute) as real + Budget(perMinute, minutes)
  {
    var cfg := AllowConfig(perMinute, burst);
    var time := calls[|calls| - 1].now - calls[0].now;
    MonotoneRateBound(b, cfg, calls);
    EarnedInMinutes(cfg, perMinute, minutes, time);
    Rewrite(Granted(b, cfg, calls), cfg.capacity, Earned(cfg, time), Budget(perMinute, minutes));
  }

  // ---------------------------------------------------------------- expiry

  function Verdicts(b: Option<Bucket>, cfg: Config, calls: seq<Call>): seq<Verdict>
    requires cfg.Valid()
    decreases |calls|
  {
    if calls == [] then [] else
    [Decide(b, cfg, calls[0])] + Verdicts(Some(Left(b, cfg, calls[0])), cfg, calls[1..])
  }

  /** The same run when the key is dropped at its expiry. */
  function ExpiringVerdicts(b: Option<Bucket>, cfg: Config, calls: seq<Call>): seq<Verdict>
    requires cfg.Valid()
    decreases |calls|
  {
    if calls == [] then [] else
    var seen := if b.Some? && calls[0].now >= b.value.ts + cfg.Ttl() as real then None else b;
    [Decide(seen, cfg, calls[0])] + ExpiringVerdicts(Some(Left(seen, cfg, calls[0])), cfg, calls[1..])
  }

  /** Forgetting a bucket goes unnoticed, whatever it held, exactly when the idle time refills it whole. */
  lemma DropUnobservable(cfg: Config, ts: real, now: real)
    requires cfg.Valid() && ts <= now
    ensures (forall tokens :: 0.0 <= tokens <= cfg.capacity ==>
        Level(Some(Bucket(tokens, ts)), cfg, now) == Level(None, cfg, now)) <==>
      (now - ts) * cfg.rate >= cfg.capacity
  {
    assert Level(Some(Bucket(0.0, ts)), cfg, now) == Min(cfg.capacity, (now - ts) * cfg.rate);
  }

  lemma ExpiredIsFull(b: Bucket, cfg: Config, now: real)
    requires cfg.Valid() && InRange(b, cfg) && now >= b.ts + cfg.Ttl() as real
    ensures Level(Some(b), cfg, now) == Level(None, cfg, now)
  {
    TtlPositive(cfg);
    DivOrder(now - b.ts, cfg.capacity, cfg.rate);
    DropUnobservable(cfg, b.ts, now);
  }

  /** The expiry changes no verdict, no token count and no retry time, over any calls on one monotone clock. */
  lemma {:induction false} ExpiryUnobservable(b: Option<Bucket>, cfg: Config, calls: seq<Call>)
    requires cfg.Valid() && (b.Some? ==> InRange(b.value, cfg) && Monotone(b.value.ts, calls))
    requires NonNegativeRequests(calls) && (calls != [] ==> Monotone(calls[0].now, calls))
    ensures ExpiringVerdicts(b, cfg, calls) == Verdicts(b, cfg, calls)
    decreases |calls|
  {
    if calls != [] {
      var seen := if b.Some? && calls[0].now >= b.value.ts + cfg.Ttl() as real then None else b;
      if seen != b {
        ExpiredIsFull(b.value, cfg, calls[0].now);
      }
      TokensInRange(b, cfg, calls[0]);
      ExpiryUnobservable(Some(Left(b, cfg, calls[0])), cfg, calls[1..]);
    }
  }

  // ---------------------------------------------------------------- retry after

  function Deadline(b: Bucket, cfg: Config, requested: real): real
    requires cfg.Valid()
  {
    b.ts + (requested - b.tokens) / cfg.rate
  }

  /** After a denial, a later call is admitted exactly from now + retry_after on. */
  lemma RetryAfterExact(b: Bucket, cfg: Config, requested: real, later: real)
    requires cfg.Valid() && InRange(b, cfg) && b.tokens < requested <= cfg.capacity && b.ts <= later
    ensures Level(Some(b), cfg, later) >= requested <==> later >= Deadline(b, cfg, requested)
  {
    DivOrder(later - b.ts, requested - b.tokens, cfg.rate);
  }

  lemma DivUnique(a: real, b: real, x: real)
    requires b > 0.0 && x * b == a
    ensures a / b == x
  {
    var q := a / b;
    DivTimes(a, b);
    Distribute(x - q, q, b);
    MulCancel(x - q, b);
  }

  /** A denied poll leaves the deadline where it was: lazy refills compose. */
  lemma DeniedPollKeepsDeadline(b: Bucket, cfg: Config, requested: real, now: real)
    requires cfg.Valid() && InRange(b, cfg) && b.tokens < requested <= cfg.capacity
    requires b.ts <= now < Deadline(b, cfg, requested)
    ensures var next := Left(Some(b), cfg, Call(now, requested));
      && Level(Some(b), cfg, now) < requested && InRange(next, cfg) && next.tokens < requested
      && Deadline(next, cfg, requested) == Deadline(b, cfg, requested)
      && now + Decide(Some(b), cfg, Call(now, requested)).retryAfter == Deadline(b, cfg, requested)
  {
    RetryAfterExact(b, cfg, requested, now);
    TokensInRange(Some(b), cfg, Call(now, requested));
    var gained := (now - b.ts) * cfg.rate;
    assert (requested - (b.tokens + gained)) / cfg.rate == (requested - b.tokens) / cfg.rate - (now - b.ts) by {
      DivTimes(requested - b.tokens, cfg.rate);
      var x := (requested - b.tokens) / cfg.rate - (now - b.ts);
      assert x * cfg.rate == (requested - b.tokens) - gained;
      DivUnique(requested - (b.tokens + gained), cfg.rate, x);
    }
  }

  predicate Polls(calls: seq<Call>, requested: real, deadline: real) {
    forall i :: 0 <= i < |calls| ==> calls[i].requested == requested && calls[i].now < deadline
  }

  /** However many polls are denied in between, each reports the same deadline, and it stays exact. */
  lemma {:induction false} PollingKeepsDeadline(b: Bucket, cfg: Config, requested: real, calls: seq<Call>)
    requires cfg.Valid() && InRange(b, cfg) && b.tokens < requested <= cfg.capacity
    requires Monotone(b.ts, calls) && Polls(calls, requested, Deadline(b, cfg, requested))
    ensures forall i :: 0 <= i < |calls| ==>
      var v := Verdicts(Some(b), cfg, calls);
      |v| == |calls| && !v[i].allowed && calls[i].now + v[i].retryAfter == Deadline(b, cfg, requested)
    ensures var last := After(b, cfg, calls);
      && last.ts == (if calls == [] then b.ts else calls[|calls| - 1].now)
      && forall later :: later >= last.ts ==>
        (Level(Some(last), cfg, later) >= requested <==> later >= Deadline(b, cfg, requested))
    decreases |calls|
  {
    if calls == [] {
      forall later | later >= b.ts
        ensures Level(Some(b), cfg, later) >= requested <==> later >= Deadline(b, cfg, requested)
      {
        RetryAfterExact(b, cfg, requested, later);
      }
    } else {
      DeniedPollKeepsDeadline(b, cfg, requested, calls[0].now);
      PollingKeepsDeadline(Left(Some(b), cfg, calls[0]), cfg, requested, calls[1..]);
    }
  }

  /** The header waits longer than retry_after, by at most a second, so a client that obeys it is admitted. */
  lemma HeaderIsLongEnough(b: Bucket, cfg: Config, requested: real)
    requires cfg.Valid() && InRange(b, cfg) && b.tokens < requested <= cfg.capacity
    ensures var retryAfter := (requested - b.tokens) / cfg.rate;
      var header := RetryAfterHeader(WaitNanos(retryAfter)) as real;
      retryAfter < header <= retryAfter + 1.0 && Level(Some(b), cfg, b.ts + header) >= requested
  {
    var retryAfter := (requested - b.tokens) / cfg.rate;
    assert retryAfter > 0.0;
    var nanos := WaitNanos(retryAfter);
    var header := RetryAfterHeader(nanos);
    assert nanos as real <= retryAfter * 1000000000.0 < nanos as real + 1.0;
    assert (header - 1) * 1000000000 <= nanos <= header * 1000000000 - 1;
    RetryAfterExact(b, cfg, requested, b.ts + header as real);
  }
}
