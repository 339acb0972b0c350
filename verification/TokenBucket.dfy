/**
 The token bucket script that limits requests: refill, spend, and let idle keys expire.
 Tokens are exact reals, times are whole milliseconds as the callers give them, in any order.
 */
module TokenBucket {
  import opened Wrappers

  /** The smallest integer that is not below x. */
  function Ceil(x: real): (n: int)
    ensures n as real - 1.0 < x <= n as real
  {
    -((-x).Floor)
  }

  lemma CeilIsLeast(x: real, d: int)
    ensures d >= Ceil(x) <==> d as real >= x
  {
  }

  /** How a key is limited. */
  datatype Policy = Policy(rate: real, capacity: real) {
    predicate Valid() { rate > 0.0 && capacity > 0.0 }
  }

  datatype Bucket = Bucket(tokens: real, ts: int)

  datatype Answer = Answer(allowed: bool, tokens: real, retryAfterMs: int)

  function Max0(x: int): int { if x < 0 then 0 else x }

  function Min(a: real, b: real): real { if a < b then a else b }

  /** The tokens that flow in during the given milliseconds. */
  function Inflow(ms: int, rate: real): real { ms as real / 1000.0 * rate }

  /** The whole milliseconds in which the needed tokens flow in. */
  function WaitFor(need: real, rate: real): int
    requires rate > 0.0
  {
    Ceil(need / rate * 1000.0)
  }

  /** What the key holds at a time, before the call is paid for; an absent key is full. */
  function Refilled(b: Option<Bucket>, p: Policy, now: int): real {
    match b
    case None => p.capacity
    case Some(k) => Min(p.capacity, k.tokens + Inflow(Max0(now - k.ts), p.rate))
  }

  predicate Charges(p: Policy, cost: real) { p.Valid() && cost > 0.0 }

  function NextBucket(b: Option<Bucket>, p: Policy, cost: real, now: int): Option<Bucket> {
    if !Charges(p, cost) then b
    else
      var t := Refilled(b, p, now);
      Some(Bucket(if t >= cost then t - cost else t, now))
  }

  function AnswerOf(b: Option<Bucket>, p: Policy, cost: real, now: int): Answer {
    if !Charges(p, cost) then Answer(false, 0.0, 0)
    else
      var t := Refilled(b, p, now);
      if t >= cost then Answer(true, t - cost, 0)
      else Answer(false, t, WaitFor(cost - t, p.rate))
  }

  function Ttl(p: Policy): int
    requires p.Valid()
  {
    var ms := Ceil(p.capacity / p.rate * 2000.0);
    if ms < 1000 then 1000 else ms
  }

  datatype Stored = Stored(bucket: Bucket, expiresAt: int)

  /** What the store still shows of a key. */
  function Live(e: Option<Stored>, now: int): Option<Bucket> {
    match e
    case Some(s) => if now < s.expiresAt then Some(s.bucket) else None
    case None => None
  }

  function NextStored(e: Option<Stored>, p: Policy, cost: real, now: int): Option<Stored> {
    if !Charges(p, cost) then e
    else match NextBucket(Live(e, now), p, cost, now)
      case Some(k) => Some(Stored(k, now + Ttl(p)))
      case None => None
  }

  lemma NoTimeNoInflow(rate: real)
    ensures Inflow(0, rate) == 0.0
  {
  }

  /** The store of the limiter: the script reads and writes one key, and idle keys disappear. */
  class BucketStore {
    var keys: map<string, Stored>

    constructor ()
      ensures keys == map[]
    {
      keys := map[];
    }

    function Entry(key: string): Option<Stored>
      reads this
    {
      if key in keys then Some(keys[key]) else None
    }

    method RunScript(key: string, p: Policy, cost: real, now: int) returns (a: Answer)
      modifies this
      ensures a == AnswerOf(Live(old(Entry(key)), now), p, cost, now)
      ensures Entry(key) == NextStored(old(Entry(key)), p, cost, now)
      ensures forall k :: k != key ==> Entry(k) == old(Entry(k))
    {
      if p.rate <= 0.0 || p.capacity <= 0.0 || cost <= 0.0 {
        return Answer(false, 0.0, 0);
      }
      ghost var live := Live(Entry(key), now);
      var tokens, ts := p.capacity, now;
      if key in keys && now < keys[key].expiresAt {
        tokens, ts := keys[key].bucket.tokens, keys[key].bucket.ts;
      }
      var delta := now - ts;
      if delta < 0 {
        delta := 0;
      }
      tokens := Min(p.capacity, tokens + Inflow(delta, p.rate));
      ts := now;
      assert tokens == Refilled(live, p, now) by {
        NoTimeNoInflow(p.rate);
      }
      var allowed, retryAfterMs := false, 0;
      if tokens >= cost {
        allowed := true;
        tokens := tokens - cost;
      } else {
        retryAfterMs := WaitFor(cost - tokens, p.rate);
      }
      var ttl := Ttl(p);
      keys := keys[key := Stored(Bucket(tokens, ts), now + ttl)];
      a := Answer(allowed, tokens, retryAfterMs);
    }
  }

  // ---- the script in figures ----

  lemma InflowInFigures(ms: int, rate: real)
    ensures Inflow(ms, rate) == rate * (ms as real) / 1000.0
    ensures Inflow(1000, rate) == rate
  {
  }

  /** What a stored bucket holds after d milliseconds; at an earlier time nothing has flowed in. */
  lemma RefillInFigures(k: Bucket, p: Policy, d: int)
    requires p.Valid() && 0.0 <= k.tokens <= p.capacity
    ensures var t := k.tokens + p.rate * (d as real) / 1000.0;
            Refilled(Some(k), p, k.ts + d) == if d <= 0 then k.tokens else if t < p.capacity then t else p.capacity
    ensures Refilled(None, p, d) == p.capacity
  {
    InflowInFigures(Max0(d), p.rate);
  }

  /** A call is allowed exactly if its cost is there; the tokens reported are those stored, and the time stored is the call's. */
  lemma AnswerInFigures(b: Option<Bucket>, p: Policy, cost: real, now: int)
    requires p.Valid() && cost > 0.0
    ensures var a, t := AnswerOf(b, p, cost, now), Refilled(b, p, now);
            && (a.allowed <==> t >= cost)
            && NextBucket(b, p, cost, now) == Some(Bucket(a.tokens, now))
            && a.tokens == (if t >= cost then t - cost else t)
            && (a.allowed ==> a.retryAfterMs == 0)
  {
  }

  /** The wait is the least whole number of milliseconds in which the missing tokens flow in. */
  lemma WaitInFigures(b: Option<Bucket>, p: Policy, cost: real, now: int, d: int)
    requires p.Valid() && cost > 0.0 && !AnswerOf(b, p, cost, now).allowed
    ensures d >= AnswerOf(b, p, cost, now).retryAfterMs
            <==> Refilled(b, p, now) + p.rate * (d as real) / 1000.0 >= cost
  {
    var need := cost - Refilled(b, p, now);
    CeilIsLeast(need / p.rate * 1000.0, d);
    RateTimes(d, need, p.rate);
    InflowInFigures(d, p.rate);
  }

  /** Without a rate, a capacity or a cost the answer is no, and nothing is stored. */
  lemma SenselessCallsAreRefused(e: Option<Stored>, p: Policy, cost: real, now: int)
    requires p.rate <= 0.0 || p.capacity <= 0.0 || cost <= 0.0
    ensures AnswerOf(Live(e, now), p, cost, now) == Answer(false, 0.0, 0) && NextStored(e, p, cost, now) == e
  {
  }

  /** A key is kept for the least whole time that is a second and twice the time to fill up. */
  lemma TtlInFigures(p: Policy, d: int)
    requires p.Valid()
    ensures d >= Ttl(p) <==> d >= 1000 && d as real >= p.capacity / p.rate * 2000.0
  {
    CeilIsLeast(p.capacity / p.rate * 2000.0, d);
  }

  // ---- runs of calls on one key ----

  datatype Request = Request(cost: real, now: int)

  predicate InOrder(calls: seq<Request>) {
    forall i, j :: 0 <= i < j < |calls| ==> calls[i].now <= calls[j].now
  }

  function BucketAfter(b: Option<Bucket>, p: Policy, calls: seq<Request>): Option<Bucket> {
    if calls == [] then b
    else
      var c := calls[|calls| - 1];
      NextBucket(BucketAfter(b, p, calls[..|calls| - 1]), p, c.cost, c.now)
  }

  /** The total cost of the calls that were allowed. */
  function Spent(b: Option<Bucket>, p: Policy, calls: seq<Request>): real {
    if calls == [] then 0.0
    else
      var init, c := calls[..|calls| - 1], calls[|calls| - 1];
      Spent(b, p, init) + if AnswerOf(BucketAfter(b, p, init), p, c.cost, c.now).allowed then c.cost else 0.0
  }

  /** A stored bucket lies between empty and full. */
  predicate BucketInv(b: Option<Bucket>, p: Policy) { b.Some? ==> 0.0 <= b.value.tokens <= p.capacity }

  lemma NonNegative(d: int, rate: real)
    requires d >= 0 && rate > 0.0
    ensures Inflow(d, rate) >= 0.0
  {
  }

  lemma NextKeepsInv(b: Option<Bucket>, p: Policy, cost: real, now: int)
    requires p.Valid() && BucketInv(b, p)
    ensures BucketInv(NextBucket(b, p, cost, now), p)
    ensures 0.0 <= Refilled(b, p, now) <= p.capacity
  {
    if b.Some? {
      NonNegative(Max0(now - b.value.ts), p.rate);
    }
  }

  /** Tokens stay between 0 and the capacity over every run, whatever the callers' clocks say. */
  lemma {:induction false} TokensStayInBounds(b: Option<Bucket>, p: Policy, calls: seq<Request>)
    requires p.Valid() && BucketInv(b, p)
    ensures BucketInv(BucketAfter(b, p, calls), p)
    decreases |calls|
  {
    if calls != [] {
      var init, c := calls[..|calls| - 1], calls[|calls| - 1];
      TokensStayInBounds(b, p, init);
      NextKeepsInv(BucketAfter(b, p, init), p, c.cost, c.now);
    }
  }

  lemma Linear(a: int, b: int, rate: real)
    ensures Inflow(a + b, rate) == Inflow(a, rate) + Inflow(b, rate)
  {
    assert (a + b) as real == a as real + b as real;
  }

  lemma MoreTimeMoreInflow(a: int, b: int, rate: real)
    requires a <= b && rate > 0.0
    ensures Inflow(a, rate) <= Inflow(b, rate)
  {
    Linear(a, b - a, rate);
    NonNegative(b - a, rate);
  }

  /** From one time to another, later or earlier, a bucket gains at most what the rate allows for a step forward. */
  lemma RefillGrowsAtRate(b: Option<Bucket>, p: Policy, now: int, next: int)
    requires p.Valid() && BucketInv(b, p)
    ensures Refilled(b, p, next) <= Refilled(b, p, now) + Inflow(Max0(next - now), p.rate)
  {
    var step := Max0(next - now);
    NonNegative(step, p.rate);
    if b.Some? {
      var before := Max0(now - b.value.ts);
      Linear(before, step, p.rate);
      MoreTimeMoreInflow(Max0(next - b.value.ts), before + step, p.rate);
    }
  }

  lemma PayingReduces(b: Option<Bucket>, p: Policy, cost: real, now: int)
    requires p.Valid() && BucketInv(b, p)
    ensures Refilled(NextBucket(b, p, cost, now), p, now)
            + (if AnswerOf(b, p, cost, now).allowed then cost else 0.0) == Refilled(b, p, now)
  {
    NextKeepsInv(b, p, cost, now);
    if Charges(p, cost) {
      NoTimeNoInflow(p.rate);
    }
  }

  function LastTime(calls: seq<Request>): int
    requires calls != []
  {
    calls[|calls| - 1].now
  }

  /** The time that passes over a run, counting only the steps forward. */
  function Forward(calls: seq<Request>): int
    ensures Forward(calls) >= 0
  {
    if |calls| <= 1 then 0
    else Forward(calls[..|calls| - 1]) + Max0(LastTime(calls) - LastTime(calls[..|calls| - 1]))
  }

  /** One more call, paid for out of what was left and what flowed in since. */
  lemma OneMoreCall(b: Option<Bucket>, p: Policy, last: int, c: Request, spent: real, passed: int)
    requires p.Valid() && BucketInv(b, p)
    requires spent + Refilled(b, p, last) <= p.capacity + Inflow(passed, p.rate)
    ensures spent + (if AnswerOf(b, p, c.cost, c.now).allowed then c.cost else 0.0)
            + Refilled(NextBucket(b, p, c.cost, c.now), p, c.now)
            <= p.capacity + Inflow(passed + Max0(c.now - last), p.rate)
  {
    PayingReduces(b, p, c.cost, c.now);
    RefillGrowsAtRate(b, p, last, c.now);
    Linear(passed, Max0(c.now - last), p.rate);
  }

  /**
   The admission bound: from any state in bounds, whatever the times, the allowed cost and what is
   left are at most the capacity plus the inflow over the steps forward.
   */
  lemma {:induction false} AdmissionBound(b: Option<Bucket>, p: Policy, calls: seq<Request>)
    requires p.Valid() && calls != [] && BucketInv(b, p)
    ensures Spent(b, p, calls) + Refilled(BucketAfter(b, p, calls), p, LastTime(calls))
            <= p.capacity + Inflow(Forward(calls), p.rate)
    decreases |calls|
  {
    var init, c := calls[..|calls| - 1], calls[|calls| - 1];
    if init == [] {
      PayingReduces(b, p, c.cost, c.now);
      NextKeepsInv(b, p, c.cost, c.now);
      NoTimeNoInflow(p.rate);
    } else {
      AdmissionBound(b, p, init);
      TokensStayInBounds(b, p, init);
      OneMoreCall(BucketAfter(b, p, init), p, LastTime(init), c, Spent(b, p, init), Forward(init));
    }
  }

  lemma {:induction false} RunsConcatenate(b: Option<Bucket>, p: Policy, x: seq<Request>, y: seq<Request>)
    ensures BucketAfter(b, p, x + y) == BucketAfter(BucketAfter(b, p, x), p, y)
    ensures Spent(b, p, x + y) == Spent(b, p, x) + Spent(BucketAfter(b, p, x), p, y)
    decreases |y|
  {
    if y == [] {
      assert x + y == x;
    } else {
      assert (x + y)[..|x + y| - 1] == x + y[..|y| - 1];
      RunsConcatenate(b, p, x, y[..|y| - 1]);
    }
  }

  /** In any window of any run from an unused key, no more is allowed than capacity plus inflow over the steps forward. */
  lemma EveryWindowIsBounded(p: Policy, before: seq<Request>, window: seq<Request>)
    requires p.Valid() && window != []
    ensures Spent(None, p, before + window) - Spent(None, p, before) <= p.capacity + Inflow(Forward(window), p.rate)
  {
    RunsConcatenate(None, p, before, window);
    TokensStayInBounds(None, p, before);
    var b := BucketAfter(None, p, before);
    AdmissionBound(b, p, window);
    TokensStayInBounds(b, p, window);
    NextKeepsInv(BucketAfter(b, p, window), p, 1.0, LastTime(window));
  }

  /** Calls in order take as long as lies between the first and the last of them. */
  lemma {:induction false} ForwardInOrder(calls: seq<Request>)
    requires calls != [] && InOrder(calls)
    ensures Forward(calls) == LastTime(calls) - calls[0].now
    decreases |calls|
  {
    if |calls| > 1 {
      ForwardInOrder(calls[..|calls| - 1]);
      assert calls[|calls| - 2].now <= calls[|calls| - 1].now;
    }
  }

  // ---- the retry hint ----

  lemma RateTimes(d: int, need: real, rate: real)
    requires rate > 0.0
    ensures Inflow(d, rate) >= need <==> d as real >= need / rate * 1000.0
  {
    assert need / rate * rate == need;
    var x, y := d as real / 1000.0, need / rate;
    MulLess(x, y, rate);
  }

  lemma MulLess(x: real, y: real, rate: real)
    requires rate > 0.0
    ensures x * rate >= y * rate <==> x >= y
  {
    if x >= y {
      assert (x - y) * rate >= 0.0;
    } else {
      assert (y - x) * rate > 0.0;
    }
  }

  /** The hint is exact: an undisturbed retry is allowed from the returned wait on, and not a millisecond earlier. */
  lemma RetryHintIsExact(b: Option<Bucket>, p: Policy, cost: real, now: int, d: int)
    requires Charges(p, cost) && BucketInv(b, p) && d >= 0
    requires !AnswerOf(b, p, cost, now).allowed
    ensures var b' := NextBucket(b, p, cost, now);
            AnswerOf(b', p, cost, now + d).allowed
            <==> cost <= p.capacity && d >= AnswerOf(b, p, cost, now).retryAfterMs
  {
    NextKeepsInv(b, p, cost, now);
    var t := Refilled(b, p, now);
    RateTimes(d, cost - t, p.rate);
    CeilIsLeast((cost - t) / p.rate * 1000.0, d);
  }

  // ---- expiry ----

  function StoredAfter(e: Option<Stored>, p: Policy, calls: seq<Request>): Option<Stored> {
    if calls == [] then e
    else
      var c := calls[|calls| - 1];
      NextStored(StoredAfter(e, p, calls[..|calls| - 1]), p, c.cost, c.now)
  }

  /** The stored key is the never-expiring one, kept for the time to live after its last use. */
  predicate Mirrors(e: Option<Stored>, b: Option<Bucket>, p: Policy)
    requires p.Valid()
  {
    match b
    case None => e.None?
    case Some(k) => e == Some(Stored(k, k.ts + Ttl(p)))
  }

  /** After its time to live a bucket is full again, like a key that was never used. */
  lemma ExpiredIsFull(k: Bucket, p: Policy, now: int)
    requires p.Valid() && 0.0 <= k.tokens && now >= k.ts + Ttl(p)
    ensures Refilled(Some(k), p, now) == p.capacity
  {
    var d := now - k.ts;
    assert d as real >= p.capacity / p.rate * 2000.0;
    assert d as real / 1000.0 >= 2.0 * (p.capacity / p.rate);
    MulLess(d as real / 1000.0, 2.0 * (p.capacity / p.rate), p.rate);
    assert p.capacity / p.rate * p.rate == p.capacity;
    TwiceTimes(p.capacity / p.rate, p.rate);
  }

  lemma TwiceTimes(x: real, rate: real)
    ensures 2.0 * x * rate == x * rate + x * rate
  {
  }

  lemma SameWhetherExpired(e: Option<Stored>, b: Option<Bucket>, p: Policy, now: int)
    requires p.Valid() && Mirrors(e, b, p) && BucketInv(b, p)
    ensures Refilled(Live(e, now), p, now) == Refilled(b, p, now)
  {
    if b.Some? && now >= b.value.ts + Ttl(p) {
      ExpiredIsFull(b.value, p, now);
    }
  }

  lemma NextMirrors(e: Option<Stored>, b: Option<Bucket>, p: Policy, cost: real, now: int)
    requires p.Valid() && Mirrors(e, b, p) && BucketInv(b, p)
    ensures Mirrors(NextStored(e, p, cost, now), NextBucket(b, p, cost, now), p)
    ensures AnswerOf(Live(e, now), p, cost, now) == AnswerOf(b, p, cost, now)
  {
    SameWhetherExpired(e, b, p, now);
  }

  /** Dropping idle keys is never noticed: every later answer is that of a store that keeps everything. */
  lemma {:induction false} ExpiryIsInvisible(p: Policy, calls: seq<Request>, next: Request)
    requires p.Valid()
    ensures AnswerOf(Live(StoredAfter(None, p, calls), next.now), p, next.cost, next.now)
            == AnswerOf(BucketAfter(None, p, calls), p, next.cost, next.now)
    ensures Mirrors(StoredAfter(None, p, calls), BucketAfter(None, p, calls), p)
    decreases |calls|
  {
    if calls != [] {
      var init, c := calls[..|calls| - 1], calls[|calls| - 1];
      ExpiryIsInvisible(p, init, c);
      TokensStayInBounds(None, p, init);
      NextMirrors(StoredAfter(None, p, init), BucketAfter(None, p, init), p, c.cost, c.now);
    }
    TokensStayInBounds(None, p, calls);
    NextMirrors(StoredAfter(None, p, calls), BucketAfter(None, p, calls), p, next.cost, next.now);
  }

  /** The cost that the expiring store has allowed over a run from an unused key. */
  function AllowedCost(p: Policy, calls: seq<Request>): real {
    if calls == [] then 0.0
    else
      var init, c := calls[..|calls| - 1], calls[|calls| - 1];
      var answer := AnswerOf(Live(StoredAfter(None, p, init), c.now), p, c.cost, c.now);
      AllowedCost(p, init) + if answer.allowed then c.cost else 0.0
  }

  lemma {:induction false} StoreAllowsTheSame(p: Policy, calls: seq<Request>)
    requires p.Valid()
    ensures AllowedCost(p, calls) == Spent(None, p, calls)
    decreases |calls|
  {
    if calls != [] {
      var init, c := calls[..|calls| - 1], calls[|calls| - 1];
      StoreAllowsTheSame(p, init);
      ExpiryIsInvisible(p, init, c);
    }
  }

  /**
   What the store really answers, expired keys or not, keeps the admission bound in every window of
   every run, whatever the callers' clocks say: capacity plus inflow over the steps forward.
   */
  lemma StoreBoundsEveryWindow(p: Policy, before: seq<Request>, window: seq<Request>)
    requires p.Valid() && window != []
    ensures AllowedCost(p, before + window) - AllowedCost(p, before) <= p.capacity + Inflow(Forward(window), p.rate)
  {
    StoreAllowsTheSame(p, before + window);
    StoreAllowsTheSame(p, before);
    EveryWindowIsBounded(p, before, window);
  }

  /** If the clocks agree, the bound is capacity plus rate times the length of the window. */
  lemma OrderedWindowIsBounded(p: Policy, before: seq<Request>, window: seq<Request>, ms: int)
    requires p.Valid() && window != [] && InOrder(window) && ms == LastTime(window) - window[0].now
    ensures AllowedCost(p, before + window) - AllowedCost(p, before) <= p.capacity + p.rate * (ms as real) / 1000.0
  {
    StoreBoundsEveryWindow(p, before, window);
    ForwardInOrder(window);
    BoundInFigures(AllowedCost(p, before + window) - AllowedCost(p, before), p, ms);
  }

  lemma BoundInFigures(x: real, p: Policy, ms: int)
    requires x <= p.capacity + Inflow(ms, p.rate)
    ensures x <= p.capacity + p.rate * (ms as real) / 1000.0
  {
    InflowInFigures(ms, p.rate);
  }

  /** Two callers whose clocks are ten seconds apart, taking turns. */
  const TWO_CLOCKS: seq<Request> :=
    [Request(10.0, 0), Request(10.0, 10_000), Request(10.0, 0), Request(10.0, 10_000)]

  /** If they do not agree, more than that can be allowed: going back sets the time from which the key refills. */
  lemma TwoClocksRefillTwice()
    ensures var p := Policy(1.0, 10.0);
            AllowedCost(p, TWO_CLOCKS) == 30.0
            && p.capacity + Inflow(LastTime(TWO_CLOCKS) - TWO_CLOCKS[0].now, p.rate) == 20.0
  {
    var p, all := Policy(1.0, 10.0), TWO_CLOCKS;
    StoreAllowsTheSame(p, all);
    var a, b, c := all[..1], all[..2], all[..3];
    assert a[..0] == [] && b[..1] == a && c[..2] == b && all[..3] == c;
    assert BucketAfter(None, p, a) == Some(Bucket(0.0, 0));
    assert BucketAfter(None, p, b) == Some(Bucket(0.0, 10_000));
    assert BucketAfter(None, p, c) == Some(Bucket(0.0, 0));
    assert Spent(None, p, a) == 10.0 && Spent(None, p, b) == 20.0 && Spent(None, p, c) == 20.0;
  }
}
