/** The token bucket: the script run for one request, the middleware around it, and what a
    bucket that remembers two numbers says about the whole history of requests. */
module TokenBucket {
  import opened Wrappers

  /** capacity in tokens, rate in tokens per second. */
  datatype Limits = Limits(capacity: real, rate: real)

  /** The stored hash: tokens left, and the time in milliseconds of the last request. */
  datatype Bucket = Bucket(tokens: real, timestamp: int)

  predicate Valid(c: Limits) {
    c.capacity >= 0.0 && c.rate > 0.0
  }

  function Min(a: real, b: real): real {
    if a < b then a else b
  }

  /** Time that passed between two readings of a clock, none if it went backwards. */
  function Forward(before: int, after: int): nat {
    if before < after then after - before else 0
  }

  /** Tokens gained in some milliseconds. */
  function Gain(c: Limits, ms: int): real {
    (ms as real / 1000.0) * c.rate
  }

  /** The level just before a request spends: full for a missing key, else topped up to at most
      the capacity. */
  function Refilled(c: Limits, b: Option<Bucket>, now: int): real {
    match b
    case None => c.capacity
    case Some(b) => Min(c.capacity, b.tokens + Gain(c, Forward(b.timestamp, now)))
  }

  /** One run of the script: whether the request is allowed, and the hash it stores. */
  function Touch(c: Limits, b: Option<Bucket>, now: int, requested: real): (bool, Bucket) {
    var tokens := Refilled(c, b, now);
    if tokens >= requested then (true, Bucket(tokens - requested, now)) else (false, Bucket(tokens, now))
  }

  // ---------- the script and the middleware ----------

  class Redis {
    var buckets: map<string, Bucket>

    function Lookup(key: string): Option<Bucket>
      reads this
    {
      if key in buckets then Some(buckets[key]) else None
    }

    /** The script, atomic on the Redis server. A token count is returned as an integer reply. */
    method Eval(key: string, c: Limits, now: int, requested: real) returns (allowed: bool, remaining: int)
      modifies this
      ensures var (ok, bucket) := Touch(c, old(Lookup(key)), now, requested);
              allowed == ok && remaining == bucket.tokens.Floor && buckets == old(buckets)[key := bucket]
    {
      var tokens, last := c.capacity, now;
      if key in buckets {
        tokens, last := buckets[key].tokens, buckets[key].timestamp;
      }
      var elapsed := if now - last < 0 then 0 else now - last;
      var refill := (elapsed as real / 1000.0) * c.rate;
      assert elapsed == 0 ==> refill == 0.0;
      tokens := Min(c.capacity, tokens + refill);
      assert tokens == Refilled(c, old(Lookup(key)), now);
      allowed := false;
      if tokens >= requested {
        tokens := tokens - requested;
        allowed := true;
      }
      buckets := buckets[key := Bucket(tokens, now)];
      remaining := tokens.Floor;
    }
  }

  datatype Response = Passed(header: Option<int>) | TooManyRequests(remaining: int)

  /** How the call to Redis goes: the script may have run although its reply never arrives. */
  datatype Link = Up | ReplyLost | Down

  /** The middleware: one token per request, and through unlimited whenever Redis gives no answer,
      even if the script had refused. Other callers' buckets are never touched. */
  method Limit(redis: Redis, link: Link, keyPrefix: string, identity: string, c: Limits, now: int)
    returns (response: Response)
    modifies redis
    ensures var key := keyPrefix + ":" + identity;
            var (ok, bucket) := Touch(c, old(redis.Lookup(key)), now, 1.0);
            && redis.buckets == (if link.Down? then old(redis.buckets) else old(redis.buckets)[key := bucket])
            && (link != Up ==> response == Passed(None))
            && (link == Up ==>
                  && (response.Passed? <==> ok)
                  && (bucket.tokens >= 0.0 ==>
                        response ==
                        if ok then Passed(Some(bucket.tokens.Floor)) else TooManyRequests(bucket.tokens.Floor)))
  {
    if link == Down {
      return Passed(None);
    }
    var allowed, remaining := redis.Eval(keyPrefix + ":" + identity, c, now, 1.0);
    if link == ReplyLost {
      return Passed(None);
    }
    var header := if remaining < 0 then 0 else remaining;
    response := if allowed then Passed(Some(header)) else TooManyRequests(header);
  }

  // ---------- a history of requests ----------

  /** The stored hash after the first n requests. */
  function After(c: Limits, ts: seq<int>, n: nat): Option<Bucket>
    requires n <= |ts|
  {
    if n == 0 then None else Some(Touch(c, After(c, ts, n - 1), ts[n - 1], 1.0).1)
  }

  /** The level just before request n spends. */
  function Level(c: Limits, ts: seq<int>, n: nat): real
    requires n < |ts|
  {
    Refilled(c, After(c, ts, n), ts[n])
  }

  function Admits(c: Limits, ts: seq<int>, n: nat): bool
    requires n < |ts|
  {
    Touch(c, After(c, ts, n), ts[n], 1.0).0
  }

  /** Requests admitted among k, ..., n - 1. */
  function Admitted(c: Limits, ts: seq<int>, k: nat, n: nat): nat
    requires k <= n <= |ts|
    decreases n - k
  {
    if k == n then 0 else Admitted(c, ts, k, n - 1) + if Admits(c, ts, n - 1) then 1 else 0
  }

  /** The sum of the forward clock steps from request k to request n. */
  function Elapsed(ts: seq<int>, k: nat, n: nat): nat
    requires k <= n < |ts|
    decreases n - k
  {
    if k == n then 0 else Elapsed(ts, k, n - 1) + Forward(ts[n - 1], ts[n])
  }

  /** What the window from request k to request n still allows before request n spends. */
  function Allowance(c: Limits, ts: seq<int>, k: nat, n: nat): real
    requires k <= n < |ts|
  {
    c.capacity + Gain(c, Elapsed(ts, k, n)) - Admitted(c, ts, k, n) as real
  }

  lemma GainAdds(c: Limits, a: nat, b: nat)
    requires Valid(c)
    ensures Gain(c, a + b) == Gain(c, a) + Gain(c, b)
    ensures Gain(c, a) >= 0.0
    ensures Gain(c, 0) == 0.0
  {
  }

  /** Level of the next request from the level of this one. */
  lemma NextLevel(c: Limits, ts: seq<int>, n: nat)
    requires n + 1 < |ts|
    ensures Level(c, ts, n + 1) ==
            Min(c.capacity,
                Level(c, ts, n) - (if Admits(c, ts, n) then 1.0 else 0.0) + Gain(c, Forward(ts[n], ts[n + 1])))
  {
  }

  lemma NextAllowance(c: Limits, ts: seq<int>, k: nat, n: nat)
    requires Valid(c) && k <= n && n + 1 < |ts|
    ensures Allowance(c, ts, k, n + 1) ==
            Allowance(c, ts, k, n) - (if Admits(c, ts, n) then 1.0 else 0.0) + Gain(c, Forward(ts[n], ts[n + 1]))
  {
  }

  lemma OwnAllowance(c: Limits, ts: seq<int>, n: nat)
    requires Valid(c) && n < |ts|
    ensures Allowance(c, ts, n, n) == c.capacity
  {
  }

  /** The bucket is its history: before request n the level is the least allowance of all the
      windows that end there. */
  lemma {:induction false} LevelIsLeastAllowance(c: Limits, ts: seq<int>, n: nat)
    requires Valid(c) && n < |ts|
    ensures forall k :: 0 <= k <= n ==> Level(c, ts, n) <= Allowance(c, ts, k, n)
    ensures exists k :: 0 <= k <= n && Level(c, ts, n) == Allowance(c, ts, k, n)
  {
    OwnAllowance(c, ts, n);
    if n > 0 {
      LevelIsLeastAllowance(c, ts, n - 1);
      NextLevel(c, ts, n - 1);
      forall k | 0 <= k < n
        ensures Allowance(c, ts, k, n) ==
                Allowance(c, ts, k, n - 1) - (if Admits(c, ts, n - 1) then 1.0 else 0.0)
                + Gain(c, Forward(ts[n - 1], ts[n]))
      {
        NextAllowance(c, ts, k, n - 1);
      }
      var k :| 0 <= k <= n - 1 && Level(c, ts, n - 1) == Allowance(c, ts, k, n - 1);
      assert Level(c, ts, n) == Allowance(c, ts, n, n) || Level(c, ts, n) == Allowance(c, ts, k, n);
    }
  }

  /** One more request keeps to the bound of the window from request k to request n, when
      some number of requests have been admitted in it before. */
  predicate KeepsBound(c: Limits, ts: seq<int>, k: nat, n: nat, admitted: nat)
    requires k <= n < |ts|
  {
    admitted as real + 1.0 <= c.capacity + Gain(c, Elapsed(ts, k, n))
  }

  /** A request is refused exactly when admitting it would break the bound of some window. */
  lemma AdmitsIff(c: Limits, ts: seq<int>, n: nat)
    requires Valid(c) && n < |ts|
    ensures Admits(c, ts, n) <==> forall k :: 0 <= k <= n ==> KeepsBound(c, ts, k, n, Admitted(c, ts, k, n))
  {
    LevelIsLeastAllowance(c, ts, n);
    assert Admits(c, ts, n) <==> Level(c, ts, n) >= 1.0;
    var k :| 0 <= k <= n && Level(c, ts, n) == Allowance(c, ts, k, n);
    assert KeepsBound(c, ts, k, n, Admitted(c, ts, k, n)) ==> Level(c, ts, n) >= 1.0;
    if Level(c, ts, n) < 1.0 {
      assert !KeepsBound(c, ts, k, n, Admitted(c, ts, k, n));
    } else {
      forall j | 0 <= j <= n ensures KeepsBound(c, ts, j, n, Admitted(c, ts, j, n)) {
        assert Allowance(c, ts, j, n) >= 1.0;
      }
    }
  }

  // ---------- the same decisions from the full history ----------

  function Chosen(ds: seq<bool>, k: nat, n: nat): nat
    requires k <= n <= |ds|
    decreases n - k
  {
    if k == n then 0 else Chosen(ds, k, n - 1) + if ds[n - 1] then 1 else 0
  }

  /** After these decisions, admitting the next request keeps to the bound of every window. */
  ghost predicate KeepsAll(c: Limits, ts: seq<int>, ds: seq<bool>)
    requires |ds| < |ts|
  {
    forall k :: 0 <= k <= |ds| ==> KeepsBound(c, ts, k, |ds|, Chosen(ds, k, |ds|))
  }

  /** A limiter that keeps every past decision and checks every window: no bucket involved. */
  ghost function FullHistory(c: Limits, ts: seq<int>, n: nat): (ds: seq<bool>)
    requires n <= |ts|
    ensures |ds| == n
  {
    if n == 0 then []
    else
      var ds := FullHistory(c, ts, n - 1);
      ds + [KeepsAll(c, ts, ds)]
  }

  lemma {:induction false} ChosenIsAdmitted(c: Limits, ts: seq<int>, ds: seq<bool>, k: nat, n: nat)
    requires k <= n <= |ds| <= |ts|
    requires forall i :: 0 <= i < |ds| ==> ds[i] == Admits(c, ts, i)
    ensures Chosen(ds, k, n) == Admitted(c, ts, k, n)
    decreases n - k
  {
    if k < n { ChosenIsAdmitted(c, ts, ds, k, n - 1); }
  }

  lemma SameNextDecision(c: Limits, ts: seq<int>, ds: seq<bool>)
    requires Valid(c) && |ds| < |ts|
    requires forall i :: 0 <= i < |ds| ==> ds[i] == Admits(c, ts, i)
    ensures KeepsAll(c, ts, ds) == Admits(c, ts, |ds|)
  {
    var m := |ds|;
    AdmitsIff(c, ts, m);
    if KeepsAll(c, ts, ds) {
      forall k | 0 <= k <= m ensures KeepsBound(c, ts, k, m, Admitted(c, ts, k, m)) {
        ChosenIsAdmitted(c, ts, ds, k, m);
        assert KeepsBound(c, ts, k, m, Chosen(ds, k, m));
      }
    } else {
      var k :| 0 <= k <= m && !KeepsBound(c, ts, k, m, Chosen(ds, k, m));
      ChosenIsAdmitted(c, ts, ds, k, m);
    }
  }

  /** The O(1) bucket makes exactly the decisions of the limiter that remembers everything. */
  lemma {:induction false} BucketRefinesFullHistory(c: Limits, ts: seq<int>, n: nat)
    requires Valid(c) && n <= |ts|
    ensures forall i :: 0 <= i < n ==> FullHistory(c, ts, n)[i] == Admits(c, ts, i)
  {
    if n > 0 {
      BucketRefinesFullHistory(c, ts, n - 1);
      SameNextDecision(c, ts, FullHistory(c, ts, n - 1));
    }
  }

  // ---------- many callers ----------

  datatype Request = Request(key: string, time: int)

  /** The stored hashes after the script has run for each request in turn. */
  function Stored(c: Limits, requests: seq<Request>): map<string, Bucket> {
    if requests == [] then map[]
    else
      var n := |requests| - 1;
      var before := Stored(c, requests[..n]);
      var r := requests[n];
      var found := if r.key in before then Some(before[r.key]) else None;
      before[r.key := Touch(c, found, r.time, 1.0).1]
  }

  /** The times of one caller's requests. */
  function TimesOf(requests: seq<Request>, key: string): seq<int> {
    if requests == [] then []
    else
      var n := |requests| - 1;
      if requests[n].key == key then TimesOf(requests[..n], key) + [requests[n].time]
      else TimesOf(requests[..n], key)
  }

  lemma {:induction false} AfterPrefix(c: Limits, ts: seq<int>, more: seq<int>, n: nat)
    requires n <= |ts|
    ensures After(c, ts + more, n) == After(c, ts, n)
  {
    if n > 0 { AfterPrefix(c, ts, more, n - 1); }
  }

  /** However the callers' requests interleave, each caller's hash is that of its own requests
      alone: the buckets are independent. */
  lemma {:induction false} CallersAreIndependent(c: Limits, requests: seq<Request>, key: string)
    ensures var own := TimesOf(requests, key);
            (if key in Stored(c, requests) then Some(Stored(c, requests)[key]) else None) == After(c, own, |own|)
  {
    if requests != [] {
      var n := |requests| - 1;
      CallersAreIndependent(c, requests[..n], key);
      if requests[n].key == key {
        var own := TimesOf(requests[..n], key);
        AfterPrefix(c, own, [requests[n].time], |own|);
      }
    }
  }

  // ---------- window bounds ----------

  lemma {:induction false} LevelBounds(c: Limits, ts: seq<int>, n: nat)
    requires Valid(c) && n < |ts|
    ensures 0.0 <= Level(c, ts, n) <= c.capacity
    ensures 0.0 <= Touch(c, After(c, ts, n), ts[n], 1.0).1.tokens <= c.capacity
  {
    if n > 0 {
      LevelBounds(c, ts, n - 1);
      GainAdds(c, Forward(ts[n - 1], ts[n]), 0);
    }
  }

  lemma {:induction false} WindowGain(c: Limits, ts: seq<int>, i: nat, j: nat)
    requires Valid(c) && i <= j < |ts|
    ensures Admitted(c, ts, i, j + 1) as real <= c.capacity + Gain(c, Elapsed(ts, i, j))
    decreases j - i
  {
    if Admits(c, ts, j) {
      AdmitsIff(c, ts, j);
      assert KeepsBound(c, ts, i, j, Admitted(c, ts, i, j));
    } else if i < j {
      WindowGain(c, ts, i, j - 1);
      GainAdds(c, Elapsed(ts, i, j - 1), Forward(ts[j - 1], ts[j]));
      GainAdds(c, Forward(ts[j - 1], ts[j]), 0);
    } else {
      GainAdds(c, 0, 0);
    }
  }

  // ---------- windows in milliseconds ----------

  /** ms[k] is how far the clock stepped forward from request k to request n; a step back counts
      for nothing. */
  predicate Windows(ts: seq<int>, n: nat, ms: seq<int>) {
    && n < |ts| && |ms| == n + 1 && ms[n] == 0
    && forall k :: 0 <= k < n ==> ms[k] == ms[k + 1] + if ts[k + 1] > ts[k] then ts[k + 1] - ts[k] else 0
  }

  /** This many requests in a window of some milliseconds: at most the capacity, and the rate per
      second for the time of the window. */
  predicate Within(c: Limits, ms: int, admitted: nat) {
    admitted as real <= c.capacity + c.rate * ms as real / 1000.0
  }

  lemma GainInMilliseconds(c: Limits, ms: int)
    ensures Gain(c, ms) == c.rate * ms as real / 1000.0
  {
  }

  lemma {:induction false} ElapsedSplits(ts: seq<int>, k: nat, n: nat)
    requires k < n < |ts|
    ensures Elapsed(ts, k, n) == Forward(ts[k], ts[k + 1]) + Elapsed(ts, k + 1, n)
    decreases n
  {
    if k + 1 < n { ElapsedSplits(ts, k, n - 1); }
  }

  lemma {:induction false} WindowIsElapsed(ts: seq<int>, n: nat, ms: seq<int>, k: nat)
    requires Windows(ts, n, ms) && k <= n
    ensures ms[k] == Elapsed(ts, k, n)
    decreases n - k
  {
    if k < n {
      WindowIsElapsed(ts, n, ms, k + 1);
      ElapsedSplits(ts, k, n);
    }
  }

  /** For any clock, stepping backwards or not, the requests admitted from i to j are at most the
      capacity plus the rate for the time the clock stepped forward in between. */
  lemma WindowBound(c: Limits, ts: seq<int>, ms: seq<int>, i: nat, j: nat)
    requires Valid(c) && Windows(ts, j, ms) && i <= j
    ensures Within(c, ms[i], Admitted(c, ts, i, j + 1))
  {
    WindowIsElapsed(ts, j, ms, i);
    WindowGain(c, ts, i, j);
    GainInMilliseconds(c, ms[i]);
  }

  lemma BoundIsWithin(c: Limits, ts: seq<int>, k: nat, n: nat, admitted: nat, ms: int)
    requires k <= n < |ts| && Elapsed(ts, k, n) == ms
    ensures KeepsBound(c, ts, k, n, admitted) <==> Within(c, ms, admitted + 1)
  {
    GainInMilliseconds(c, ms);
  }

  /** A request is admitted exactly when it and the requests admitted before it stay within the
      bound of every window that it ends. */
  lemma AdmitsIffWithin(c: Limits, ts: seq<int>, ms: seq<int>, n: nat)
    requires Valid(c) && Windows(ts, n, ms)
    ensures Admits(c, ts, n) <==> forall k :: 0 <= k <= n ==> Within(c, ms[k], Admitted(c, ts, k, n) + 1)
  {
    AdmitsIff(c, ts, n);
    forall k | 0 <= k <= n
      ensures KeepsBound(c, ts, k, n, Admitted(c, ts, k, n)) <==> Within(c, ms[k], Admitted(c, ts, k, n) + 1)
    {
      WindowIsElapsed(ts, n, ms, k);
      BoundIsWithin(c, ts, k, n, Admitted(c, ts, k, n), ms[k]);
    }
  }

  predicate NonDecreasing(ts: seq<int>) {
    forall i, j :: 0 <= i < j < |ts| ==> ts[i] <= ts[j]
  }

  /** For a clock that never goes back a window lasts from one reading to the other. */
  lemma {:induction false} SteadyWindow(ts: seq<int>, n: nat, ms: seq<int>, k: nat)
    requires NonDecreasing(ts) && Windows(ts, n, ms) && k <= n
    ensures ms[k] == ts[n] - ts[k]
    decreases n - k
  {
    if k < n { SteadyWindow(ts, n, ms, k + 1); }
  }

  /** Then the bound is capacity + rate * (ts[j] - ts[i]) / 1000. */
  lemma WindowBoundSteadyClock(c: Limits, ts: seq<int>, i: nat, j: nat)
    requires Valid(c) && NonDecreasing(ts) && i <= j < |ts|
    ensures Within(c, ts[j] - ts[i], Admitted(c, ts, i, j + 1))
  {
    var ms := WindowsOf(ts, j);
    SteadyWindow(ts, j, ms, i);
    WindowBound(c, ts, ms, i, j);
  }

  /** And a request is admitted exactly when it stays within all of those. */
  lemma AdmitsIffSteadyClock(c: Limits, ts: seq<int>, windows: seq<int>, n: nat)
    requires Valid(c) && NonDecreasing(ts) && n < |ts| == |windows|
    requires forall k :: 0 <= k <= n ==> windows[k] == ts[n] - ts[k]
    ensures Admits(c, ts, n) <==> forall k :: 0 <= k <= n ==> Within(c, windows[k], Admitted(c, ts, k, n) + 1)
  {
    var ms := WindowsOf(ts, n);
    AdmitsIffWithin(c, ts, ms, n);
    forall k | 0 <= k <= n ensures windows[k] == ms[k] {
      SteadyWindow(ts, n, ms, k);
    }
  }

  function WindowsOf(ts: seq<int>, n: nat): (ms: seq<int>)
    requires n < |ts|
    ensures Windows(ts, n, ms)
  {
    if n == 0 then [0]
    else
      var step := if ts[n] > ts[n - 1] then ts[n] - ts[n - 1] else 0;
      var before := WindowsOf(ts, n - 1);
      seq(n + 1, k requires 0 <= k <= n => if k == n then 0 else before[k] + step)
  }

  // ---------- no policy does better ----------

  /** The level before request n of a bucket whose owner decides for itself when to spend. */
  function LevelUnder(c: Limits, ts: seq<int>, policy: seq<bool>, n: nat): real
    requires n < |ts| && |policy| == |ts|
  {
    if n == 0 then c.capacity
    else
      Min(c.capacity,
          LevelUnder(c, ts, policy, n - 1) - (if policy[n - 1] then 1.0 else 0.0)
          + Gain(c, Forward(ts[n - 1], ts[n])))
  }

  /** A policy spends only when its bucket holds a token. */
  predicate Affordable(c: Limits, ts: seq<int>, policy: seq<bool>)
    requires |policy| == |ts|
  {
    forall n :: 0 <= n < |ts| && policy[n] ==> LevelUnder(c, ts, policy, n) >= 1.0
  }

  lemma {:induction false} NeverBehind(c: Limits, ts: seq<int>, policy: seq<bool>, n: nat)
    requires Valid(c) && |policy| == |ts| && Affordable(c, ts, policy) && n < |ts|
    ensures Chosen(policy, 0, n) <= Admitted(c, ts, 0, n)
    ensures LevelUnder(c, ts, policy, n) - Level(c, ts, n)
            <= (Admitted(c, ts, 0, n) - Chosen(policy, 0, n)) as real
    ensures Chosen(policy, 0, n + 1) <= Admitted(c, ts, 0, n + 1)
  {
    if n > 0 {
      NeverBehind(c, ts, policy, n - 1);
      NextLevel(c, ts, n - 1);
    }
  }

  /** Greedy is optimal: at every prefix the limiter has admitted at least as many requests as
      any other way of spending the same bucket. */
  lemma GreedyIsOptimal(c: Limits, ts: seq<int>, policy: seq<bool>, n: nat)
    requires Valid(c) && |policy| == |ts| && Affordable(c, ts, policy) && n <= |ts|
    ensures Chosen(policy, 0, n) <= Admitted(c, ts, 0, n)
  {
    if n > 0 { NeverBehind(c, ts, policy, n - 1); }
  }

  /** And it is itself such a way. */
  lemma GreedyIsAffordable(c: Limits, ts: seq<int>)
    ensures Affordable(c, ts, Greedy(c, ts))
  {
    forall i | 0 <= i < |ts| ensures LevelUnder(c, ts, Greedy(c, ts), i) == Level(c, ts, i) {
      GreedyLevel(c, ts, i);
    }
  }

  function Greedy(c: Limits, ts: seq<int>): (policy: seq<bool>)
    ensures |policy| == |ts|
  {
    seq(|ts|, i requires 0 <= i < |ts| => Admits(c, ts, i))
  }

  lemma {:induction false} GreedyLevel(c: Limits, ts: seq<int>, n: nat)
    requires n < |ts|
    ensures LevelUnder(c, ts, Greedy(c, ts), n) == Level(c, ts, n)
  {
    if n > 0 {
      GreedyLevel(c, ts, n - 1);
      NextLevel(c, ts, n - 1);
    }
  }

  // ---------- key expiry ----------

  function Ceil(x: real): int {
    -((-x).Floor)
  }

  /** The EXPIRE argument, in seconds. */
  function TimeToLive(c: Limits): int
    requires Valid(c)
  {
    Ceil(c.capacity / c.rate) + 60
  }

  /** The hash that request n finds when the key was dropped before the requests marked so. */
  function AfterDropping(c: Limits, ts: seq<int>, dropped: seq<bool>, n: nat): Option<Bucket>
    requires n < |ts| && |dropped| == |ts|
  {
    if n == 0 || dropped[n] then None
    else Some(Touch(c, AfterDropping(c, ts, dropped, n - 1), ts[n - 1], 1.0).1)
  }

  /** Redis may drop the key only once it has been idle, by its own clock, for the time to live
      that the last request set. */
  predicate MayDrop(c: Limits, redisTimes: seq<int>, dropped: seq<bool>)
    requires Valid(c) && |dropped| == |redisTimes|
  {
    forall n :: 1 <= n < |dropped| && dropped[n] ==> redisTimes[n] - redisTimes[n - 1] >= 1000 * TimeToLive(c)
  }

  /** Between two requests in a row the two clocks drift apart by at most 60 seconds. */
  predicate ClocksClose(ts: seq<int>, redisTimes: seq<int>)
    requires |redisTimes| == |ts|
  {
    forall n :: 1 <= n < |ts| ==>
      -60000 <= (redisTimes[n] - redisTimes[n - 1]) - (ts[n] - ts[n - 1]) <= 60000
  }

  /** An idle time of ceil(capacity / rate) seconds fills any bucket. */
  lemma IdleFills(c: Limits, ms: int)
    requires Valid(c) && ms >= 1000 * Ceil(c.capacity / c.rate)
    ensures Gain(c, ms) >= c.capacity
  {
    var seconds := c.capacity / c.rate;
    assert Ceil(seconds) as real >= seconds;
    assert ms as real / 1000.0 >= seconds;
    assert (ms as real / 1000.0 - seconds) * c.rate >= 0.0;
    assert seconds * c.rate == c.capacity;
  }

  /** Expiry cannot be observed: with or without the dropped keys every request finds the same
      level and gets the same answer, and the same hash is stored. */
  lemma {:induction false} ExpiryIsInvisible(c: Limits, ts: seq<int>, redisTimes: seq<int>, dropped: seq<bool>, n: nat)
    requires Valid(c) && |redisTimes| == |ts| == |dropped| && n < |ts|
    requires MayDrop(c, redisTimes, dropped) && ClocksClose(ts, redisTimes)
    ensures Refilled(c, AfterDropping(c, ts, dropped, n), ts[n]) == Level(c, ts, n)
    ensures Touch(c, AfterDropping(c, ts, dropped, n), ts[n], 1.0) == Touch(c, After(c, ts, n), ts[n], 1.0)
  {
    if n > 0 {
      ExpiryIsInvisible(c, ts, redisTimes, dropped, n - 1);
      if dropped[n] {
        LevelBounds(c, ts, n - 1);
        CeilNonNegative(c);
        assert ts[n] - ts[n - 1] >= 1000 * Ceil(c.capacity / c.rate);
        IdleFills(c, Forward(ts[n - 1], ts[n]));
      }
    }
  }

  /** The time to live in seconds: what fills an empty bucket, and a minute, rounded up. */
  lemma TimeToLiveBounds(c: Limits)
    requires Valid(c)
    ensures c.capacity / c.rate + 60.0 <= TimeToLive(c) as real < c.capacity / c.rate + 61.0
  {
  }

  lemma CeilNonNegative(c: Limits)
    requires Valid(c)
    ensures Ceil(c.capacity / c.rate) >= 0
  {
  }
}
