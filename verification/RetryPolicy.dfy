/** When a failed message is retried, when it is given up, and how long it is held back. */
module RetryPolicy {

  datatype Decision = DeadLetter | Retry(nextRetryCount: nat, delayMs: int)

  function Pow2(n: nat): (p: int)
    ensures p >= 1
  {
    if n == 0 then 1 else 2 * Pow2(n - 1)
  }

  function DecideRetry(retryCount: nat, maxAttempts: nat, baseDelayMs: int): Decision {
    if retryCount >= maxAttempts then DeadLetter
    else Retry(retryCount + 1, baseDelayMs * Pow2(retryCount))
  }

  /** The delays given to a message that fails every time, from its given retry count on:
      one per retry, until it is dead-lettered. */
  function Schedule(retryCount: nat, maxAttempts: nat, baseDelayMs: int): seq<int>
    decreases maxAttempts - retryCount
  {
    match DecideRetry(retryCount, maxAttempts, baseDelayMs)
    case DeadLetter => []
    case Retry(next, delay) => [delay] + Schedule(next, maxAttempts, baseDelayMs)
  }

  function TotalDelay(delays: seq<int>): int {
    if delays == [] then 0 else delays[0] + TotalDelay(delays[1..])
  }

  lemma {:induction false} ScheduleFrom(r: nat, maxAttempts: nat, base: int)
    requires r <= maxAttempts
    ensures |Schedule(r, maxAttempts, base)| == maxAttempts - r
    ensures forall i: nat :: i < maxAttempts - r ==> Schedule(r, maxAttempts, base)[i] == base * Pow2(r + i)
    ensures TotalDelay(Schedule(r, maxAttempts, base)) == base * (Pow2(maxAttempts) - Pow2(r))
    decreases maxAttempts - r
  {
    if r < maxAttempts {
      ScheduleFrom(r + 1, maxAttempts, base);
      var rest := Schedule(r + 1, maxAttempts, base);
      assert Schedule(r, maxAttempts, base)[1..] == rest;
      assert base * Pow2(r) + base * (Pow2(maxAttempts) - 2 * Pow2(r)) == base * (Pow2(maxAttempts) - Pow2(r));
    }
  }

  /** A new message that always fails is retried exactly maxAttempts times, the first time after
      the base delay and then after twice the delay before, base * (2^maxAttempts - 1) in all. */
  lemma AlwaysFailing(maxAttempts: nat, base: int)
    ensures |Schedule(0, maxAttempts, base)| == maxAttempts
    ensures maxAttempts > 0 ==> Schedule(0, maxAttempts, base)[0] == base
    ensures forall i: nat :: i + 1 < maxAttempts ==>
              Schedule(0, maxAttempts, base)[i + 1] == 2 * Schedule(0, maxAttempts, base)[i]
    ensures TotalDelay(Schedule(0, maxAttempts, base)) == base * (Pow2(maxAttempts) - 1)
  {
    ScheduleFrom(0, maxAttempts, base);
  }

  lemma {:induction false} Pow2Monotone(a: nat, b: nat)
    requires a <= b
    ensures Pow2(a) <= Pow2(b)
    decreases b - a
  {
    if a < b {
      Pow2Monotone(a + 1, b);
    }
  }

  /** No delay that is ever scheduled is longer than the last retry's. */
  lemma DelayBound(r: nat, maxAttempts: nat, base: int)
    requires base > 0
    ensures var d := DecideRetry(r, maxAttempts, base);
            d.Retry? ==> base <= d.delayMs <= base * Pow2(maxAttempts - 1)
  {
    if r < maxAttempts {
      Pow2Monotone(r, maxAttempts - 1);
      MultiplyMonotone(base, 1, Pow2(r));
      MultiplyMonotone(base, Pow2(r), Pow2(maxAttempts - 1));
    }
  }

  lemma MultiplyMonotone(k: int, a: int, b: int)
    requires k >= 0 && a <= b
    ensures k * a <= k * b
  {
  }
}

/** The retry queue: first in, first out, and only the copy at its head can expire. */
module DelayQueue {
  import opened RetryPolicy

  /** A delayed copy: when it was published and its per-message time to live. */
  datatype Copy = Copy(published: int, ttl: int)

  function Due(c: Copy): int {
    c.published + c.ttl
  }

  function Latest(a: int, b: int): int {
    if a < b then b else a
  }

  /** When each copy of a queue leaves it, given a broker that removes the head as soon as
      the head is due, and looks at the next copy only then. */
  function Releases(q: seq<Copy>): (times: seq<int>)
    ensures |times| == |q|
  {
    if q == [] then []
    else
      var before := Releases(q[..|q| - 1]);
      var due := Due(q[|q| - 1]);
      before + [if before == [] then due else Latest(due, before[|before| - 1])]
  }

  predicate InOrder(q: seq<Copy>) {
    forall i, j :: 0 <= i < j < |q| ==> q[i].published <= q[j].published
  }

  /** A copy leaves exactly when the last of the copies up to and including itself falls due:
      never before its own delay, but possibly held up by a longer delay ahead of it. */
  lemma {:induction false} ReleaseIsLatestDue(q: seq<Copy>, i: nat)
    requires i < |q|
    ensures forall j :: 0 <= j <= i ==> Due(q[j]) <= Releases(q)[i]
    ensures exists j :: 0 <= j <= i && Due(q[j]) == Releases(q)[i]
    decreases |q|
  {
    var front := q[..|q| - 1];
    if i < |front| {
      ReleaseIsLatestDue(front, i);
      assert Releases(q)[i] == Releases(front)[i];
      var j :| 0 <= j <= i && Due(front[j]) == Releases(front)[i];
      assert Due(q[j]) == Releases(q)[i];
      forall k | 0 <= k <= i ensures Due(q[k]) <= Releases(q)[i] {
        assert Due(front[k]) <= Releases(front)[i];
      }
    } else if i > 0 {
      ReleaseIsLatestDue(front, i - 1);
      var last := Releases(front)[i - 1];
      assert Releases(q)[i] == Latest(Due(q[i]), last);
      var j :| 0 <= j <= i - 1 && Due(front[j]) == last;
      assert Due(q[j]) == last;
      forall k | 0 <= k <= i ensures Due(q[k]) <= Releases(q)[i] {
        if k < i { assert Due(front[k]) <= last; }
      }
    }
  }

  /** With the worker's delays no copy waits longer than the longest delay there is,
      whatever is queued ahead of it. */
  lemma WaitBound(q: seq<Copy>, retryCounts: seq<nat>, i: nat, maxAttempts: nat, base: int)
    requires InOrder(q) && i < |q| && base > 0
    requires |retryCounts| == |q|
    requires forall k :: 0 <= k < |q| ==>
               DecideRetry(retryCounts[k], maxAttempts, base) == Retry(retryCounts[k] + 1, q[k].ttl)
    ensures maxAttempts > 0
    ensures q[i].ttl <= Releases(q)[i] - q[i].published <= base * Pow2(maxAttempts - 1)
  {
    ReleaseIsLatestDue(q, i);
    var j :| 0 <= j <= i && Due(q[j]) == Releases(q)[i];
    DelayBound(retryCounts[j], maxAttempts, base);
    assert q[j].published <= q[i].published;
    assert Due(q[i]) <= Releases(q)[i];
  }

  /** Head-of-line blocking is real: a first retry behind a third one comes back late. */
  lemma ShortDelayCanBeHeldUp()
    ensures exists q: seq<Copy> :: InOrder(q) && |q| == 2 && Due(q[1]) < Releases(q)[1]
  {
    var q := [Copy(0, 8000), Copy(0, 2000)];
    assert q[..1] == [Copy(0, 8000)];
    assert q[..1][..0] == [];
    assert Releases(q[..1]) == [8000];
    assert Releases(q) == [8000, 8000];
    assert InOrder(q) && |q| == 2 && Due(q[1]) < Releases(q)[1];
  }

  /** A copy comes back on time exactly when nothing queued before it falls due later. */
  lemma OnTimeIff(q: seq<Copy>, i: nat)
    requires i < |q|
    ensures Releases(q)[i] == Due(q[i]) <==> forall j :: 0 <= j < i ==> Due(q[j]) <= Due(q[i])
  {
    ReleaseIsLatestDue(q, i);
  }
}
