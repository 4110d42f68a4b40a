/** The ingest route's fixed-window limiter, one bucket per verified key. */
module RateLimiter {
  import opened Prelude

  datatype Bucket = Bucket(windowStartMs: int, count: nat)

  datatype Limit = Limit(max: nat, windowMs: nat)

  datatype Answer = Answer(allowed: bool, retryAfterSeconds: int)

  /** The bucket a call at `now` is counted in, the call included. */
  function Counted(b: Option<Bucket>, now: int, l: Limit): Bucket {
    if b.None? || now - b.value.windowStartMs >= l.windowMs then Bucket(now, 1)
    else b.value.(count := b.value.count + 1)
  }

  function CeilDiv(x: int, d: nat): int
    requires d > 0
  {
    -((-x) / d)
  }

  function AnswerOf(b: Bucket, now: int, l: Limit): Answer {
    var seconds := CeilDiv(b.windowStartMs + l.windowMs - now, 1000);
    Answer(b.count <= l.max, if seconds < 1 then 1 else seconds)
  }

  // ----------------------------------------------------------------- runs of one key

  /** The key's bucket after the first n calls, made at those times. */
  function After(times: seq<int>, l: Limit, n: nat): Option<Bucket>
    requires n <= |times|
  {
    if n == 0 then None else Some(Counted(After(times, l, n - 1), times[n - 1], l))
  }

  function Allowed(times: seq<int>, l: Limit, i: nat): bool
    requires i < |times|
  {
    After(times, l, i + 1).value.count <= l.max
  }

  /** How many of the first n calls were let through within [from, from + window). */
  function AllowedWithin(times: seq<int>, l: Limit, from: int, n: nat): nat
    requires n <= |times|
  {
    if n == 0 then 0
    else AllowedWithin(times, l, from, n - 1)
         + (if from <= times[n - 1] < from + l.windowMs && Allowed(times, l, n - 1) then 1 else 0)
  }

  predicate Ordered(times: seq<int>) {
    forall i, j :: 0 <= i <= j < |times| ==> times[i] <= times[j]
  }

  function Min(a: nat, b: nat): nat {
    if a < b then a else b
  }

  function Less(n: nat): nat {
    if n == 0 then 0 else n - 1
  }

  /** A stretch of one window's length meets two buckets at most, and not the beginning
      of both. */
  lemma {:induction false} TwoBucketsAtMost(times: seq<int>, l: Limit, from: int, n: nat)
    requires 0 < n <= |times| && Ordered(times)
    ensures var b, a := After(times, l, n).value, AllowedWithin(times, l, from, n);
      && b.windowStartMs <= times[n - 1] && b.count > 0
      && (times[n - 1] < from ==> a == 0)
      && (b.windowStartMs < from ==> a <= Less(Min(b.count, l.max)))
      && (from <= b.windowStartMs < from + l.windowMs ==> a <= Less(l.max) + Min(b.count, l.max))
      && (b.windowStartMs >= from + l.windowMs ==> a <= Less(l.max) + l.max)
  {
    if n > 1 {
      TwoBucketsAtMost(times, l, from, n - 1);
      assert times[n - 2] <= times[n - 1];
    }
  }

  /** In any stretch of one window's length, aligned or not, fewer than twice the limit
      are let through. */
  lemma FewerThanTwiceTheLimit(times: seq<int>, l: Limit, from: int)
    requires Ordered(times)
    ensures AllowedWithin(times, l, from, |times|) <= Less(2 * l.max)
  {
    if times != [] {
      TwoBucketsAtMost(times, l, from, |times|);
    }
  }

  /** The i-th call opens a window: the key's first, or one whose guard finds the last
      window over. */
  predicate Opens(times: seq<int>, l: Limit, i: nat)
    requires i < |times|
  {
    var b := After(times, l, i);
    b.None? || times[i] - b.value.windowStartMs >= l.windowMs
  }

  /** No call of the stretch but its first opens a window. */
  ghost predicate InOneWindow(times: seq<int>, l: Limit, from: int) {
    forall i, j :: 0 <= i < j < |times| && from <= times[i] && times[j] < from + l.windowMs ==> !Opens(times, l, j)
  }

  /** A stretch in which no further window opens lets through the limit at most. */
  lemma {:induction false} OneWindowKeepsTheLimit(times: seq<int>, l: Limit, from: int, n: nat)
    requires 0 < n <= |times| && Ordered(times) && InOneWindow(times, l, from)
    ensures var b, a := After(times, l, n).value, AllowedWithin(times, l, from, n);
      && a <= l.max
      && (times[n - 1] < from ==> a == 0)
      && (times[n - 1] < from + l.windowMs ==> a <= Min(b.count, l.max))
  {
    if n > 1 {
      OneWindowKeepsTheLimit(times, l, from, n - 1);
      assert times[n - 2] <= times[n - 1];
    }
  }

  // ------------------------------------------------------------ the bound is attained

  /** One call opens a window, the rest of the limit comes at its very end, and the whole
      limit again as the next window opens. */
  function Straddling(l: Limit): seq<int>
    requires l.max >= 1
  {
    [0] + seq(l.max - 1, _ => l.windowMs - 1) + seq(l.max, _ => l.windowMs)
  }

  lemma StraddlingAt(l: Limit, i: nat)
    requires l.max >= 1 && i < 2 * l.max
    ensures |Straddling(l)| == 2 * l.max
    ensures Straddling(l)[i] == if i == 0 then 0 else if i < l.max then l.windowMs - 1 else l.windowMs
  {
  }

  /** What its first n calls come to. */
  lemma {:induction false} StraddlingRuns(l: Limit, n: nat)
    requires l.max >= 1 && l.windowMs >= 2 && 0 < n <= 2 * l.max
    ensures |Straddling(l)| == 2 * l.max
    ensures After(Straddling(l), l, n) == Some(if n <= l.max then Bucket(0, n) else Bucket(l.windowMs, n - l.max))
    ensures AllowedWithin(Straddling(l), l, l.windowMs - 1, n) == n - 1
  {
    StraddlingAt(l, n - 1);
    if n > 1 {
      StraddlingRuns(l, n - 1);
    }
  }

  /** For every limit and every window of two milliseconds or more, twice the limit less
      one is let through within one window's length of some run of calls. */
  lemma TwiceTheLimitLessOneIsLetThrough(l: Limit)
    requires l.max >= 1 && l.windowMs >= 2
    ensures Ordered(Straddling(l))
    ensures AllowedWithin(Straddling(l), l, l.windowMs - 1, |Straddling(l)|) == 2 * l.max - 1
  {
    StraddlingRuns(l, 2 * l.max);
    forall i, j | 0 <= i <= j < |Straddling(l)| ensures Straddling(l)[i] <= Straddling(l)[j] {
      StraddlingAt(l, i);
      StraddlingAt(l, j);
    }
  }

  /** A caller that waits the seconds it is told finds a new window, if nobody used the
      key meanwhile; a second less may not be enough. */
  lemma RetryAfterIsEnough(b: Option<Bucket>, now: int, later: int, l: Limit)
    requires b.Some? ==> b.value.windowStartMs <= now
    ensures var c := Counted(b, now, l);
      && (later >= now + 1000 * AnswerOf(c, now, l).retryAfterSeconds ==> Counted(Some(c), later, l) == Bucket(later, 1))
      && (AnswerOf(c, now, l).retryAfterSeconds > 1
          && now <= later <= now + 1000 * (AnswerOf(c, now, l).retryAfterSeconds - 1) ==>
            Counted(Some(c), later, l).windowStartMs == c.windowStartMs)
  {
    var c := Counted(b, now, l);
    var x := c.windowStartMs + l.windowMs - now;
    CeilDivMeans(x, 1000);
  }

  lemma CeilDivMeans(x: int, d: nat)
    requires d > 0
    ensures x <= d * CeilDiv(x, d) < x + d
  {
  }

  // ------------------------------------------------------------------------ the class

  class VerifiedKeyRateLimiter {
    const limit: Limit
    var buckets: map<string, Bucket>

    constructor (max: nat, windowMs: nat)
      ensures limit == Limit(max, windowMs) && buckets == map[]
    {
      limit, buckets := Limit(max, windowMs), map[];
    }

    ghost function View(key: string): Option<Bucket>
      reads this
    {
      if key in buckets then Some(buckets[key]) else None
    }

    method Consume(key: string, now: int) returns (answer: Answer)
      modifies this
      ensures View(key) == Some(Counted(old(View(key)), now, limit))
      ensures forall k :: k != key ==> View(k) == old(View(k))
      ensures answer == AnswerOf(Counted(old(View(key)), now, limit), now, limit)
    {
      if key !in buckets || now - buckets[key].windowStartMs >= limit.windowMs {
        buckets := buckets[key := Bucket(now, 0)];
      }
      buckets := buckets[key := buckets[key].(count := buckets[key].count + 1)];
      var bucket := buckets[key];
      var seconds := CeilDiv(bucket.windowStartMs + limit.windowMs - now, 1000);
      answer := Answer(bucket.count <= limit.max, if seconds < 1 then 1 else seconds);
    }
  }
}
