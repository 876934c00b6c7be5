/**
 Byte quotas per entry gateway: a token bucket in integer arithmetic that refills at most every ten
 milliseconds. Clock readings, in nanoseconds, are inputs; they never go backwards.
 */
module Quota {
  import opened Options

  const U64_MAX: nat := 0xFFFF_FFFF_FFFF_FFFF
  const SECOND: nat := 1_000_000_000
  const TEN_MILLIS: nat := 10_000_000

  datatype Limits = Limits(maxEntries: nat, maxConnections: nat, maxSessions: nat, rate: nat, burst: nat)

  predicate ValidLimits(l: Limits) {
    && l.maxEntries > 0 && l.maxConnections > 0 && l.maxSessions > 0
    && 0 < l.rate <= U64_MAX && 0 < l.burst <= U64_MAX
  }

  // ---------------------------------------------------------------- one bucket

  datatype Bucket = Bucket(available: nat, lastRefill: nat)

  function Min(a: nat, b: nat): nat {
    if a <= b then a else b
  }

  function Earned(rate: nat, nanos: nat): nat {
    Min(rate * nanos / SECOND, U64_MAX)
  }

  /** Refilling reads the clock once for the elapsed time and again for the new mark. */
  function Refill(l: Limits, b: Bucket, first: nat, second: nat): Bucket
    requires b.lastRefill <= first <= second
  {
    var elapsed := first - b.lastRefill;
    if elapsed < TEN_MILLIS then b
    else Bucket(Min(Min(b.available + Earned(l.rate, elapsed), U64_MAX), l.burst), second)
  }

  /** Charges bytes if the refilled bucket holds them. */
  function Charge(l: Limits, b: Bucket, bytes: nat, first: nat, second: nat): Bucket
    requires b.lastRefill <= first <= second
  {
    var b := Refill(l, b, first, second);
    if bytes > b.available then b else b.(available := b.available - bytes)
  }

  function Charged(l: Limits, b: Bucket, bytes: nat, first: nat, second: nat): nat
    requires b.lastRefill <= first <= second
  {
    if bytes > Refill(l, b, first, second).available then 0 else bytes
  }

  // ---------------------------------------------------------------- the potential

  lemma EarnedBound(rate: nat, nanos: nat)
    ensures SECOND * Earned(rate, nanos) <= rate * nanos
  {
    var product := rate * nanos;
    assert SECOND * (product / SECOND) <= product;
  }

  /** Bytes charged and bytes available together never outgrow the burst and the rate over the time
      up to the last refill. */
  ghost predicate Paid(l: Limits, b: Bucket, start: nat, charged: nat) {
    && start <= b.lastRefill && b.available <= l.burst
    && SECOND * (charged + b.available) <= SECOND * l.burst + l.rate * (b.lastRefill - start)
  }

  lemma RateSplits(rate: nat, a: nat, b: nat, c: nat)
    requires a <= b <= c
    ensures rate * (c - a) == rate * (b - a) + rate * (c - b)
    ensures rate * (b - a) <= rate * (c - a)
  {
    assert (c - a) == (b - a) + (c - b);
  }

  lemma RefillPaid(l: Limits, b: Bucket, start: nat, charged: nat, first: nat, second: nat)
    requires Paid(l, b, start, charged) && b.lastRefill <= first <= second
    ensures Paid(l, Refill(l, b, first, second), start, charged)
  {
    var r := Refill(l, b, first, second);
    if first - b.lastRefill >= TEN_MILLIS {
      EarnedBound(l.rate, first - b.lastRefill);
      RateSplits(l.rate, start, b.lastRefill, second);
      RateSplits(l.rate, b.lastRefill, first, second);
      assert r.available <= b.available + Earned(l.rate, first - b.lastRefill);
    }
  }

  lemma ChargePaid(l: Limits, b: Bucket, start: nat, charged: nat, bytes: nat, first: nat, second: nat)
    requires Paid(l, b, start, charged) && b.lastRefill <= first <= second
    ensures Paid(l, Charge(l, b, bytes, first, second), start, charged + Charged(l, b, bytes, first, second))
    ensures Charge(l, b, bytes, first, second).lastRefill <= second
  {
    RefillPaid(l, b, start, charged, first, second);
  }

  datatype Request = Request(bytes: nat, first: nat, second: nat)

  // ---------------------------------------------------------------- an account that starts in the middle

  /** After the first request of an interval the last refill is at most ten milliseconds before it. */
  lemma FirstRefill(l: Limits, b: Bucket, q: Request)
    requires b.lastRefill <= q.first <= q.second && b.available <= l.burst
    ensures var r := Refill(l, b, q.first, q.second); r.available <= l.burst && q.first < r.lastRefill + TEN_MILLIS
  {
  }

  lemma LaterRate(l: Limits, start: nat, mark: nat, end: nat)
    requires start < mark + TEN_MILLIS && mark <= end && start <= end
    ensures l.rate * (end - mark) <= l.rate * (end - start + TEN_MILLIS)
  {
    assert end - mark <= end - start + TEN_MILLIS;
    MulMonotone(l.rate, end - mark, end - start + TEN_MILLIS);
  }

  lemma MulMonotone(rate: nat, a: nat, b: nat)
    requires a <= b
    ensures rate * a <= rate * b
  {
  }

  /** The first request of an interval starts a new account at its refill. */
  lemma FirstPaid(l: Limits, b: Bucket, q: Request)
    requires b.lastRefill <= q.first <= q.second && b.available <= l.burst
    ensures var mark := Refill(l, b, q.first, q.second).lastRefill;
            && q.first < mark + TEN_MILLIS && mark <= q.second
            && Paid(l, Charge(l, b, q.bytes, q.first, q.second), mark, Charged(l, b, q.bytes, q.first, q.second))
  {
    FirstRefill(l, b, q);
  }

  lemma EndOfInterval(l: Limits, mark: nat, start: nat, last: nat, refilled: nat, charged: nat)
    requires mark <= refilled <= last && start < mark + TEN_MILLIS && start <= last
    requires SECOND * charged <= SECOND * l.burst + l.rate * (refilled - mark)
    ensures SECOND * charged <= SECOND * l.burst + l.rate * (last - start + TEN_MILLIS)
  {
    RateSplits(l.rate, mark, refilled, last);
    LaterRate(l, start, mark, last);
  }
}
