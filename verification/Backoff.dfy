/**
 The reconnect plan of `reconnect.go` (lines 21-109) on durations in nanoseconds, with the wrap-around of
 Go's 64-bit integers written out.
 */
module Backoff {
  import opened Bits

  const SECOND := 1_000_000_000
  const BASE_DELAY := 1_500_000_000
  const MAX_DELAY := 60 * SECOND
  const MAX_JITTER := 1_200_000_000
  const TWO64 := 0x1_0000_0000_0000_0000
  const MAX_INT64 := 0x7FFF_FFFF_FFFF_FFFF

  /** What is left of an integer in 64 signed bits. */
  function Wrap64(x: int): (r: int)
    ensures -MAX_INT64 - 1 <= r <= MAX_INT64
  {
    (x + MAX_INT64 + 1) % TWO64 - MAX_INT64 - 1
  }

  datatype Reason = TryAgainLater | ServiceRestart | GoingAway | Other

  datatype Plan = Plan(delay: int, changeUA: bool, rebuildHttp: bool)

  function Max(a: int, b: int): int {
    if a < b then b else a
  }

  /** `baseDelay * (1 << (failureCount - 1))` as the machine computes it. */
  function Doubled(base: int, count: int): int
    requires count > 1
  {
    Wrap64(base * Wrap64(Pow2(count - 1)))
  }

  function Backoff(base: int, count: int): int {
    if count <= 1 then base
    else
      var expDelay := Doubled(base, count);
      if expDelay > MAX_DELAY then MAX_DELAY else expDelay
  }

  /** The least wait that a close code asks for. */
  function Floor(reason: Reason): int
    requires !reason.Other?
  {
    match reason
    case TryAgainLater => 5 * SECOND
    case ServiceRestart => 3 * SECOND
    case GoingAway => 2 * SECOND
  }

  function Delay(reason: Reason, base: int, count: int): int {
    if reason.Other? then Backoff(base, count) else Max(Backoff(base, count), Floor(reason))
  }

  /** The plan, told by its three answers: the wait is never below what the close code asks for, only the
      second failure in a row or a 1013 may change the user agent, and only the fourth rebuilds the client. */
  function PlanFor(reason: Reason, count: int, base: int, allowUARefresh: bool, configuredCookie: bool): Plan {
    Plan(Delay(reason, base, count), allowUARefresh && !configuredCookie && (count > 1 || reason.TryAgainLater?),
         count > 3)
  }

  method ReconnectPlan(reason: Reason, count: int, base: int, allowUARefresh: bool, configuredCookie: bool)
    returns (plan: Plan)
    ensures plan == PlanFor(reason, count, base, allowUARefresh, configuredCookie)
  {
    var allow := allowUARefresh;
    if configuredCookie { allow := false; }
    var delay := base;
    if count > 1 {
      var expDelay := Wrap64(base * Wrap64(Pow2(count - 1)));
      if expDelay > MAX_DELAY { delay := MAX_DELAY; } else { delay := expDelay; }
    }
    var changeUA, rebuild := false, false;
    if count <= 1 {
      changeUA, rebuild := false, false;
    } else if count <= 3 {
      changeUA, rebuild := allow, false;
    } else {
      changeUA, rebuild := allow, true;
    }
    match reason {
      case TryAgainLater =>
        delay := Max(delay, 5 * SECOND);
        changeUA := true;
      case ServiceRestart => delay := Max(delay, 3 * SECOND);
      case GoingAway => delay := Max(delay, 2 * SECOND);
      case Other =>
    }
    if !allow { changeUA := false; }
    return Plan(delay, changeUA, rebuild);
  }

  // ----- the decision about a read error

  /** The close codes that matter, and errors that carry none. */
  datatype ReadError = CloseSent | CloseFrame(code: int) | Network

  datatype Decision = Stop | Retry(reason: Reason, base: int, allowUARefresh: bool)

  function ReconnectDecision(manualClose: bool, err: ReadError): Decision {
    if manualClose then Stop
    else match err
      case CloseSent => Stop
      case CloseFrame(1000) => Stop
      case CloseFrame(1006) => Retry(Other, BASE_DELAY, true)
      case CloseFrame(1013) => Retry(TryAgainLater, 5 * SECOND, true)
      case CloseFrame(1012) => Retry(ServiceRestart, 3 * SECOND, false)
      case CloseFrame(1001) => Retry(GoingAway, 2 * SECOND, false)
      case CloseFrame(1008) => Stop
      case CloseFrame(1007) => Stop
      case CloseFrame(_) => Retry(Other, BASE_DELAY, true)
      case Network => Retry(Other, BASE_DELAY, true)
  }

  // ----- what the plan amounts to

  /** The delay without a machine: the base doubled for every failure after the first, at most a minute. */
  function Ideal(base: nat, count: int): int
    requires count >= 1
  {
    if base * Pow2(count - 1) > MAX_DELAY then MAX_DELAY else base * Pow2(count - 1)
  }

  lemma WrapFits(x: int)
    ensures Wrap64(x) == x <==> -MAX_INT64 - 1 <= x <= MAX_INT64
  {
  }

  lemma {:induction false} PowMonotone(m: nat, n: nat)
    requires m <= n
    ensures Pow2(m) <= Pow2(n)
    decreases n
  {
    if m < n {
      PowMonotone(m, n - 1);
    }
  }

  lemma Pow30()
    ensures Pow2(30) == 0x4000_0000 && Pow2(31) == 0x8000_0000
  {
    Powers();
    assert Pow2(26) == 4 * Pow2(24);
    assert Pow2(28) == 4 * Pow2(26);
    assert Pow2(30) == 4 * Pow2(28);
  }

  lemma MulMonotone(a: nat, b: nat, m: nat)
    requires a <= b
    ensures m * a <= m * b
  {
  }

  lemma ProductFits(base: nat, count: int)
    requires 0 < base <= 5 * SECOND && 1 <= count <= 31
    ensures 1 <= Pow2(count - 1) <= 0x4000_0000
    ensures base * Pow2(count - 1) <= 5 * SECOND * 0x4000_0000 <= MAX_INT64
  {
    Pow30();
    PowMonotone(count - 1, 30);
    hide Pow2;
    MulMonotone(Pow2(count - 1), 0x4000_0000, base);
    MulMonotone(base, 5 * SECOND, 0x4000_0000);
  }

  /** Up to 31 failures in a row the machine computes the ideal delay for every base of at most 5 seconds. */
  lemma BackoffIsIdeal(base: nat, count: int)
    requires 0 < base <= 5 * SECOND && 1 <= count <= 31
    ensures Backoff(base, count) == Ideal(base, count)
  {
    hide Pow2, Wrap64;
    ProductFits(base, count);
    WrapFits(Pow2(count - 1));
    WrapFits(base * Pow2(count - 1));
    if count == 1 {
      FirstIsBase(base);
    }
  }

  lemma FirstIsBase(base: nat)
    requires base <= MAX_DELAY
    ensures Ideal(base, 1) == base
  {
  }

  /** More failures never shorten the wait, and no wait planned from them exceeds a minute. */
  lemma BackoffGrows(base: nat, c: int, d: int)
    requires 0 < base <= 5 * SECOND && 1 <= c <= d <= 31
    ensures base <= Backoff(base, c) <= Backoff(base, d) <= MAX_DELAY
  {
    BackoffIsIdeal(base, c);
    BackoffIsIdeal(base, d);
    PowMonotone(c - 1, d - 1);
    MulMonotone(Pow2(c - 1), Pow2(d - 1), base);
    MulMonotone(1, Pow2(c - 1), base);
  }

  /** Where the limit of 31 comes from: at the 32nd failure in a row the product overflows for a base of
      5 seconds and the planned wait is negative. */
  lemma BackoffOverflows()
    ensures Backoff(5 * SECOND, 32) < 0
  {
    Pow30();
  }

  lemma {:induction false} PowSum(m: nat, n: nat)
    ensures Pow2(m + n) == Pow2(m) * Pow2(n)
  {
    if m > 0 {
      PowSum(m - 1, n);
    }
  }

  lemma Pow64()
    ensures Pow2(64) == TWO64
  {
    Powers();
    hide Pow2;
    PowSum(16, 16);
    PowSum(32, 32);
  }

  /** `1 << n` keeps no bit from n = 64 on. */
  lemma ShiftedOut(n: nat)
    requires n >= 64
    ensures Wrap64(Pow2(n)) == 0
  {
    hide Pow2;
    PowSum(64, n - 64);
    Pow64();
    WrapShift(0, Pow2(n - 64));
  }

  /** From the 65th failure in a row on there would be no wait at all. */
  lemma BackoffVanishes(base: nat, count: int)
    requires count > 64
    ensures Backoff(base, count) == 0
  {
    hide Pow2;
    ShiftedOut(count - 1);
    assert base * 0 == 0;
    WrapFits(0);
  }

  /** For every base and count: the machine's delay is the ideal one exactly when the product fits into
      64 bits, or what is left of it is still a minute or more. */
  lemma BackoffIsIdealIff(base: nat, count: int)
    requires 0 < base <= MAX_DELAY && count > 1
    ensures Backoff(base, count) == Ideal(base, count) <==>
            base * Pow2(count - 1) <= MAX_INT64 || Wrap64(base * Pow2(count - 1)) >= MAX_DELAY
  {
    hide Pow2;
    WrapProduct(base, Pow2(count - 1));
    var product: int := base * Pow2(count - 1);
    assert 0 <= product;
    assert Doubled(base, count) == Wrap64(product);
    hide Wrap64;
    WrapFits(product);
  }

  lemma WrapProduct(a: int, b: int)
    ensures Wrap64(a * Wrap64(b)) == Wrap64(a * b)
  {
    var q := (b + MAX_INT64 + 1) / TWO64;
    assert b == Wrap64(b) + q * TWO64;
    assert a * b == a * Wrap64(b) + (a * q) * TWO64;
    WrapShift(a * Wrap64(b), a * q);
  }

  lemma WrapShift(x: int, q: int)
    ensures Wrap64(x + q * TWO64) == Wrap64(x)
  {
  }

  /** The wait after a first failure, jitter included, for every error that is retried. */
  lemma FirstWait(err: ReadError, jitter: nat)
    requires jitter < MAX_JITTER && ReconnectDecision(false, err).Retry?
    ensures var d := ReconnectDecision(false, err);
            BASE_DELAY <= Delay(d.reason, d.base, 1) + jitter < 5 * SECOND + MAX_JITTER
  {
  }
}
