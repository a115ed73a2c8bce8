/** Retry delays: an exponential with a cap (both send workers) and, for the
    WhatsApp worker, a jitter of up to a quarter added before rounding. */
module Backoff {

  const BASE_DELAY_SECONDS := 5
  const MAX_DELAY_SECONDS := 300

  function Pow2(n: nat): (r: nat)
    ensures r >= 1
  {
    if n == 0 then 1 else 2 * Pow2(n - 1)
  }

  function Min(a: nat, b: nat): nat {
    if a <= b then a else b
  }

  /** The delay before jitter: base * 2^attempt, capped. */
  function CappedDelay(attempt: nat): nat {
    Min(BASE_DELAY_SECONDS * Pow2(attempt), MAX_DELAY_SECONDS)
  }

  /** JavaScript's Math.round on a non-negative number: halves go up. */
  function Round(x: real): int {
    (x + 0.5).Floor
  }

  /** calculateBackoffDelay; `draw` is the value Math.random() returned. */
  function BackoffDelay(attempt: nat, draw: real): int {
    Round(Jittered(CappedDelay(attempt) as real, draw))
  }

  function Jittered(delay: real, draw: real): real {
    delay + delay * 0.25 * draw
  }

  function TotalDelay(n: nat): nat {
    if n == 0 then 0 else TotalDelay(n - 1) + CappedDelay(n - 1)
  }

  lemma {:induction false} Pow2Monotone(a: nat, b: nat)
    requires a <= b
    ensures Pow2(a) <= Pow2(b)
    decreases b
  {
    if a < b {
      Pow2Monotone(a, b - 1);
    }
  }

  lemma Pow2Six()
    ensures Pow2(6) == 64 && Pow2(5) == 32
  {
    assert Pow2(1) == 2;
    assert Pow2(2) == 4;
    assert Pow2(3) == 8;
    assert Pow2(4) == 16;
  }

  /** Later retries never wait less, no retry waits more than the cap, and the
      cap is reached at the seventh attempt and not before. */
  lemma CappedDelayMonotone(a: nat, b: nat)
    requires a <= b
    ensures CappedDelay(a) <= CappedDelay(b) <= MAX_DELAY_SECONDS
    ensures CappedDelay(a) == MAX_DELAY_SECONDS <==> a >= 6
  {
    Pow2Monotone(a, b);
    Pow2Six();
    if a >= 6 {
      Pow2Monotone(6, a);
    } else {
      Pow2Monotone(a, 5);
    }
  }

  /** Closed form of the time n consecutive retries wait for, before jitter. */
  lemma {:induction false} TotalDelayClosedForm(n: nat)
    ensures TotalDelay(n) == if n <= 6 then BASE_DELAY_SECONDS * (Pow2(n) - 1) else 315 + MAX_DELAY_SECONDS * (n - 6)
  {
    Pow2Six();
    if n > 0 {
      TotalDelayClosedForm(n - 1);
      CappedDelayMonotone(n - 1, n - 1);
    }
  }

  /** Whatever Math.random() returns, the rounded delay lies between the
      unjittered delay and five quarters of it rounded, hence below 376. */
  lemma JitterBounds(attempt: nat, draw: real)
    requires 0.0 <= draw < 1.0
    ensures CappedDelay(attempt) <= BackoffDelay(attempt, draw)
    ensures BackoffDelay(attempt, draw) <= Round(CappedDelay(attempt) as real * 1.25) <= 375
  {
    hide Jittered, CappedDelay;
    CappedDelayMonotone(attempt, attempt);
    var delay := CappedDelay(attempt) as real;
    JitteredBetween(delay, draw);
    RoundMonotone(delay, Jittered(delay, draw));
    RoundMonotone(Jittered(delay, draw), delay * 1.25);
    RoundMonotone(delay * 1.25, 375.0);
  }

  /** The delays before jitter: 5, 10, 20, 40, 80, 160 and from then on 300 seconds. */
  lemma DelayTable(attempt: nat)
    ensures attempt <= 5 ==> CappedDelay(attempt) == [5, 10, 20, 40, 80, 160][attempt]
    ensures attempt >= 6 ==> CappedDelay(attempt) == 300
  {
    CappedDelayMonotone(attempt, attempt);
    Pow2Six();
    assert Pow2(1) == 2 && Pow2(2) == 4 && Pow2(3) == 8 && Pow2(4) == 16;
  }

  /** The jitter is exactly the drawn part of a quarter: the delay returned is the whole
      number nearest to the delay times 1 + draw/4, the upper one of two. */
  lemma JitterExact(attempt: nat, draw: real)
    requires 0.0 <= draw < 1.0
    ensures var n := BackoffDelay(attempt, draw) as real;
            n - 0.5 <= CappedDelay(attempt) as real * (4.0 + draw) / 4.0 < n + 0.5
  {
    hide CappedDelay;
    var delay := CappedDelay(attempt) as real;
    assert delay * (4.0 + draw) / 4.0 == Jittered(delay, draw) by {
      assert delay * (4.0 + draw) == 4.0 * delay + delay * draw;
      assert delay * 0.25 * draw == delay * draw / 4.0;
    }
  }

  lemma RoundMonotone(x: real, y: real)
    requires x <= y
    ensures Round(x) <= Round(y)
  {
  }

  lemma JitteredBetween(delay: real, draw: real)
    requires 0.0 <= delay && 0.0 <= draw < 1.0
    ensures delay <= Jittered(delay, draw) <= delay * 1.25
  {
    var quarter := delay * 0.25;
    ProductNonNegative(quarter, draw);
    ProductNonNegative(quarter, 1.0 - draw);
  }

  lemma ProductNonNegative(x: real, y: real)
    requires 0.0 <= x && 0.0 <= y
    ensures 0.0 <= x * y
  {
  }
}
