/** Re-issuing a connect after a transient disconnect (reconnect.go). */
module Reconnect {
  import opened Basics

  const MAX_RECONNECTS := 4

  /** The substring tests on an error text. */
  datatype Classifier = Classifier(
    contextLimit: string -> bool, imageRejection: string -> bool, serverStatus: string -> bool, transport: string -> bool)

  predicate ShouldReconnect(c: Classifier, alive: bool, error: string) {
    alive && !c.contextLimit(error) && !c.imageRejection(error) && !c.serverStatus(error) && c.transport(error)
  }

  /** The provider and the clock as seen by one run: what the k-th connect answers, whether the
      run is still alive right behind it, and whether the wait behind it is sat out. */
  datatype Link<T> = Link(connect: nat -> Result<T>, alive: nat -> bool, waits: nat -> bool)

  /** The k-th connect failed, and another one follows. */
  predicate Retried<T>(c: Classifier, link: Link<T>, k: nat) {
    link.connect(k).Err? && ShouldReconnect(c, link.alive(k), link.connect(k).error) && link.waits(k)
  }

  /** The connects from the `n`-th on end with the one before the `calls`-th, which answered `r`. */
  ghost predicate Streamed<T>(c: Classifier, link: Link<T>, n: nat, r: Result<T>, calls: nat) {
    && n < calls <= n + 1 + MAX_RECONNECTS
    && r == link.connect(calls - 1)
    && (forall k :: n <= k < calls - 1 ==> Retried(c, link, k))
    && (r.Err? ==> calls == n + 1 + MAX_RECONNECTS || !Retried(c, link, calls - 1))
  }

  lemma NotLonger<T>(c: Classifier, link: Link<T>, n: nat, r: Result<T>, calls: nat, r': Result<T>, calls': nat)
    requires Streamed(c, link, n, r, calls) && Streamed(c, link, n, r', calls')
    ensures calls' <= calls
  {
    EndsHere(c, link, n, r, calls);
  }

  lemma EndsHere<T>(c: Classifier, link: Link<T>, n: nat, r: Result<T>, calls: nat)
    requires Streamed(c, link, n, r, calls)
    ensures calls == n + 1 + MAX_RECONNECTS || !Retried(c, link, calls - 1)
  {
  }

  /** Which connect that is, is settled. */
  lemma StreamedOnce<T>(c: Classifier, link: Link<T>, n: nat, r: Result<T>, calls: nat, r': Result<T>, calls': nat)
    requires Streamed(c, link, n, r, calls) && Streamed(c, link, n, r', calls')
    ensures r == r' && calls == calls'
  {
    NotLonger(c, link, n, r, calls, r', calls');
    NotLonger(c, link, n, r', calls', r, calls);
  }

  /** That connect, with `left` retries to go, and how many connects were made up to it. */
  function Streaming<T>(c: Classifier, link: Link<T>, n: nat, left: nat): (Result<T>, nat)
    decreases left
  {
    if left == 0 || !Retried(c, link, n) then (link.connect(n), n + 1) else Streaming(c, link, n + 1, left - 1)
  }

  lemma {:induction false} StreamingEnds<T>(c: Classifier, link: Link<T>, n: nat, left: nat)
    ensures var (r, calls) := Streaming(c, link, n, left);
      && n < calls <= n + 1 + left && r == link.connect(calls - 1)
      && (forall k :: n <= k < calls - 1 ==> Retried(c, link, k))
      && (r.Err? ==> calls == n + 1 + left || !Retried(c, link, calls - 1))
    decreases left
  {
    if left > 0 && Retried(c, link, n) {
      StreamingEnds(c, link, n + 1, left - 1);
    }
  }

  lemma StreamingIsStreamed<T>(c: Classifier, link: Link<T>, n: nat, r: Result<T>, calls: nat)
    ensures Streamed(c, link, n, r, calls) <==> (r, calls) == Streaming(c, link, n, MAX_RECONNECTS)
  {
    StreamingEnds(c, link, n, MAX_RECONNECTS);
    var (r', calls') := Streaming(c, link, n, MAX_RECONNECTS);
    if Streamed(c, link, n, r, calls) {
      StreamedOnce(c, link, n, r, calls, r', calls');
    }
  }

  /** streamWithReconnect, `n` connects into the run. At most five connects; the last answer is
      the one returned; every earlier one was a transient failure of a live run; and the method
      gives up only after the fifth or on a failure that is not to be retried. */
  method StreamWithReconnect<T>(c: Classifier, link: Link<T>, n: nat) returns (r: Result<T>, calls: nat)
    ensures Streamed(c, link, n, r, calls)
  {
    r, calls := link.connect(n), n + 1;
    if r.Ok? {
      return;
    }
    for attempt := 1 to MAX_RECONNECTS + 1
      invariant calls == n + attempt
      invariant r == link.connect(calls - 1) && r.Err?
      invariant forall k :: n <= k < calls - 1 ==> Retried(c, link, k)
    {
      if !ShouldReconnect(c, link.alive(calls - 1), r.error) {
        return;
      }
      if !link.waits(calls - 1) {
        return;
      }
      r, calls := link.connect(calls), calls + 1;
      if r.Ok? {
        return;
      }
    }
  }

  // ---- the delays ----

  /** time.Duration: nanoseconds in 64 bits. */
  newtype Duration = x: int | -0x8000_0000_0000_0000 <= x < 0x8000_0000_0000_0000

  const RECONNECT_MAX: Duration := 8_000_000_000

  function Pow2(n: nat): nat {
    if n == 0 then 1 else 2 * Pow2(n - 1)
  }

  function Min(a: int, b: int): int {
    if a <= b then a else b
  }

  lemma {:induction false} Pow2Grows(a: nat, b: nat)
    requires a <= b
    ensures 1 <= Pow2(a) <= Pow2(b)
    decreases b
  {
    if a < b {
      Pow2Grows(a, b - 1);
    } else if a > 0 {
      Pow2Grows(a - 1, a - 1);
    }
  }

  lemma CappedStays(base: nat, cap: nat, a: nat, b: nat)
    requires a <= b && base * Pow2(a) >= cap
    ensures base * Pow2(b) >= cap
  {
    hide Pow2;
    Pow2Grows(a, b);
    TimesGrows(base, Pow2(a), Pow2(b));
  }

  lemma TimesGrows(base: nat, x: nat, y: nat)
    requires x <= y
    ensures base * x <= base * y
  {
  }

  lemma NotYetDoubled(base: nat)
    ensures base * Pow2(0) == base
  {
  }

  lemma Doubled(base: nat, i: nat)
    ensures 2 * (base * Pow2(i)) == base * Pow2(i + 1)
  {
  }

  /** backoffFor: the doubling is cut off in time, so nothing overflows, and the result is the
      capped power whatever the attempt number. */
  method BackoffFor(base: Duration, attempt: int) returns (d: Duration)
    requires 0 < base
    ensures d as int == Min(base as int * Pow2(if attempt < 1 then 0 else attempt - 1), RECONNECT_MAX as int)
  {
    hide Pow2;
    NotYetDoubled(base as int);
    d := base;
    var i := 1;
    while i < attempt
      invariant 1 <= i && (i <= attempt || i == 1)
      invariant d as int == base as int * Pow2(i - 1)
      invariant d == base || d < 2 * RECONNECT_MAX
    {
      if d >= RECONNECT_MAX {
        CappedStays(base as int, RECONNECT_MAX as int, i - 1, attempt - 1);
        return RECONNECT_MAX;
      }
      Doubled(base as int, i - 1);
      d := d * 2;
      i := i + 1;
    }
    if d > RECONNECT_MAX {
      d := RECONNECT_MAX;
    }
  }

  /** jitteredBackoff, `roll` being the random draw: never shorter than the base delay, at most
      half as long again, and within 64 bits. */
  method JitteredBackoff(base: Duration, attempt: int, roll: nat -> nat) returns (d: Duration)
    requires 0 < base
    requires forall n: nat :: n > 0 ==> roll(n) < n
    ensures var b := Min(base as int * Pow2(if attempt < 1 then 0 else attempt - 1), RECONNECT_MAX as int);
      b <= d as int <= b + b / 2
  {
    var b := BackoffFor(base, attempt);
    d := b;
    assert 0 < b by {
      Pow2Grows(0, if attempt < 1 then 0 else attempt - 1);
    }
    var extra := roll(b as int / 2 + 1);
    d := b + extra as Duration;
  }
}
