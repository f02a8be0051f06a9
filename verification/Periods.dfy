/** The bucket arithmetic of periods, and which period a tick publishes. Instants are milliseconds, period
    ids and lengths seconds. */
module Periods {

  /** `Math.floor(a / b)` for a positive divisor, also of negative instants. */
  function Floor(a: int, b: int): (q: int)
    requires b > 0
    ensures q * b <= a < q * b + b
  {
    a / b
  }

  /** `periodIdOf`. */
  function PeriodIdOf(at: int, periodSeconds: int): int
    requires periodSeconds > 0
  {
    var seconds := Floor(at, 1000);
    Floor(seconds, periodSeconds) * periodSeconds
  }

  /** `previousPeriodId`, with the clock as a parameter. */
  function PreviousPeriodId(now: int, periodSeconds: int): int
    requires periodSeconds > 0
  {
    PeriodIdOf(now, periodSeconds) - periodSeconds
  }

  /** p is a period id. */
  predicate IsPeriod(p: int, periodSeconds: int)
    requires periodSeconds > 0
  {
    Floor(p, periodSeconds) * periodSeconds == p
  }

  lemma FloorUnique(a: int, b: int, q: int)
    requires b > 0 && q * b <= a < q * b + b
    ensures Floor(a, b) == q
  {
    var r := Floor(a, b);
    if r < q {
      Multiples(r, q, b);
    } else if r > q {
      Multiples(q, r, b);
    }
  }

  /** Different multiples are at least b apart. */
  lemma Multiples(i: int, j: int, b: int)
    requires b > 0 && i < j
    ensures i * b + b <= j * b
  {
    assert (j - i - 1) * b >= 0;
    assert j * b == i * b + b + (j - i - 1) * b;
  }

  lemma IsPeriodMultiple(q: int, periodSeconds: int)
    requires periodSeconds > 0
    ensures IsPeriod(q * periodSeconds, periodSeconds)
  {
    FloorUnique(q * periodSeconds, periodSeconds, q);
  }

  /** Two different periods are at least one length apart. */
  lemma NextBelow(p: int, q: int, periodSeconds: int)
    requires periodSeconds > 0 && IsPeriod(p, periodSeconds) && IsPeriod(q, periodSeconds) && p < q
    ensures p <= q - periodSeconds
  {
    var i, j := Floor(p, periodSeconds), Floor(q, periodSeconds);
    if j < i {
      Multiples(j, i, periodSeconds);
    } else if i < j {
      Multiples(i, j, periodSeconds);
    }
  }

  /** Buckets partition time: an instant has period p exactly when p is a period id and the instant lies
      in the p-th stretch of `periodSeconds` seconds. */
  lemma Buckets(at: int, periodSeconds: int, p: int)
    requires periodSeconds > 0
    ensures PeriodIdOf(at, periodSeconds) == p
       <==> IsPeriod(p, periodSeconds) && 1000 * p <= at < 1000 * (p + periodSeconds)
  {
    var seconds := Floor(at, 1000);
    var q := Floor(seconds, periodSeconds);
    if PeriodIdOf(at, periodSeconds) == p {
      IsPeriodMultiple(q, periodSeconds);
    }
    if IsPeriod(p, periodSeconds) && 1000 * p <= at < 1000 * (p + periodSeconds) {
      FloorUnique(seconds, periodSeconds, Floor(p, periodSeconds));
    }
  }

  /** The two floors are one: rounding to seconds first changes nothing. */
  lemma NestedFloors(at: int, periodSeconds: int)
    requires periodSeconds > 0
    ensures PeriodIdOf(at, periodSeconds) == Floor(at, 1000 * periodSeconds) * periodSeconds
  {
    var q := Floor(at, 1000 * periodSeconds);
    var p := q * periodSeconds;
    assert q * (1000 * periodSeconds) == 1000 * p;
    IsPeriodMultiple(q, periodSeconds);
    Buckets(at, periodSeconds, p);
  }

  /** A tick publishes p exactly while p is the latest period that has ended: from its end until the end of
      the next one. A chunk that failed is retried by the ticks in that window and by no later one. */
  lemma PublishWindow(now: int, periodSeconds: int, p: int)
    requires periodSeconds > 0
    ensures PreviousPeriodId(now, periodSeconds) == p
       <==> IsPeriod(p, periodSeconds) && 1000 * (p + periodSeconds) <= now < 1000 * (p + 2 * periodSeconds)
  {
    Buckets(now, periodSeconds, p + periodSeconds);
    var q := Floor(p, periodSeconds);
    if IsPeriod(p, periodSeconds) {
      FloorUnique(p + periodSeconds, periodSeconds, q + 1);
    }
    if IsPeriod(p + periodSeconds, periodSeconds) {
      FloorUnique(p, periodSeconds, Floor(p + periodSeconds, periodSeconds) - 1);
    }
  }

  /** `previousPeriodId` is the latest period that has fully elapsed. */
  lemma LatestElapsed(now: int, periodSeconds: int, p: int)
    requires periodSeconds > 0
    ensures IsPeriod(PreviousPeriodId(now, periodSeconds), periodSeconds)
    ensures 1000 * (PreviousPeriodId(now, periodSeconds) + periodSeconds) <= now
    ensures IsPeriod(p, periodSeconds) && 1000 * (p + periodSeconds) <= now ==> p <= PreviousPeriodId(now, periodSeconds)
  {
    var r := PreviousPeriodId(now, periodSeconds);
    PublishWindow(now, periodSeconds, r);
    if IsPeriod(p, periodSeconds) && p > r {
      NextBelow(r, p, periodSeconds);
    }
  }

  // ---- Sequences of ticks ----

  /** Ticks in order of time, no two neighbours more than one period apart. */
  predicate Regular(ticks: seq<int>, periodSeconds: int) {
    forall i :: 0 < i < |ticks| ==> ticks[i - 1] <= ticks[i] <= ticks[i - 1] + 1000 * periodSeconds
  }

  /** From one tick to the next the published period stays or advances by one, for every alignment of the
      ticks, exactly when the gap is at most one period. */
  lemma AdvanceIff(gap: int, periodSeconds: int)
    requires periodSeconds > 0 && gap >= 0
    ensures gap <= 1000 * periodSeconds
       <==> forall t :: PreviousPeriodId(t + gap, periodSeconds) - PreviousPeriodId(t, periodSeconds) in {0, periodSeconds}
  {
    if gap <= 1000 * periodSeconds {
      forall t ensures PreviousPeriodId(t + gap, periodSeconds) - PreviousPeriodId(t, periodSeconds) in {0, periodSeconds} {
        Advance(t, t + gap, periodSeconds);
      }
    } else {
      // A tick in the last millisecond of a period, and the next one too late.
      var p0, p1 := PreviousPeriodId(-1, periodSeconds), PreviousPeriodId(-1 + gap, periodSeconds);
      PublishWindow(-1, periodSeconds, -2 * periodSeconds);
      IsPeriodMultiple(-2, periodSeconds);
      PublishWindow(-1 + gap, periodSeconds, p1);
    }
  }

  lemma Advance(t: int, t': int, periodSeconds: int)
    requires periodSeconds > 0 && t <= t' <= t + 1000 * periodSeconds
    ensures PreviousPeriodId(t', periodSeconds) - PreviousPeriodId(t, periodSeconds) in {0, periodSeconds}
  {
    var p, p' := PreviousPeriodId(t, periodSeconds), PreviousPeriodId(t', periodSeconds);
    PublishWindow(t, periodSeconds, p);
    PublishWindow(t', periodSeconds, p');
    var i, j := Floor(p, periodSeconds), Floor(p', periodSeconds);
    if j < i { Multiples(j, i, periodSeconds); }
    if i < j {
      Multiples(i, j, periodSeconds);
      if i + 1 < j { Multiples(i + 1, j, periodSeconds); }
    }
  }

  /** No period is skipped: with regular ticks, every period from the first published to the last is
      published by some tick. */
  lemma {:induction false} NoneSkipped(ticks: seq<int>, periodSeconds: int, p: int) returns (i: nat)
    requires periodSeconds > 0 && ticks != [] && Regular(ticks, periodSeconds) && IsPeriod(p, periodSeconds)
    requires PreviousPeriodId(ticks[0], periodSeconds) <= p <= PreviousPeriodId(ticks[|ticks| - 1], periodSeconds)
    ensures i < |ticks| && PreviousPeriodId(ticks[i], periodSeconds) == p
  {
    var n := |ticks| - 1;
    var last := PreviousPeriodId(ticks[n], periodSeconds);
    if p == last {
      i := n;
    } else {
      assert n > 0;
      Advance(ticks[n - 1], ticks[n], periodSeconds);
      NextBelow(p, last, periodSeconds) by { PublishWindow(ticks[n], periodSeconds, last); }
      i := NoneSkipped(ticks[..n], periodSeconds, p);
    }
  }
}
