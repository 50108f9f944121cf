/** The GCRA limiter for the unknown-identity warning (src/rate_limit.rs): virtual scheduling as in
    annex A of ITU-T I.371, against a bucket that counts credit. Time is an integer clock. */
module RateLimit {
  import opened Prelude

  const U64_MAX := 0xFFFF_FFFF_FFFF_FFFF

  type U64 = n: int | 0 <= n <= U64_MAX

  datatype Rates = Rates(interval: nat, tolerance: nat)

  datatype Gcra = Gcra(tat: int, suppressed: U64)

  function Max(a: int, b: int): int {
    if a < b then b else a
  }

  function Min(a: int, b: int): int {
    if a < b then a else b
  }

  predicate Conforms(q: Rates, b: Gcra, now: int) {
    b.tat <= now + q.tolerance
  }

  function After(q: Rates, b: Gcra, now: int): Gcra {
    if Conforms(q, b, now) then Gcra(Max(b.tat, now) + q.interval, 0)
    else b.(suppressed := Min(b.suppressed + 1, U64_MAX))
  }

  class TokenBucket {
    const rates: Rates
    var tat: int
    var suppressed: U64

    constructor (rates: Rates, now: int)
      ensures this.rates == rates && Contents() == Gcra(now, 0)
    {
      this.rates := rates;
      tat, suppressed := now, 0;
    }

    ghost function Contents(): Gcra
      reads this
    {
      Gcra(tat, suppressed)
    }

    method TryAcquire(now: int) returns (r: Option<U64>)
      modifies this
      ensures Contents() == After(rates, old(Contents()), now)
      ensures r == if Conforms(rates, old(Contents()), now) then Some(old(suppressed)) else None
    {
      if tat <= now + rates.tolerance {
        tat := (if tat < now then now else tat) + rates.interval;
        r := Some(suppressed);
        suppressed := 0;
      } else {
        suppressed := if suppressed == U64_MAX then U64_MAX else suppressed + 1;
        r := None;
      }
    }
  }

  // ----- runs --------------------------------------------------------------

  ghost predicate Monotone(times: seq<int>) {
    forall i, j | 0 <= i < j < |times| :: times[i] <= times[j]
  }

  /** The bucket after attempts at these clock readings. */
  function RunFrom(q: Rates, b: Gcra, times: seq<int>): Gcra {
    if times == [] then b else After(q, RunFrom(q, b, times[..|times| - 1]), times[|times| - 1])
  }

  /** Whether attempt `i` is admitted. */
  predicate Admits(q: Rates, b: Gcra, times: seq<int>, i: nat)
    requires i < |times|
  {
    Conforms(q, RunFrom(q, b, times[..i]), times[i])
  }

  // ----- the credit bucket -------------------------------------------------

  /** Credit accrues at one unit per unit of time up to tolerance + interval; an event costs one
      interval. */
  datatype Credit = Credit(level: int, at: int)

  function Capacity(q: Rates): nat {
    q.tolerance + q.interval
  }

  function Refilled(q: Rates, c: Credit, now: int): int {
    Min(Capacity(q), c.level + (now - c.at))
  }

  predicate Affords(q: Rates, c: Credit, now: int) {
    Refilled(q, c, now) >= q.interval
  }

  function Spend(q: Rates, c: Credit, now: int): Credit {
    Credit(Refilled(q, c, now) - (if Affords(q, c, now) then q.interval else 0), now)
  }

  function CreditFrom(q: Rates, c: Credit, times: seq<int>): Credit {
    if times == [] then c else Spend(q, CreditFrom(q, c, times[..|times| - 1]), times[|times| - 1])
  }

  /** The two buckets stand for each other. */
  ghost predicate Matches(q: Rates, b: Gcra, c: Credit) {
    c.level == Capacity(q) - Max(b.tat - c.at, 0) && 0 <= c.level
  }

  /** One attempt: same decision, and they still match. */
  lemma StepMatches(q: Rates, b: Gcra, c: Credit, now: int)
    requires Matches(q, b, c) && c.at <= now
    ensures Conforms(q, b, now) <==> Affords(q, c, now)
    ensures Matches(q, After(q, b, now), Spend(q, c, now))
  {}

  lemma {:induction false} RunMatches(q: Rates, start: int, times: seq<int>)
    requires Monotone([start] + times)
    ensures Matches(q, RunFrom(q, Gcra(start, 0), times), CreditFrom(q, Credit(Capacity(q), start), times))
    ensures CreditFrom(q, Credit(Capacity(q), start), times).at == ([start] + times)[|times|]
    decreases |times|
  {
    if times != [] {
      var n := |times| - 1;
      assert ([start] + times)[n] <= ([start] + times)[n + 1];
      assert [start] + times[..n] == ([start] + times)[..n + 1];
      RunMatches(q, start, times[..n]);
      assert ([start] + times[..n])[n] == ([start] + times)[n];
      StepMatches(q, RunFrom(q, Gcra(start, 0), times[..n]), CreditFrom(q, Credit(Capacity(q), start), times[..n]),
          times[n]);
    }
  }

  /** GCRA is a token bucket: on every monotone sequence of attempts, each is admitted exactly when the
      full-at-the-start credit bucket can afford it. */
  lemma AdmitsIffAffords(q: Rates, start: int, times: seq<int>, i: nat)
    requires Monotone([start] + times) && i < |times|
    ensures Admits(q, Gcra(start, 0), times, i) <==> Affords(q, CreditFrom(q, Credit(Capacity(q), start), times[..i]), times[i])
  {
    assert [start] + times[..i] == ([start] + times)[..i + 1];
    RunMatches(q, start, times[..i]);
    assert ([start] + times[..i])[i] == ([start] + times)[i];
    assert ([start] + times)[i] <= ([start] + times)[i + 1];
    StepMatches(q, RunFrom(q, Gcra(start, 0), times[..i]), CreditFrom(q, Credit(Capacity(q), start), times[..i]),
        times[i]);
  }

  // ----- admissions in a window --------------------------------------------

  /** How many of the attempts are admitted, starting from `b`. */
  function Admitted(q: Rates, b: Gcra, times: seq<int>): nat
    decreases |times|
  {
    if times == [] then 0
    else (if Conforms(q, b, times[0]) then 1 else 0) + Admitted(q, After(q, b, times[0]), times[1..])
  }

  lemma {:induction false} AdmittedCost(q: Rates, b: Gcra, times: seq<int>)
    requires Monotone(times) && times != []
    ensures Admitted(q, b, times) * q.interval
         <= Max(0, times[|times| - 1] + Capacity(q) - Max(b.tat, times[0]))
    decreases |times|
  {
    var rest := times[1..];
    assert times[0] <= times[|times| - 1];
    if rest != [] {
      AdmittedCost(q, After(q, b, times[0]), rest);
    }
    var later := Admitted(q, After(q, b, times[0]), rest);
    assert (1 + later) * q.interval == q.interval + later * q.interval;
  }

  /** In any window of any run, whatever came before it, at most 1 + (W + tolerance) / interval
      attempts are admitted, W being the time the window spans. */
  lemma WindowBound(q: Rates, before: Gcra, window: seq<int>)
    requires Monotone(window) && window != [] && q.interval > 0
    ensures Admitted(q, before, window) <= 1 + (window[|window| - 1] - window[0] + q.tolerance) / q.interval
  {
    AdmittedCost(q, before, window);
    assert window[0] <= window[|window| - 1];
    var (n, x) := (Admitted(q, before, window), window[|window| - 1] - window[0] + q.tolerance);
    assert (n - 1) * q.interval == n * q.interval - q.interval <= x;
    DivBound(n - 1, q.interval, x);
  }

  lemma DivBound(n: int, d: nat, x: nat)
    requires d > 0 && n * d <= x
    ensures n <= x / d
  {
    var m := x / d;
    assert x < (m + 1) * d by { assert x == m * d + x % d; }
    assert n <= m || (m + 1) * d <= n * d by {
      if n > m { MulLe(m + 1, n, d); }
    }
  }

  /** Windows of a run are windows of this kind: a run splits at any point. */
  lemma {:induction false} AdmittedSplits(q: Rates, b: Gcra, first: seq<int>, second: seq<int>)
    ensures Admitted(q, b, first + second) == Admitted(q, b, first) + Admitted(q, RunFrom(q, b, first), second)
    decreases |second|
  {
    if second == [] {
      assert first + second == first;
    } else {
      AdmittedSnoc(q, b, first, second[0]);
      AdmittedSplits(q, b, first + [second[0]], second[1..]);
      assert first + second == (first + [second[0]]) + second[1..];
      assert (first + [second[0]])[..|first|] == first;
    }
  }

  lemma {:induction false} AdmittedSnoc(q: Rates, b: Gcra, times: seq<int>, t: int)
    ensures Admitted(q, b, times + [t]) == Admitted(q, b, times) + if Conforms(q, RunFrom(q, b, times), t) then 1 else 0
    decreases |times|
  {
    if times == [] {
      assert [t][1..] == [];
    } else {
      assert (times + [t])[1..] == times[1..] + [t];
      AdmittedSnoc(q, After(q, b, times[0]), times[1..], t);
      RunCons(q, b, times);
    }
  }

  lemma {:induction false} RunCons(q: Rates, b: Gcra, times: seq<int>)
    requires times != []
    ensures RunFrom(q, b, times) == RunFrom(q, After(q, b, times[0]), times[1..])
    decreases |times|
  {
    var n := |times| - 1;
    if n > 0 {
      RunCons(q, b, times[..n]);
      assert times[..n][1..] == times[1..][..n - 1];
    } else {
      assert times[..0] == [];
      assert RunFrom(q, b, times[..0]) == b;
    }
  }

  // ----- the burst ---------------------------------------------------------

  lemma MulLe(a: int, b: int, d: nat)
    requires a <= b
    ensures a * d <= b * d
  {}

  lemma MulNext(a: int, d: nat)
    ensures a * d == (a - 1) * d + d
  {}

  /** One more attempt at `now`, `i` having been made. */
  lemma BurstStep(q: Rates, burst: nat, before: Gcra, now: int, i: nat)
    requires burst > 0 && q.tolerance == (burst - 1) * q.interval
    requires if i == 0 then before.tat <= now else before.tat == now + Min(i, burst) * q.interval
    ensures After(q, before, now).tat == now + Min(i + 1, burst) * q.interval
  {
    if i < burst {
      MulLe(i, burst - 1, q.interval);
      MulLe(0, i, q.interval);
      MulNext(i + 1, q.interval);
      if i == 0 {
        MulLe(0, burst - 1, q.interval);
      }
    } else {
      MulNext(burst, q.interval);
      assert q.interval == 0 || !Conforms(q, before, now);
    }
  }

  /** The theoretical arrival time after `i` attempts at once stops after `burst` of them. */
  lemma {:induction false} BurstTat(q: Rates, burst: nat, b: Gcra, now: int, i: nat)
    requires burst > 0 && q.tolerance == (burst - 1) * q.interval && b.tat <= now
    ensures i == 0 ==> RunFrom(q, b, seq(i, _ => now)).tat <= now
    ensures i > 0 ==> RunFrom(q, b, seq(i, _ => now)).tat == now + Min(i, burst) * q.interval
  {
    if i > 0 {
      BurstTat(q, burst, b, now, i - 1);
      assert seq(i, _ => now)[..i - 1] == seq(i - 1, _ => now);
      BurstStep(q, burst, RunFrom(q, b, seq(i - 1, _ => now)), now, i - 1);
    }
  }

  /** From any bucket idle long enough, a tolerance of (burst - 1) intervals admits exactly the first
      `burst` of any number of simultaneous attempts. */
  lemma BurstIsExact(q: Rates, burst: nat, b: Gcra, now: int, count: nat, i: nat)
    requires q.interval > 0 && burst > 0 && q.tolerance == (burst - 1) * q.interval && b.tat <= now && i < count
    ensures Admits(q, b, seq(count, _ => now), i) <==> i < burst
  {
    var (times, before) := (seq(count, _ => now), RunFrom(q, b, seq(i, _ => now)));
    assert times[..i] == seq(i, _ => now);
    BurstTat(q, burst, b, now, i);
    assert Admits(q, b, times, i) == (before.tat <= now + q.tolerance);
    if i < burst {
      MulLe(i, burst - 1, q.interval);
    } else {
      assert burst * q.interval == (burst - 1) * q.interval + q.interval;
    }
  }

  /** The daemon's budget for the warning, with `second` clock units to the second: a burst of ten, then
      one every six seconds. */
  function UnknownIdentity(second: nat): Rates {
    Rates(6 * second, 9 * (6 * second))
  }

  lemma DivAdds(x: nat, n: nat, d: nat)
    requires d > 0
    ensures (x + n * d) / d == x / d + n
  {
    var (a, b) := (x / d, (x + n * d) / d);
    assert x == a * d + x % d && x + n * d == b * d + (x + n * d) % d;
    DivBound(a + n, d, x + n * d) by { assert (a + n) * d == a * d + n * d; }
    DivBound(b - n, d, x) by { assert (b - n) * d == b * d - n * d; }
  }

  lemma UnknownIdentityBudget(second: nat, before: Gcra, window: seq<int>, now: int, count: nat, i: nat)
    requires second > 0 && Monotone(window) && window != [] && i < count
    ensures Admits(UnknownIdentity(second), Gcra(now, 0), seq(count, _ => now), i) <==> i < 10
    ensures Admitted(UnknownIdentity(second), before, window) <= 10 + (window[|window| - 1] - window[0]) / (6 * second)
  {
    BurstIsExact(UnknownIdentity(second), 10, Gcra(now, 0), now, count, i);
    WindowBound(UnknownIdentity(second), before, window);
    assert window[0] <= window[|window| - 1];
    DivAdds(window[|window| - 1] - window[0], 9, 6 * second);
  }

  // ----- the suppressed count ----------------------------------------------

  /** Rejections since the last admission before attempt `i`. */
  function Gap(q: Rates, b: Gcra, times: seq<int>, i: nat): nat
    requires i <= |times|
  {
    if i == 0 || Admits(q, b, times, i - 1) then 0 else 1 + Gap(q, b, times, i - 1)
  }

  /** What an admission reports is the number of rejections since the one before, saturated at the
      width of the counter. */
  lemma {:induction false} ReportsTheGap(q: Rates, start: int, times: seq<int>, i: nat)
    requires i <= |times|
    ensures RunFrom(q, Gcra(start, 0), times[..i]).suppressed == Min(Gap(q, Gcra(start, 0), times, i), U64_MAX)
  {
    if i > 0 {
      ReportsTheGap(q, start, times, i - 1);
      assert times[..i][..i - 1] == times[..i - 1];
    } else {
      assert times[..0] == [];
    }
  }

  /** Everything reported by the admissions among the first `i` attempts. */
  function Reported(q: Rates, b: Gcra, times: seq<int>, i: nat): nat
    requires i <= |times|
  {
    if i == 0 then 0
    else Reported(q, b, times, i - 1) + if Admits(q, b, times, i - 1) then RunFrom(q, b, times[..i - 1]).suppressed else 0
  }

  function Rejected(q: Rates, b: Gcra, times: seq<int>, i: nat): nat
    requires i <= |times|
  {
    if i == 0 then 0 else Rejected(q, b, times, i - 1) + if Admits(q, b, times, i - 1) then 0 else 1
  }

  /** Conservation, while the counter has not saturated: reported plus pending is all that was
      rejected. */
  lemma {:induction false} SuppressedIsConserved(q: Rates, start: int, times: seq<int>, i: nat)
    requires i <= |times| && i <= U64_MAX
    ensures Reported(q, Gcra(start, 0), times, i) + RunFrom(q, Gcra(start, 0), times[..i]).suppressed
         == Rejected(q, Gcra(start, 0), times, i) <= i
  {
    if i > 0 {
      SuppressedIsConserved(q, start, times, i - 1);
      assert times[..i][..i - 1] == times[..i - 1];
    } else {
      assert times[..0] == [];
    }
  }
}
