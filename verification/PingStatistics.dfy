/**
  The running statistics of the pinger: minimum, maximum, a mean kept by truncating divisions and the sum
  of squared deviations, over unbounded integers and over the 64-bit integers of the program.
*/
module PingStatistics {
  import opened Int64

  /** Durations are in nanoseconds.  `recv` counts the packets received. */
  datatype Statistics = Statistics(recv: nat, rtts: seq<int>, minRtt: int, maxRtt: int, avgRtt: int, stddevm2: int)

  const NO_PACKETS := Statistics(0, [], 0, 0, 0, 0)

  function Update(s: Statistics, rtt: int): Statistics {
    var recv := s.recv + 1;
    var delta := rtt - s.avgRtt;
    var avg := s.avgRtt + Quotient(delta, recv);
    Statistics(recv, s.rtts + [rtt],
               if recv == 1 || rtt < s.minRtt then rtt else s.minRtt,
               if rtt > s.maxRtt then rtt else s.maxRtt,
               avg, s.stddevm2 + delta * (rtt - avg))
  }

  function Of(rtts: seq<int>): Statistics {
    if rtts == [] then NO_PACKETS else Update(Of(rtts[..|rtts| - 1]), rtts[|rtts| - 1])
  }

  function Sum(rtts: seq<int>): int {
    if rtts == [] then 0 else Sum(rtts[..|rtts| - 1]) + rtts[|rtts| - 1]
  }

  function Abs(x: int): nat {
    if x < 0 then -x else x
  }

  lemma ProductGrows(b: nat, q: nat)
    requires b > 0
    ensures q <= b * q
  {
  }

  lemma NaturalQuotient(n: nat, b: nat)
    requires b > 0
    ensures 0 <= n / b <= n && 0 <= n - b * (n / b) < b
  {
    var q, r := n / b, n % b;
    assert n == b * q + r;
    ProductGrows(b, q);
  }

  /** The remainder is smaller than the divisor, and the truncated quotient has the sign of the dividend. */
  lemma QuotientBounds(a: int, b: nat)
    requires b > 0
    ensures Abs(a - b * Quotient(a, b)) < b
    ensures a >= 0 ==> 0 <= Quotient(a, b) <= a && b * Quotient(a, b) <= a
    ensures a <= 0 ==> a <= Quotient(a, b) <= 0 && a <= b * Quotient(a, b)
  {
    if a >= 0 {
      NaturalQuotient(a, b);
    } else {
      NaturalQuotient(-a, b);
      assert b * -(-a / b) == -(b * (-a / b));
    }
  }

  lemma SameSign(a: int, b: int)
    requires (a >= 0 && b >= 0) || (a <= 0 && b <= 0)
    ensures a * b >= 0
  {
  }

  /** The mean moves towards the new value and not past it. */
  lemma UpdateMovesTowards(s: Statistics, rtt: int)
    ensures s.avgRtt <= rtt ==> s.avgRtt <= Update(s, rtt).avgRtt <= rtt
    ensures s.avgRtt >= rtt ==> s.avgRtt >= Update(s, rtt).avgRtt >= rtt
    ensures s.recv == 0 ==> Update(s, rtt).avgRtt == rtt
  {
    QuotientBounds(rtt - s.avgRtt, s.recv + 1);
  }

  /** The sum of squared deviations never decreases, so that the square root is defined. */
  lemma DeviationGrows(s: Statistics, rtt: int)
    ensures Update(s, rtt).stddevm2 >= s.stddevm2
  {
    UpdateMovesTowards(s, rtt);
    SameSign(rtt - s.avgRtt, rtt - Update(s, rtt).avgRtt);
  }

  /** The extremes are those of the values seen, with zero for the maximum. */
  ghost predicate Extremes(s: Statistics, rtts: seq<int>) {
    && s.recv == |rtts| && s.rtts == rtts
    && (rtts != [] ==> s.minRtt in rtts)
    && (s.maxRtt == 0 || s.maxRtt in rtts)
    && forall r :: r in rtts ==> s.minRtt <= r <= s.maxRtt
  }

  lemma UpdateKeepsExtremes(s: Statistics, rtts: seq<int>, rtt: int)
    requires Extremes(s, rtts)
    ensures Extremes(Update(s, rtt), rtts + [rtt])
  {
  }

  lemma {:induction false} ExtremesAreAttained(rtts: seq<int>)
    ensures Extremes(Of(rtts), rtts)
  {
    if rtts != [] {
      var init, last := rtts[..|rtts| - 1], rtts[|rtts| - 1];
      ExtremesAreAttained(init);
      UpdateKeepsExtremes(Of(init), init, last);
      assert init + [last] == rtts;
    }
  }

  /** The mean lies between the extremes, and the sum of squared deviations is not negative. */
  predicate Ordered(s: Statistics) {
    (s.recv > 0 ==> s.minRtt <= s.avgRtt <= s.maxRtt) && s.stddevm2 >= 0 && s.maxRtt >= 0
  }

  lemma UpdateKeepsOrdered(s: Statistics, rtt: int)
    requires Ordered(s) && (s.recv == 0 ==> s.avgRtt == 0)
    ensures Ordered(Update(s, rtt))
  {
    UpdateMovesTowards(s, rtt);
    DeviationGrows(s, rtt);
  }

  lemma {:induction false} MeanIsBetween(rtts: seq<int>)
    ensures Ordered(Of(rtts)) && Of(rtts).recv == |rtts|
  {
    if rtts != [] {
      var init := rtts[..|rtts| - 1];
      MeanIsBetween(init);
      assert |init| == 0 ==> Of(init) == NO_PACKETS;
      UpdateKeepsOrdered(Of(init), rtts[|rtts| - 1]);
    }
  }

  /** How far the truncating divisions can carry the mean from the true one. */
  function ErrorBound(n: nat): nat {
    if n == 0 then 0 else ErrorBound(n - 1) + n - 1
  }

  lemma {:induction false} ErrorBoundClosed(n: nat)
    ensures 2 * ErrorBound(n) == n * (n - 1)
  {
    if n > 0 {
      ErrorBoundClosed(n - 1);
      assert n * (n - 1) == (n - 1) * (n - 2) + 2 * (n - 1);
    }
  }

  lemma MeanArithmetic(n: nat, avg: int, delta: int, q: int, sum: int, bound: nat)
    requires Abs(n * avg - sum) <= bound && Abs(delta - (n + 1) * q) < n + 1
    ensures Abs((n + 1) * (avg + q) - (sum + avg + delta)) <= bound + n
  {
    assert (n + 1) * (avg + q) == n * avg + avg + (n + 1) * q;
  }

  lemma MeanStep(s: Statistics, rtt: int, sum: int, bound: nat)
    requires Abs(s.recv * s.avgRtt - sum) <= bound
    ensures Abs((s.recv + 1) * Update(s, rtt).avgRtt - (sum + rtt)) <= bound + s.recv
  {
    var delta := rtt - s.avgRtt;
    QuotientBounds(delta, s.recv + 1);
    MeanArithmetic(s.recv, s.avgRtt, delta, Quotient(delta, s.recv + 1), sum, bound);
  }

  /** After n packets the mean times n is within n(n-1)/2 of the sum. */
  lemma {:induction false} MeanError(rtts: seq<int>)
    ensures 2 * Abs(|rtts| * Of(rtts).avgRtt - Sum(rtts)) <= |rtts| * (|rtts| - 1)
  {
    MeanErrorBound(rtts);
    ErrorBoundClosed(|rtts|);
  }

  lemma {:induction false} MeanErrorBound(rtts: seq<int>)
    ensures Of(rtts).recv == |rtts| && Abs(|rtts| * Of(rtts).avgRtt - Sum(rtts)) <= ErrorBound(|rtts|)
  {
    if rtts != [] {
      var init, last := rtts[..|rtts| - 1], rtts[|rtts| - 1];
      MeanErrorBound(init);
      MeanStep(Of(init), last, Sum(init), ErrorBound(|init|));
    }
  }

  // ------------------------------------------------------------------
  // The squared deviations
  // ------------------------------------------------------------------

  /** The sum of the squared deviations from a centre. */
  function SquaredDeviations(rtts: seq<int>, centre: int): int {
    if rtts == [] then 0 else
      var x := rtts[|rtts| - 1] - centre;
      SquaredDeviations(rtts[..|rtts| - 1], centre) + x * x
  }

  lemma SquareOfDifference(x: int, q: int)
    ensures (x - q) * (x - q) == x * x - 2 * q * x + q * q
  {
  }

  lemma ShiftAlgebra(old0: int, q: int, n: nat, sum: int, a: int, x: int)
    ensures old0 - 2 * q * (sum - n * a) + n * q * q + (x * x - 2 * q * x + q * q)
            == old0 + x * x - 2 * q * (sum + x + a - (n + 1) * a) + (n + 1) * q * q
  {
  }

  /** Moving the centre. */
  lemma {:induction false} MovedCentre(rtts: seq<int>, a: int, q: int)
    ensures SquaredDeviations(rtts, a + q)
            == SquaredDeviations(rtts, a) - 2 * q * (Sum(rtts) - |rtts| * a) + |rtts| * q * q
  {
    if rtts != [] {
      var init, x := rtts[..|rtts| - 1], rtts[|rtts| - 1] - a;
      MovedCentre(init, a, q);
      SquareOfDifference(x, q);
      ShiftAlgebra(SquaredDeviations(init, a), q, |init|, Sum(init), a, x);
    }
  }

  lemma ProductBound(x: int, y: int, b: nat, c: nat)
    requires Abs(x) <= b && Abs(y) <= c
    ensures Abs(x * y) <= b * c
  {
    assert Abs(x * y) == Abs(x) * Abs(y);
    assert Abs(x) * Abs(y) <= b * Abs(y) <= b * c;
  }

  /** How much the recurrence drifts away from the squared deviations in one step. */
  lemma DriftAlgebra(before: int, m2: int, q: int, error: int, k: nat, delta: int)
    ensures (before - 2 * q * error + k * q * q + (delta - q) * (delta - q)) - (m2 + delta * (delta - q))
            == (before - m2) - q * (2 * error + (delta - (k + 1) * q))
  {
    SquareOfDifference(delta, q);
    assert delta * (delta - q) == delta * delta - q * delta;
    assert q * (2 * error + (delta - (k + 1) * q)) == 2 * q * error + q * delta - (k + 1) * q * q;
  }

  lemma ShareIsSmall(y: nat, k: nat, range: nat)
    requires (k + 1) * y <= range
    ensures y * (k * k) <= range * k
  {
    assert (k + 1) * y == k * y + y;
    assert y * (k * k) == (k * y) * k;
    ProductBound(k * y, k, range, k);
  }

  lemma ErrorIsSmall(error: int, rest: int, k: nat)
    requires Abs(error) <= ErrorBound(k) && Abs(rest) <= k
    ensures Abs(2 * error + rest) <= k * k
  {
    ErrorBoundClosed(k);
    assert k * (k - 1) + k == k * k;
  }

  lemma DriftIsSmall(q: int, error: int, rest: int, k: nat, delta: int, range: nat)
    requires Abs(error) <= ErrorBound(k) && Abs(rest) <= k && (k > 0 ==> Abs(delta) <= range)
    requires (k + 1) * Abs(q) <= Abs(delta)
    ensures Abs(q * (2 * error + rest)) <= range * k
  {
    ErrorIsSmall(error, rest, k);
    ProductBound(q, 2 * error + rest, Abs(q), k * k);
    if k > 0 {
      ShareIsSmall(Abs(q), k, range);
    }
  }

  lemma QuotientShare(a: int, b: nat)
    requires b > 0
    ensures b * Abs(Quotient(a, b)) <= Abs(a)
  {
    QuotientBounds(a, b);
    assert b * -Quotient(a, b) == -(b * Quotient(a, b));
  }

  lemma DriftOfQuotient(error: int, k: nat, delta: int, q: int, range: nat)
    requires Abs(error) <= ErrorBound(k) && q == Quotient(delta, k + 1) && (k > 0 ==> Abs(delta) <= range)
    ensures Abs(q * (2 * error + (delta - (k + 1) * q))) <= range * k
  {
    QuotientBounds(delta, k + 1);
    QuotientShare(delta, k + 1);
    DriftIsSmall(q, error, delta - (k + 1) * q, k, delta, range);
  }

  lemma DriftAddsUp(before: int, after: int, drift: int, k: nat, range: nat)
    requires Abs(before) <= range * ErrorBound(k) && Abs(drift) <= range * k && after == before - drift
    ensures Abs(after) <= range * ErrorBound(k + 1)
  {
    assert range * ErrorBound(k + 1) == range * ErrorBound(k) + range * k;
  }

  /** The mean alone. */
  function Mean(rtts: seq<int>): int {
    if rtts == [] then 0 else
      var a := Mean(rtts[..|rtts| - 1]);
      a + Quotient(rtts[|rtts| - 1] - a, |rtts|)
  }

  /** The recurrence for the squared deviations alone. */
  function Recurrence(rtts: seq<int>): int {
    if rtts == [] then 0 else
      var init, last := rtts[..|rtts| - 1], rtts[|rtts| - 1];
      Recurrence(init) + (last - Mean(init)) * (last - Mean(rtts))
  }

  lemma {:induction false} StatisticsOf(rtts: seq<int>)
    ensures Of(rtts).recv == |rtts| && Of(rtts).avgRtt == Mean(rtts) && Of(rtts).stddevm2 == Recurrence(rtts)
  {
    if rtts != [] {
      StatisticsOf(rtts[..|rtts| - 1]);
    }
  }

  lemma MeanStays(a: int, last: int, n: nat, low: int, high: int)
    requires n > 0 && low <= last <= high && (n > 1 ==> low <= a <= high)
    ensures low <= a + Quotient(last - a, n) <= high
  {
    if n == 1 {
      assert Quotient(last - a, 1) == last - a;
    } else {
      QuotientBounds(last - a, n);
    }
  }

  lemma {:induction false} MeanIsInRange(rtts: seq<int>, low: int, high: int)
    requires forall r :: r in rtts ==> low <= r <= high
    ensures rtts != [] ==> low <= Mean(rtts) <= high
  {
    if rtts != [] {
      var init, last := rtts[..|rtts| - 1], rtts[|rtts| - 1];
      assert last in rtts && forall r :: r in init ==> r in rtts;
      MeanIsInRange(init, low, high);
      MeanStays(Mean(init), last, |rtts|, low, high);
    }
  }

  lemma MeanUnfolds(rtts: seq<int>, a: int, last: int, n: nat)
    requires n == |rtts| > 0 && a == Mean(rtts[..n - 1]) && last == rtts[n - 1]
    ensures Mean(rtts) == a + Quotient(last - a, n)
  {
  }

  lemma NextRecurrence(init: seq<int>, last: int, rtts: seq<int>, delta: int, next: int)
    requires rtts == init + [last] && delta == last - Mean(init) && next == last - Mean(rtts)
    ensures Recurrence(rtts) == Recurrence(init) + delta * next
  {
    assert rtts[..|rtts| - 1] == init && rtts[|rtts| - 1] == last;
  }

  /** The deviations from the next mean, after one more value. */
  lemma NextDeviations(init: seq<int>, last: int, rtts: seq<int>, k: nat, error: int, q: int, delta: int, next: int)
    requires rtts == init + [last] && k == |init| && error == Sum(init) - k * Mean(init)
    requires delta == last - Mean(init) && next == Mean(init) + q
    ensures SquaredDeviations(rtts, next)
            == SquaredDeviations(init, Mean(init)) - 2 * q * error + k * q * q + (delta - q) * (delta - q)
  {
    assert rtts[..|rtts| - 1] == init && rtts[|rtts| - 1] == last;
    assert last - next == delta - q;
    MovedCentre(init, Mean(init), q);
  }

  /** How far the recurrence is from the sum of squared deviations. */
  function Gap(rtts: seq<int>): int {
    SquaredDeviations(rtts, Mean(rtts)) - Recurrence(rtts)
  }

  lemma GapStep(init: seq<int>, last: int, rtts: seq<int>, k: nat, error: int, q: int, delta: int)
    requires rtts == init + [last] && k == |init| && error == Sum(init) - k * Mean(init)
    requires delta == last - Mean(init) && q == Quotient(delta, |rtts|)
    ensures Gap(rtts) == Gap(init) - q * (2 * error + (delta - (k + 1) * q))
  {
    var next := Mean(rtts);
    assert init == rtts[..|rtts| - 1];
    MeanUnfolds(rtts, Mean(init), last, |rtts|);
    NextRecurrence(init, last, rtts, delta, delta - q);
    NextDeviations(init, last, rtts, k, error, q, delta, next);
    DriftAlgebra(SquaredDeviations(init, Mean(init)), Recurrence(init), q, error, k, delta);
  }

  lemma StepDrift(init: seq<int>, last: int, low: int, high: int, k: nat, error: int, q: int, delta: int, range: nat)
    requires (forall r :: r in init ==> low <= r <= high) && low <= last <= high && range == high - low
    requires k == |init| && error == Sum(init) - k * Mean(init)
    requires delta == last - Mean(init) && q == Quotient(delta, k + 1)
    ensures Abs(q * (2 * error + (delta - (k + 1) * q))) <= range * k
  {
    MeanErrorOf(init, Mean(init));
    MeanIsInRange(init, low, high);
    DriftOfQuotient(error, k, delta, q, range);
  }

  lemma GapBound(init: seq<int>, last: int, rtts: seq<int>, low: int, high: int, range: nat)
    requires rtts == init + [last] && (forall r :: r in rtts ==> low <= r <= high) && range == high - low
    requires Abs(Gap(init)) <= range * ErrorBound(|init|)
    ensures Abs(Gap(rtts)) <= range * ErrorBound(|rtts|)
  {
    var k, delta := |init|, last - Mean(init);
    var error, q := Sum(init) - k * Mean(init), Quotient(delta, |rtts|);
    assert last in rtts && forall r :: r in init ==> r in rtts;
    StepDrift(init, last, low, high, k, error, q, delta, range);
    GapStep(init, last, rtts, k, error, q, delta);
    DriftAddsUp(Gap(init), Gap(rtts), q * (2 * error + (delta - (k + 1) * q)), k, range);
  }

  lemma MeanErrorOf(rtts: seq<int>, mean: int)
    requires mean == Mean(rtts)
    ensures Abs(Sum(rtts) - |rtts| * mean) <= ErrorBound(|rtts|)
  {
    MeanErrorBound(rtts);
    StatisticsOf(rtts);
  }

  lemma {:induction false} GapIsSmall(rtts: seq<int>, low: int, high: int, range: nat)
    requires (forall r :: r in rtts ==> low <= r <= high) && range == high - low
    ensures Abs(Gap(rtts)) <= range * ErrorBound(|rtts|)
  {
    if rtts != [] {
      var init, last := rtts[..|rtts| - 1], rtts[|rtts| - 1];
      assert rtts == init + [last];
      assert forall r :: r in init ==> r in rtts;
      GapIsSmall(init, low, high, range);
      GapBound(init, last, rtts, low, high, range);
    }
  }

  /**
    With truncating divisions the recurrence still gives the sum of squared deviations from the mean, up
    to the range of the values times n(n-1)/2.
  */
  lemma DeviationError(rtts: seq<int>, low: int, high: int)
    requires low <= high && forall r :: r in rtts ==> low <= r <= high
    ensures Abs(SquaredDeviations(rtts, Of(rtts).avgRtt) - Of(rtts).stddevm2) <= (high - low) * ErrorBound(|rtts|)
  {
    GapIsSmall(rtts, low, high, high - low);
    StatisticsOf(rtts);
  }

  // ------------------------------------------------------------------
  // 64-bit arithmetic
  // ------------------------------------------------------------------

  predicate IsDuration(x: int) {
    0 <= x < 0x8000_0000_0000_0000
  }

  function WrappedMean(avg: int, rtt: int, n: nat): int
    requires n > 0
  {
    Wrap(avg + Quotient(Wrap(rtt - avg), n))
  }

  function WrappedDeviation(m2: int, avg: int, next: int, rtt: int): int {
    Wrap(m2 + Wrap(Wrap(rtt - avg) * Wrap(rtt - next)))
  }

  /** The update as the program computes it, every result wrapped to 64 bits. */
  function WrappedUpdate(s: Statistics, rtt: int): Statistics {
    var avg := WrappedMean(s.avgRtt, rtt, s.recv + 1);
    Statistics(s.recv + 1, s.rtts + [rtt],
               if s.recv == 0 || rtt < s.minRtt then rtt else s.minRtt,
               if rtt > s.maxRtt then rtt else s.maxRtt,
               avg, WrappedDeviation(s.stddevm2, s.avgRtt, avg, rtt))
  }

  function WrappedOf(rtts: seq<int>): Statistics {
    if rtts == [] then NO_PACKETS else WrappedUpdate(WrappedOf(rtts[..|rtts| - 1]), rtts[|rtts| - 1])
  }

  lemma OneMoreWrapped(rtts: seq<int>, rtt: int)
    ensures WrappedOf(rtts + [rtt]) == WrappedUpdate(WrappedOf(rtts), rtt)
  {
  }

  lemma WrappedStep(exact: Statistics, s: Statistics, rtt: int)
    requires s == exact.(stddevm2 := Wrap(exact.stddevm2)) && IsDuration(exact.avgRtt) && IsDuration(rtt)
    ensures WrappedUpdate(s, rtt) == Update(exact, rtt).(stddevm2 := Wrap(Update(exact, rtt).stddevm2))
    ensures IsDuration(Update(exact, rtt).avgRtt)
  {
    UpdateMovesTowards(exact, rtt);
    var avg := Update(exact, rtt).avgRtt;
    WrapFits(rtt - s.avgRtt);
    WrapFits(avg);
    WrapFits(rtt - avg);
    WrapSum(exact.stddevm2, (rtt - s.avgRtt) * (rtt - avg));
  }

  /**
    For all non-negative round-trip times only the sum of squared deviations can overflow: the program has
    its value modulo 2^64, and is exact if and only if the true sum is below 2^63.
  */
  lemma {:induction false} OnlyDeviationWraps(rtts: seq<int>)
    requires forall r :: r in rtts ==> IsDuration(r)
    ensures WrappedOf(rtts) == Of(rtts).(stddevm2 := Wrap(Of(rtts).stddevm2))
    ensures IsDuration(Of(rtts).avgRtt)
    ensures WrappedOf(rtts) == Of(rtts) <==> Of(rtts).stddevm2 < 0x8000_0000_0000_0000
  {
    if rtts != [] {
      var init, last := rtts[..|rtts| - 1], rtts[|rtts| - 1];
      OnlyDeviationWraps(init);
      WrappedStep(Of(init), WrappedOf(init), last);
    }
    MeanIsBetween(rtts);
    WrapFits(Of(rtts).stddevm2);
  }

  lemma SquareIsNatural(x: int)
    ensures x * x >= 0
  {
  }

  lemma SquareBound(delta: int, next: int, range: nat)
    requires Abs(delta) <= range && Abs(next) <= range
    ensures delta * next <= range * range
  {
    ProductBound(delta, next, range, range);
  }

  lemma OneMoreSquare(init: seq<int>, last: int, rtts: seq<int>, low: int, high: int, square: nat)
    requires rtts == init + [last] && init != [] && (forall r :: r in rtts ==> low <= r <= high)
    requires square == (high - low) * (high - low)
    ensures Recurrence(rtts) <= Recurrence(init) + square
  {
    assert last in rtts && forall r :: r in init ==> r in rtts;
    MeanIsInRange(init, low, high);
    MeanIsInRange(rtts, low, high);
    NextRecurrence(init, last, rtts, last - Mean(init), last - Mean(rtts));
    SquareBound(last - Mean(init), last - Mean(rtts), high - low);
  }

  lemma SquaresAddUp(before: int, after: int, n: nat, square: nat)
    requires before <= n * square && after <= before + square
    ensures after <= (n + 1) * square
  {
    assert (n + 1) * square == n * square + square;
  }

  lemma FirstSquare(rtts: seq<int>)
    requires |rtts| == 1
    ensures Recurrence(rtts) == 0
  {
    assert rtts[..0] == [];
    assert Mean(rtts) == Quotient(rtts[0], 1) == rtts[0];
  }

  /** Each packet but the first adds at most the square of the range. */
  lemma {:induction false} DeviationBound(rtts: seq<int>, low: int, high: int, square: nat)
    requires rtts != [] && (forall r :: r in rtts ==> low <= r <= high)
    requires square == (high - low) * (high - low)
    ensures Recurrence(rtts) <= (|rtts| - 1) * square
  {
    if |rtts| == 1 {
      FirstSquare(rtts);
    } else {
      var init, last := rtts[..|rtts| - 1], rtts[|rtts| - 1];
      assert rtts == init + [last] && forall r :: r in init ==> r in rtts;
      DeviationBound(init, low, high, square);
      OneMoreSquare(init, last, rtts, low, high, square);
      SquaresAddUp(Recurrence(init), Recurrence(rtts), |init| - 1, square);
    }
  }

  /** The program is exact for n packets between two durations whose squared distance, times n - 1, is below 2^63. */
  lemma ExactInSmallRange(rtts: seq<int>, low: int, high: int)
    requires forall r :: r in rtts ==> IsDuration(r) && low <= r <= high
    requires (|rtts| - 1) * ((high - low) * (high - low)) < 0x8000_0000_0000_0000
    ensures WrappedOf(rtts) == Of(rtts)
  {
    if rtts != [] {
      SquareIsNatural(high - low);
      DeviationBound(rtts, low, high, (high - low) * (high - low));
      StatisticsOf(rtts);
      OnlyDeviationWraps(rtts);
    }
  }

  lemma OneMorePacket(rtts: seq<int>, rtt: int)
    ensures Of(rtts + [rtt]) == Update(Of(rtts), rtt)
  {
  }

  lemma TwoPackets(rtts: seq<int>)
    requires |rtts| == 2
    ensures Of(rtts) == Update(Update(NO_PACKETS, rtts[0]), rtts[1])
  {
    OneMorePacket([], rtts[0]);
    OneMorePacket([rtts[0]], rtts[1]);
    assert [] + [rtts[0]] == [rtts[0]] && [rtts[0]] + [rtts[1]] == rtts;
  }

  lemma OverflowingUpdate(s: Statistics)
    requires s == Update(NO_PACKETS, 5_000_000_000)
    ensures Update(s, 0).stddevm2 == 12_500_000_000_000_000_000
  {
  }

  lemma NegativeWrap(x: int)
    requires 0x8000_0000_0000_0000 <= x < 0x1_0000_0000_0000_0000
    ensures Wrap(x) < 0
  {
  }

  lemma OverflowDeviation(rtts: seq<int>)
    requires rtts == [5_000_000_000, 0]
    ensures Of(rtts).stddevm2 == 12_500_000_000_000_000_000
  {
    TwoPackets(rtts);
    OverflowingUpdate(Update(NO_PACKETS, rtts[0]));
  }

  /** Two packets of five and zero seconds are enough to make the sum negative. */
  lemma OverflowExample(rtts: seq<int>)
    requires rtts == [5_000_000_000, 0]
    ensures WrappedOf(rtts).stddevm2 < 0 < Of(rtts).stddevm2
  {
    OverflowDeviation(rtts);
    NegativeWrap(12_500_000_000_000_000_000);
    OnlyDeviationWraps(rtts);
  }
}
