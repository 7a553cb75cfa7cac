/** Outcome mining: the one-sided Wilson bound and the findings that rest on it. */
module Discovery {
  import opened Options

  const WILSON_Z: real := 1.2816

  /** All that is needed of the square root. */
  ghost predicate IsSquareRoot(sqrt: real -> real) {
    forall x: real | x >= 0.0 :: sqrt(x) >= 0.0 && sqrt(x) * sqrt(x) == x
  }

  function Rate(successes: nat, trials: nat): real {
    if trials == 0 then 0.0 else successes as real / trials as real
  }

  function Radicand(p: real, n: real): real
    requires n > 0.0
  {
    p * (1.0 - p) / n + WILSON_Z * WILSON_Z / (4.0 * (n * n))
  }

  function Unclamped(p: real, n: real, root: real): real
    requires n > 0.0
  {
    (p + WILSON_Z * WILSON_Z / (2.0 * n) + WILSON_Z * root) / (1.0 + WILSON_Z * WILSON_Z / n)
  }

  /** `wilson_upper`; None is the error of a square root of a negative number. */
  function WilsonUpper(sqrt: real -> real, successes: nat, trials: nat): Option<real> {
    if trials == 0 then Some(1.0)
    else
      var p, n := Rate(successes, trials), trials as real;
      if Radicand(p, n) < 0.0 then None
      else
        var u := Unclamped(p, n, sqrt(Radicand(p, n)));
        Some(if u < 1.0 then u else 1.0)
  }

  // ---------------------------------------------------------------- the quadratic

  /** `theta` is within the score test's reach of the rate `p`, seen in `n` trials. */
  ghost predicate Reachable(theta: real, p: real, n: real) {
    n * (theta - p) * (theta - p) <= WILSON_Z * WILSON_Z * theta * (1.0 - theta)
  }

  ghost predicate OnEdge(theta: real, p: real, n: real) {
    n * (theta - p) * (theta - p) == WILSON_Z * WILSON_Z * theta * (1.0 - theta)
  }

  /** Completing the square, with `w` for z squared over n. */
  function Centre(p: real, w: real): real { p + w / 2.0 }
  function Product(a: real, b: real): real { a * b }
  function Gap(theta: real, p: real, w: real): real { theta + Product(w, theta) - Centre(p, w) }
  function Spread(p: real, w: real): real { w * p * (1.0 - p) + w * w / 4.0 }

  /** A quarter of the quadratic's discriminant is the spread. */
  lemma CompleteSquare(theta: real, p: real, w: real)
    ensures Gap(theta, p, w) * Gap(theta, p, w) - Spread(p, w)
         == (1.0 + w) * ((theta - p) * (theta - p) - w * theta * (1.0 - theta))
  {
    var d := 1.0 + w;
    var c := Centre(p, w);
    assert Gap(theta, p, w) * Gap(theta, p, w) == d * (d * (theta * theta)) - 2.0 * (d * theta) * c + c * c;
    assert c * c == p * p + p * w + w * w / 4.0;
    assert c * c - Spread(p, w) == d * (p * p);
    assert (theta - p) * (theta - p) == theta * theta - 2.0 * (theta * p) + p * p;
    assert w * theta * (1.0 - theta) == w * theta - w * (theta * theta);
    var q := d * (theta * theta) - 2.0 * (theta * c) + p * p;
    assert (theta - p) * (theta - p) - w * theta * (1.0 - theta) == q;
    assert d * q == d * (d * (theta * theta)) - 2.0 * (d * (theta * c)) + d * (p * p);
    assert (d * theta) * c == d * (theta * c);
  }

  lemma DividedSquare(a: real, b: real, n: real)
    requires n > 0.0
    ensures n * a <= b <==> a <= b / n
    ensures n * a == b <==> a == b / n
  {
    assert n * (b / n) == b;
    if a < b / n { assert n * a < n * (b / n); }
    if a > b / n { assert n * a > n * (b / n); }
  }

  /** Reach in terms of the completed square. */
  lemma ReachIsGap(theta: real, p: real, n: real)
    requires n > 0.0
    ensures var w := WILSON_Z * WILSON_Z / n;
      && (Reachable(theta, p, n) <==> Gap(theta, p, w) * Gap(theta, p, w) <= Spread(p, w))
      && (OnEdge(theta, p, n) <==> Gap(theta, p, w) * Gap(theta, p, w) == Spread(p, w))
  {
    hide Gap, Spread, Centre;
    var w := WILSON_Z * WILSON_Z / n;
    var sq, v := (theta - p) * (theta - p), theta * (1.0 - theta);
    CompleteSquare(theta, p, w);
    DividedSquare(sq, WILSON_Z * WILSON_Z * v, n);
    Regroup(n, theta - p, theta - p);
    Regroup(WILSON_Z * WILSON_Z, theta, 1.0 - theta);
    Regroup(w, theta, 1.0 - theta);
    Quotient(WILSON_Z * WILSON_Z, v, n);
    PositiveQuotient(WILSON_Z * WILSON_Z, n);
    SignOf(1.0 + w, sq - w * v);
  }

  lemma Regroup(a: real, b: real, c: real)
    ensures a * b * c == a * (b * c)
  {
  }

  lemma Quotient(a: real, v: real, n: real)
    requires n > 0.0
    ensures a * v / n == a / n * v
  {
    assert a == a / n * n;
    assert a * v == (a / n * v) * n;
  }

  lemma SignOf(d: real, x: real)
    requires d > 0.0
    ensures (d * x <= 0.0 <==> x <= 0.0) && (d * x == 0.0 <==> x == 0.0)
  {
    if x > 0.0 { assert d * x > 0.0; }
    if x < 0.0 { assert d * x < 0.0; }
  }

  /** The margin before division is a square root of the spread. */
  lemma MarginSquared(p: real, n: real, root: real)
    requires n > 0.0 && root * root == Radicand(p, n)
    ensures (WILSON_Z * root) * (WILSON_Z * root) == Spread(p, WILSON_Z * WILSON_Z / n)
  {
    var w, v := WILSON_Z * WILSON_Z / n, p * (1.0 - p);
    assert (WILSON_Z * root) * (WILSON_Z * root) == WILSON_Z * WILSON_Z * Radicand(p, n);
    Quotient(WILSON_Z * WILSON_Z, v, n);
    assert WILSON_Z * WILSON_Z * (v / n) == w * v by { assert v / n * n == v; Quotient(v, WILSON_Z * WILSON_Z, n); }
    var h := WILSON_Z * WILSON_Z / (4.0 * (n * n));
    assert h * (4.0 * (n * n)) == WILSON_Z * WILSON_Z;
    assert w * n == WILSON_Z * WILSON_Z;
    assert (w * w) * (n * n) == (WILSON_Z * WILSON_Z) * (w * n);
    QuarterSquare(w, n, h);
    assert Spread(p, w) == w * v + w * w / 4.0;
  }

  lemma QuarterSquare(w: real, n: real, h: real)
    requires n > 0.0 && w * n == WILSON_Z * WILSON_Z && h * (4.0 * (n * n)) == WILSON_Z * WILSON_Z
    ensures WILSON_Z * WILSON_Z * h == w * w / 4.0
  {
    var zz := WILSON_Z * WILSON_Z;
    assert h * (4.0 * (n * n)) == (4.0 * (h * n)) * n;
    assert (4.0 * (h * n) - w) * n == 0.0;
    assert 4.0 * (h * n) == w;
    assert zz * h == (w * n) * h == w * (h * n);
    assert w * (4.0 * (h * n)) == 4.0 * (w * (h * n));
  }

  lemma GapOfUpper(p: real, n: real, root: real)
    requires n > 0.0
    ensures Gap(Unclamped(p, n, root), p, WILSON_Z * WILSON_Z / n) == WILSON_Z * root
  {
    var w := WILSON_Z * WILSON_Z / n;
    assert w / 2.0 == WILSON_Z * WILSON_Z / (2.0 * n) by { assert WILSON_Z * WILSON_Z / (2.0 * n) * (2.0 * n) == WILSON_Z * WILSON_Z; assert w * n == WILSON_Z * WILSON_Z; HalfOf(WILSON_Z * WILSON_Z / (2.0 * n), w, n); }
    var a := p + WILSON_Z * WILSON_Z / (2.0 * n) + WILSON_Z * root;
    assert (1.0 + w) * (a / (1.0 + w)) == a;
  }

  lemma HalfOf(a: real, w: real, n: real)
    requires n > 0.0 && a * (2.0 * n) == w * n
    ensures w / 2.0 == a
  {
    assert (2.0 * a - w) * n == 0.0;
  }

  lemma SquaresOrder(a: real, t: real)
    requires t >= 0.0 && a * a <= t * t
    ensures a <= t
  {
    assert (a - t) * (a + t) == a * a - t * t;
    if a > t { PositiveProduct(a - t, a + t); }
  }

  lemma RateWithin(successes: nat, trials: nat)
    requires 0 < trials
    ensures Rate(successes, trials) >= 0.0
    ensures Rate(successes, trials) * trials as real == successes as real
    ensures successes <= trials ==> Rate(successes, trials) <= 1.0
  {
    var p, n := Rate(successes, trials), trials as real;
    PositiveQuotient(successes as real, n);
    if p > 1.0 { PositiveProduct(p - 1.0, n); }
  }

  lemma ProductOrder(w: real, u: real, theta: real)
    requires w >= 0.0 && u <= theta
    ensures Product(w, u) <= Product(w, theta)
  {
  }

  lemma GapOrder(theta: real, u: real, p: real, w: real)
    requires w >= 0.0 && Gap(theta, p, w) <= Gap(u, p, w)
    ensures theta <= u
  {
    hide Product, Centre;
    if theta > u {
      ProductOrder(w, u, theta);
      assert false;
    }
  }

  lemma ReachIsBelow(theta: real, p: real, n: real, root: real)
    requires n > 0.0 && root >= 0.0 && root * root == Radicand(p, n)
    requires Reachable(theta, p, n)
    ensures theta <= Unclamped(p, n, root)
  {
    hide Gap, Spread, Unclamped, Radicand, Reachable, OnEdge;
    var w, u := WILSON_Z * WILSON_Z / n, Unclamped(p, n, root);
    assert w >= 0.0 by { PositiveQuotient(WILSON_Z * WILSON_Z, n); }
    MarginSquared(p, n, root);
    ReachIsGap(theta, p, n);
    GapOfUpper(p, n, root);
    SquaresOrder(Gap(theta, p, w), WILSON_Z * root);
    GapOrder(theta, u, p, w);
  }

  lemma PositiveQuotient(a: real, n: real)
    requires a >= 0.0 && n > 0.0
    ensures a / n >= 0.0
  {
  }

  lemma UpperIsOnEdge(p: real, n: real, root: real)
    requires n > 0.0 && root * root == Radicand(p, n)
    ensures OnEdge(Unclamped(p, n, root), p, n)
  {
    MarginSquared(p, n, root);
    GapOfUpper(p, n, root);
    ReachIsGap(Unclamped(p, n, root), p, n);
  }

  lemma Square(x: real)
    ensures x * x >= 0.0
  {
  }

  lemma Scaled(n: real, x: real, y: real)
    requires n >= 0.0 && x <= y
    ensures n * x <= n * y
  {
  }

  lemma EdgeIsRate(theta: real, p: real, n: real)
    requires n > 0.0 && OnEdge(theta, p, n)
    ensures 0.0 <= theta <= 1.0
  {
    var sq, v := (theta - p) * (theta - p), theta * (1.0 - theta);
    Square(theta - p);
    Scaled(n, 0.0, sq);
    assert n * (theta - p) * (theta - p) == n * sq;
    assert WILSON_Z * WILSON_Z * theta * (1.0 - theta) == WILSON_Z * WILSON_Z * v;
    assert v >= 0.0 by { SignOf(WILSON_Z * WILSON_Z, -v); }
    if theta > 1.0 { PositiveProduct(theta, theta - 1.0); }
    if theta < 0.0 { PositiveProduct(-theta, 1.0 - theta); }
  }

  lemma PositiveProduct(a: real, b: real)
    requires a > 0.0 && b > 0.0
    ensures a * b > 0.0
  {
  }

  lemma RateAboveOne(p: real, n: real, s: real)
    requires n > 0.0 && p * n == s && s > n
    ensures p >= 1.0
  {
    SignOf(n, p - 1.0);
    assert n * (p - 1.0) == s - n;
  }

  /** The radicand is negative exactly when more successes than trials were counted. */
  lemma RadicandSign(successes: nat, trials: nat)
    requires 0 < trials
    ensures Radicand(Rate(successes, trials), trials as real) < 0.0 <==> successes > trials
  {
    var p, n, s := Rate(successes, trials), trials as real, successes as real;
    RateWithin(successes, trials);
    PositiveProduct(n, n);
    var m := n * n;
    RadicandScaled(p, n, s, m);
    hide Rate, Radicand;
    SignOf(m, Radicand(p, n));
    if successes <= trials {
      Scaled(p, 0.0, n - s);
    } else {
      assert s - n >= 1.0;
      RateAboveOne(p, n, s);
      Distribute(p, n, s);
      Distribute(p, s, n);
      Scaled(p, 1.0, s - n);
      assert WILSON_Z * WILSON_Z < 4.0;
    }
  }

  lemma Distribute(a: real, b: real, c: real)
    ensures a * (b - c) == a * b - a * c
  {
  }

  lemma Cancel(a: real, b: real)
    requires b > 0.0
    ensures a / b * b == a
  {
  }

  lemma QuarterOver(m: real, h: real)
    requires m > 0.0 && h == WILSON_Z * WILSON_Z / (4.0 * m)
    ensures 4.0 * (m * h) == WILSON_Z * WILSON_Z
  {
    Cancel(WILSON_Z * WILSON_Z, 4.0 * m);
  }

  lemma RadicandScaled(p: real, n: real, s: real, m: real)
    requires n > 0.0 && p * n == s && m == n * n && m > 0.0
    ensures 4.0 * (m * Radicand(p, n)) == 4.0 * (p * (n - s)) + WILSON_Z * WILSON_Z
  {
    var h := WILSON_Z * WILSON_Z / (4.0 * m);
    QuarterOver(m, h);
    var g := p * (1.0 - p) / n;
    Cancel(p * (1.0 - p), n);
    assert m * g == n * (g * n);
    assert n * (p * (1.0 - p)) == p * (n - p * n);
    assert m * (g + h) == m * g + m * h;
  }

  // ---------------------------------------------------------------- main results

  /** The bound fails to exist exactly when more successes than trials were counted. */
  lemma BoundExists(sqrt: real -> real, successes: nat, trials: nat)
    requires IsSquareRoot(sqrt)
    ensures WilsonUpper(sqrt, successes, trials).None? <==> 0 < trials < successes
  {
    if trials > 0 { RadicandSign(successes, trials); }
  }

  /** The bound lies on the score test's edge, between the rate and one, and is the largest rate
      within reach: the clamp never bites. */
  lemma BoundIsLargestReachable(sqrt: real -> real, successes: nat, trials: nat)
    requires IsSquareRoot(sqrt) && 0 < trials && successes <= trials
    ensures WilsonUpper(sqrt, successes, trials).Some?
    ensures var u, p, n := WilsonUpper(sqrt, successes, trials).value, Rate(successes, trials), trials as real;
      && OnEdge(u, p, n)
      && p <= u <= 1.0
      && forall theta :: Reachable(theta, p, n) ==> theta <= u
  {
    var p, n := Rate(successes, trials), trials as real;
    RadicandSign(successes, trials);
    RateWithin(successes, trials);
    var root := sqrt(Radicand(p, n));
    UpperIsOnEdge(p, n, root);
    EdgeIsRate(Unclamped(p, n, root), p, n);
    assert Reachable(p, p, n) by { assert p * (1.0 - p) >= 0.0; }
    forall theta | Reachable(theta, p, n) ensures theta <= Unclamped(p, n, root) {
      ReachIsBelow(theta, p, n, root);
    }
  }

  /** More successes in as many trials never lower the bound. */
  lemma BoundGrows(sqrt: real -> real, fewer: nat, more: nat, trials: nat)
    requires IsSquareRoot(sqrt) && 0 < trials && fewer <= more <= trials
    ensures WilsonUpper(sqrt, fewer, trials).Some? && WilsonUpper(sqrt, more, trials).Some?
    ensures WilsonUpper(sqrt, fewer, trials).value <= WilsonUpper(sqrt, more, trials).value
  {
    hide WilsonUpper, Rate, Reachable, OnEdge;
    BoundIsLargestReachable(sqrt, fewer, trials);
    BoundIsLargestReachable(sqrt, more, trials);
    RatesOrder(fewer, more, trials);
    var u, q := WilsonUpper(sqrt, fewer, trials).value, Rate(more, trials);
    if u > q { ReachGrows(u, Rate(fewer, trials), q, trials as real); }
  }

  /** Where nothing has succeeded in n trials the bound is z^2 / (n + z^2), with z = 1.2816. */
  lemma NoSuccessBound(sqrt: real -> real, trials: nat)
    requires IsSquareRoot(sqrt) && 0 < trials
    ensures var u := WilsonUpper(sqrt, 0, trials);
      u.Some? && u.value * (trials as real + 1.2816 * 1.2816) == 1.2816 * 1.2816
  {
    BoundIsLargestReachable(sqrt, 0, trials);
    hide WilsonUpper;
    var u, n, zz := WilsonUpper(sqrt, 0, trials).value, trials as real, WILSON_Z * WILSON_Z;
    var v := zz / (n + zz);
    Cancel(zz, n + zz);
    PositiveEdge(v, n, zz);
    assert v * (n + zz) == v * n + v * zz;
    assert n * (v - 0.0) * (v - 0.0) == v * (n * v);
    assert zz * v * (1.0 - v) == v * (zz - v * zz);
    assert Reachable(v, 0.0, n);
    assert v <= u;
    assert u * (n * u - zz * (1.0 - u)) == 0.0 by {
      assert n * (u - 0.0) * (u - 0.0) == u * (n * u);
      assert zz * u * (1.0 - u) == u * (zz * (1.0 - u));
    }
    NoZeroFactor(u, n * u - zz * (1.0 - u));
  }

  lemma PositiveEdge(v: real, n: real, zz: real)
    requires n > 0.0 && zz > 0.0 && v * (n + zz) == zz
    ensures v > 0.0
  {
  }

  lemma NoZeroFactor(a: real, b: real)
    requires a > 0.0 && a * b == 0.0
    ensures b == 0.0
  {
  }

  lemma RatesOrder(fewer: nat, more: nat, trials: nat)
    requires 0 < trials && fewer <= more
    ensures Rate(fewer, trials) <= Rate(more, trials)
  {
    RateWithin(fewer, trials);
    RateWithin(more, trials);
    hide Rate;
    var p, q, n := Rate(fewer, trials), Rate(more, trials), trials as real;
    if q < p { PositiveProduct(n, p - q); }
    assert n * (p - q) == p * n - q * n;
  }

  lemma ReachGrows(u: real, p: real, q: real, n: real)
    requires OnEdge(u, p, n) && p <= q <= u && n > 0.0
    ensures Reachable(u, q, n)
  {
    Scaled(u - q, u - q, u - p);
    Scaled(u - p, u - q, u - p);
    Scaled(n, (u - q) * (u - q), (u - p) * (u - p));
    Regroup(n, u - q, u - q);
    Regroup(n, u - p, u - p);
  }

  // ---------------------------------------------------------------- rebalance_scan

  datatype Floors = Floors(minTrials: nat, conversion: Option<real>, reply: Option<real>)
  datatype Counts = Counts(contacted: nat, converted: nat, replies: nat)
  datatype Verdict = Quiet | Flagged | Failed

  function Breach(sqrt: real -> real, floor: Option<real>, successes: nat, trials: nat): Verdict {
    if floor.None? then Quiet
    else
      var upper := WilsonUpper(sqrt, successes, trials);
      if upper.None? then Failed else if upper.value < floor.value then Flagged else Quiet
  }

  /** The scan's finding on one cohort; a failure ends the whole scan. */
  function Finding(sqrt: real -> real, floors: Floors, c: Counts): Verdict {
    if c.contacted < floors.minTrials then Quiet
    else
      var a := Breach(sqrt, floors.conversion, c.converted, c.contacted);
      var b := Breach(sqrt, floors.reply, c.replies, c.contacted);
      if a.Failed? || b.Failed? then Failed
      else if a.Flagged? || b.Flagged? then Flagged
      else Quiet
  }

  ghost predicate MeetsFloor(floor: Option<real>, successes: nat, trials: nat) {
    floor.Some? ==> Rate(successes, trials) >= floor.value
  }

  /** A cohort whose rates meet its floors is never flagged. */
  lemma GoodCohortIsNotFlagged(sqrt: real -> real, floors: Floors, c: Counts)
    requires IsSquareRoot(sqrt) && c.converted <= c.contacted
    requires MeetsFloor(floors.conversion, c.converted, c.contacted)
    requires MeetsFloor(floors.reply, c.replies, c.contacted)
    ensures Finding(sqrt, floors, c) != Flagged
  {
    hide WilsonUpper;
    if c.contacted > 0 {
      BoundIsLargestReachable(sqrt, c.converted, c.contacted);
      if c.replies <= c.contacted { BoundIsLargestReachable(sqrt, c.replies, c.contacted); }
      BoundExists(sqrt, c.replies, c.contacted);
    } else {
      NothingTried(sqrt, c.converted);
      NothingTried(sqrt, c.replies);
    }
  }

  lemma NothingTried(sqrt: real -> real, successes: nat)
    ensures WilsonUpper(sqrt, successes, 0) == Some(1.0)
  {
  }

  /** A rate that what was seen does not speak against; with no trials none is excluded. */
  ghost predicate Plausible(theta: real, successes: nat, trials: nat) {
    if trials == 0 then 0.0 <= theta <= 1.0 else Reachable(theta, successes as real / trials as real, trials as real)
  }

  /** The floor lies above every plausible rate. */
  ghost predicate OutOfReach(floor: Option<real>, successes: nat, trials: nat) {
    floor.Some? && forall theta | Plausible(theta, successes, trials) :: theta < floor.value
  }

  lemma BreachExactly(sqrt: real -> real, floor: Option<real>, successes: nat, trials: nat)
    requires IsSquareRoot(sqrt) && successes <= trials
    ensures !Breach(sqrt, floor, successes, trials).Failed?
    ensures Breach(sqrt, floor, successes, trials).Flagged? <==> OutOfReach(floor, successes, trials)
  {
    if trials == 0 {
      NothingTried(sqrt, successes);
      hide WilsonUpper;
      assert Plausible(1.0, 0, 0);
    } else {
      BoundIsLargestReachable(sqrt, successes, trials);
      var u := WilsonUpper(sqrt, successes, trials).value;
      hide WilsonUpper;
      assert Plausible(u, successes, trials);
    }
  }

  /** A cohort is flagged exactly when it has trials enough and one of its floors is out of reach:
      what cannot be explained by chance is never overlooked. */
  lemma FlaggedExactly(sqrt: real -> real, floors: Floors, c: Counts)
    requires IsSquareRoot(sqrt) && c.converted <= c.contacted && c.replies <= c.contacted
    ensures Finding(sqrt, floors, c) == Flagged <==>
      && c.contacted >= floors.minTrials
      && (OutOfReach(floors.conversion, c.converted, c.contacted) || OutOfReach(floors.reply, c.replies, c.contacted))
  {
    BreachExactly(sqrt, floors.conversion, c.converted, c.contacted);
    BreachExactly(sqrt, floors.reply, c.replies, c.contacted);
    hide Breach;
  }

  /** The scan fails on a cohort exactly when it looks at the reply rate of one with more
      replies than contacts. */
  lemma ScanFailsExactly(sqrt: real -> real, floors: Floors, c: Counts)
    requires IsSquareRoot(sqrt) && c.converted <= c.contacted
    ensures Finding(sqrt, floors, c) == Failed <==>
      c.contacted >= floors.minTrials && floors.reply.Some? && 0 < c.contacted < c.replies
  {
    hide WilsonUpper;
    BoundExists(sqrt, c.converted, c.contacted);
    BoundExists(sqrt, c.replies, c.contacted);
  }

  // ---------------------------------------------------------------- proposed amounts

  /** `analyze` asks for a quarter of the worst cohort's cap, at least one. */
  function AnalyzeAmount(cap: nat): nat { if cap / 4 < 1 then 1 else cap / 4 }

  /** `rebalance_scan` asks for half of the flagged cohort's cap, at least one. */
  function RebalanceAmount(cap: nat): nat { if cap / 2 < 1 then 1 else cap / 2 }

  /** A quarter and a half, rounded down, but never nothing. */
  lemma AmountsExactly(cap: nat)
    ensures AnalyzeAmount(cap) >= 1 && RebalanceAmount(cap) >= 1
    ensures if cap >= 4 then 4 * AnalyzeAmount(cap) <= cap < 4 * AnalyzeAmount(cap) + 4 else AnalyzeAmount(cap) == 1
    ensures if cap >= 2 then 2 * RebalanceAmount(cap) <= cap < 2 * RebalanceAmount(cap) + 2 else RebalanceAmount(cap) == 1
  {
  }
}
