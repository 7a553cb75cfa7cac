/** The sentiment throttle: an exponentially weighted mean of reply scores with a half-life
    of twenty replies. `Decay` stands for 1 - ALPHA, the positive real whose twentieth power
    is one half. */
module Sentiment {
  import opened Tables

  const HALF_LIFE_REPLIES := 20
  const MIN_REPLIES := 10
  const THROTTLE_BELOW: real := -0.5
  const PAUSE_BELOW: real := -1.2
  const EVALUATE_EVERY := 10
  const WINDOW := 200

  datatype Intent = Interested | Objection | NotInterested | Unsubscribe | Hostile | Unlisted

  function Score(i: Intent): (s: real)
    ensures -3.0 <= s <= 2.0
    ensures s == -3.0 <==> i == Hostile
  {
    match i
    case Interested => 2.0
    case Objection => -0.5
    case NotInterested => -1.0
    case Unsubscribe => -2.0
    case Hostile => -3.0
    case Unlisted => 0.0
  }

  function Power(b: real, n: nat): real { if n == 0 then 1.0 else b * Power(b, n - 1) }

  ghost predicate Decay(b: real) { b > 0.0 && Power(b, HALF_LIFE_REPLIES) == 0.5 }

  // ---- powers of the decay ----------------------------------------------------------------

  lemma Regroups(a: real, b: real, c: real)
    ensures a * (b * c) == (a * b) * c
  {
  }

  lemma {:induction false} PowerAdds(b: real, m: nat, n: nat)
    ensures Power(b, m + n) == Power(b, m) * Power(b, n)
  {
    if m > 0 {
      PowerAdds(b, m - 1, n);
      Regroups(b, Power(b, m - 1), Power(b, n));
    }
  }

  lemma {:induction false} PowerOfPower(b: real, m: nat, n: nat)
    ensures Power(Power(b, m), n) == Power(b, m * n)
  {
    if n > 0 {
      PowerOfPower(b, m, n - 1);
      PowerAdds(b, m, m * (n - 1));
      assert m + m * (n - 1) == m * n;
    }
  }

  lemma {:induction false} PowerMonotone(a: real, b: real, n: nat)
    requires 0.0 <= a <= b
    ensures 0.0 <= Power(a, n) <= Power(b, n)
  {
    if n > 0 {
      PowerMonotone(a, b, n - 1);
      ProductsInOrder(a, b, Power(a, n - 1), Power(b, n - 1));
    }
  }

  ghost function Product(x: real, y: real): real { x * y }

  lemma ProductsInOrder(a: real, b: real, c: real, d: real)
    requires 0.0 <= a <= b && 0.0 <= c <= d
    ensures 0.0 <= a * c <= b * d
  {
    assert a * c <= b * c <= b * d;
  }

  lemma {:induction false} PowerOfOne(n: nat)
    ensures Power(1.0, n) == 1.0
  {
    if n > 0 { PowerOfOne(n - 1); }
  }

  lemma DecayBelowOne(b: real)
    requires Decay(b)
    ensures 0.0 < b < 1.0
  {
    if b >= 1.0 {
      PowerMonotone(1.0, b, HALF_LIFE_REPLIES);
      PowerOfOne(HALF_LIFE_REPLIES);
    }
  }

  lemma {:induction false} PowerPositive(b: real, n: nat)
    requires Decay(b)
    ensures 0.0 < Power(b, n) <= 1.0
  {
    DecayBelowOne(b);
    if n > 0 {
      PowerPositive(b, n - 1);
      var p := Power(b, n - 1);
      assert 0.0 < b * p;
      assert b * p <= 1.0 * p;
    }
  }

  lemma {:induction false} PowerShrinks(b: real, m: nat, n: nat)
    requires Decay(b) && m <= n
    ensures Power(b, n) <= Power(b, m)
  {
    PowerAdds(b, n - m, m);
    PowerPositive(b, n - m);
    PowerPositive(b, m);
    var x, y := Power(b, n - m), Power(b, m);
    assert x * y <= 1.0 * y;
  }

  /** After two hundred replies an old one weighs one part in 1024. */
  lemma WindowWeight(b: real)
    requires Decay(b)
    ensures Power(b, WINDOW) == 1.0 / 1024.0
  {
    PowerOfPower(b, HALF_LIFE_REPLIES, 10);
    var h := 0.5;
    assert Power(h, 1) == h * Power(h, 0) == h;
    assert Power(h, 2) == h * Power(h, 1) == 0.25;
    assert Power(h, 3) == h * Power(h, 2) == 0.125;
    assert Power(h, 4) == h * Power(h, 3) == 0.0625;
    assert Power(h, 5) == h * Power(h, 4) == 0.03125;
    assert Power(h, 6) == h * Power(h, 5) == 0.015625;
    assert Power(h, 7) == h * Power(h, 6) == 0.0078125;
    assert Power(h, 8) == h * Power(h, 7) == 0.00390625;
    assert Power(h, 9) == h * Power(h, 8) == 0.001953125;
    assert Power(h, 10) == h * Power(h, 9) == 1.0 / 1024.0;
  }

  lemma PowerOrder(a: real, b: real, n: nat)
    requires 0.0 <= a && 0.0 <= b
    ensures a <= b ==> Power(a, n) <= Power(b, n)
  {
    if a <= b { PowerMonotone(a, b, n); }
  }

  /** The decay passes 0.6 between the fourteenth and the fifteenth power: b^60 is an eighth,
      less than 0.6^4, and b^140 is one part in 128, more than 0.6^10. */
  lemma DecayCrossesPauseLine(b: real)
    requires Decay(b)
    ensures Power(b, 14) > 0.6 > Power(b, 15)
  {
    var p, q := Power(b, 14), Power(b, 15);
    PowerPositive(b, 14);
    PowerPositive(b, 15);
    PowerOfPower(b, 15, 4);
    PowerOfPower(b, HALF_LIFE_REPLIES, 3);
    PowerOrder(0.6, q, 4);
    FourthPower(0.6);
    ThirdPower(0.5);
    PowerOfPower(b, 14, 10);
    PowerOfPower(b, HALF_LIFE_REPLIES, 7);
    PowerOrder(p, 0.6, 10);
    TenthOfSixTenths();
    SeventhPower(0.5);
  }

  lemma TenthOfSixTenths()
    ensures Power(0.6, 10) < 0.0061
  {
    PowerAdds(0.6, 5, 5);
    FifthPower(0.6);
  }

  lemma ThirdPower(x: real)
    ensures Power(x, 3) == x * x * x
  {
    assert Power(x, 1) == x * Power(x, 0) && Power(x, 2) == x * Power(x, 1) && Power(x, 3) == x * Power(x, 2);
  }

  lemma FourthPower(x: real)
    ensures Power(x, 4) == x * x * x * x
  {
    ThirdPower(x);
    assert Power(x, 4) == x * Power(x, 3);
  }

  lemma FifthPower(x: real)
    ensures Power(x, 5) == x * x * x * x * x
  {
    FourthPower(x);
    assert Power(x, 5) == x * Power(x, 4);
  }

  lemma SeventhPower(x: real)
    ensures Power(x, 7) == x * x * x * x * x * x * x
  {
    FifthPower(x);
    assert Power(x, 6) == x * Power(x, 5) && Power(x, 7) == x * Power(x, 6);
  }

  // ---- the mean -------------------------------------------------------------------------------

  /** The closed form: reply i of n weighs (1 - b) * b^(n - 1 - i). */
  ghost function Weighted(b: real, xs: seq<Intent>): real {
    WeightedUpTo(b, xs, |xs|)
  }

  ghost function WeightedUpTo(b: real, xs: seq<Intent>, k: nat): real
    requires k <= |xs|
  {
    if k == 0 then 0.0
    else WeightedUpTo(b, xs, k - 1) + Term(b, |xs| - k, Score(xs[k - 1]))
  }

  ghost function Term(b: real, age: nat, score: real): real { (1.0 - b) * Power(b, age) * score }

  lemma TermDecays(b: real, age: nat, s: real)
    ensures Term(b, age + 1, s) == b * Term(b, age, s)
    ensures Term(b, 0, s) == (1.0 - b) * s
  {
    var w := Power(b, age);
    assert (1.0 - b) * (b * w) * s == b * ((1.0 - b) * w * s);
    assert Power(b, 0) == 1.0;
  }

  lemma {:induction false} OneMoreReply(b: real, xs: seq<Intent>, x: Intent, k: nat)
    requires k <= |xs|
    ensures WeightedUpTo(b, xs + [x], k) == b * WeightedUpTo(b, xs, k)
  {
    hide Term;
    if k > 0 {
      var rest, term := WeightedUpTo(b, xs, k - 1), Term(b, |xs| - k, Score(xs[k - 1]));
      OneMoreReply(b, xs, x, k - 1);
      TermDecays(b, |xs| - k, Score(xs[k - 1]));
      assert (xs + [x])[k - 1] == xs[k - 1];
      assert |xs + [x]| - k == |xs| - k + 1;
      Distributes(b, rest, term);
    }
  }

  lemma Distributes(b: real, x: real, y: real)
    ensures b * x + b * y == b * (x + y)
  {
  }

  /** The loop over the replies, oldest first, computes the closed weighted sum. */
  method CohortSentiment(b: real, intents: seq<Intent>) returns (score: real)
    ensures score == Weighted(b, intents)
  {
    hide Term;
    var alpha := 1.0 - b;
    score := 0.0;
    var i := 0;
    while i < |intents|
      invariant 0 <= i <= |intents|
      invariant score == Weighted(b, intents[..i])
    {
      Appended(b, intents[..i], intents[i]);
      assert intents[..i] + [intents[i]] == intents[..i + 1];
      score := score + alpha * (Score(intents[i]) - score);
      i := i + 1;
    }
    assert intents[..i] == intents;
  }

  /** One step of the loop: the old mean decays and the new score takes the rest. */
  ghost function Mix(b: real, mean: real, score: real): real { b * mean + (1.0 - b) * score }

  lemma EmptyMean(b: real)
    ensures Weighted(b, []) == 0.0 && Power(b, 0) == 1.0
  {
  }

  lemma Appended(b: real, xs: seq<Intent>, x: Intent)
    ensures Weighted(b, xs + [x]) == Mix(b, Weighted(b, xs), Score(x))
  {
    hide Term;
    OneMoreReply(b, xs, x, |xs|);
    TermDecays(b, 0, Score(x));
  }

  ghost predicate Between(mean: real, weight: real, lo: real, hi: real) {
    lo * (1.0 - weight) <= mean <= hi * (1.0 - weight)
  }

  /** n replies scored between lo and hi keep the mean between lo and hi times (1 - b^n). */
  lemma {:induction false} MeanBetween(b: real, xs: seq<Intent>, lo: real, hi: real)
    requires Decay(b) && lo <= 0.0 <= hi && forall i :: 0 <= i < |xs| ==> lo <= Score(xs[i]) <= hi
    ensures Between(Weighted(b, xs), Power(b, |xs|), lo, hi)
  {
    hide Power, WeightedUpTo, Between, Mix, Product;
    EmptyMean(b);
    if |xs| == 0 {
      assert xs == [];
      assert Between(0.0, 1.0, lo, hi) by { NothingIsBetween(lo, hi); }
    } else {
      var front, x := xs[..|xs| - 1], xs[|xs| - 1];
      assert xs == front + [x];
      MeanBetween(b, front, lo, hi);
      DecayBelowOne(b);
      Appended(b, front, x);
      PowerStep(b, |front|);
      ConvexStep(b, Power(b, |front|), Weighted(b, front), Score(x), lo, hi);
    }
  }

  lemma NothingIsBetween(lo: real, hi: real)
    ensures Between(0.0, 1.0, lo, hi)
  {
  }

  lemma PowerStep(b: real, n: nat)
    ensures Power(b, n + 1) == Product(b, Power(b, n))
  {
  }

  lemma MixIsSum(b: real, w: real, s: real)
    ensures Mix(b, w, s) == Product(b, w) + Product(1.0 - b, s)
  {
  }

  lemma ConvexIdentity(b: real, p: real, lo: real)
    ensures Product(b, lo * (1.0 - p)) + Product(1.0 - b, lo) == lo * (1.0 - Product(b, p))
  {
    assert b * (lo * (1.0 - p)) == b * lo - lo * (b * p);
  }

  lemma Scaled(k: real, x: real, y: real)
    requires k >= 0.0 && x <= y
    ensures Product(k, x) <= Product(k, y)
  {
  }

  lemma ConvexStep(b: real, p: real, w: real, s: real, lo: real, hi: real)
    requires 0.0 < b < 1.0 && lo <= s <= hi && Between(w, p, lo, hi)
    ensures Between(Mix(b, w, s), Product(b, p), lo, hi)
  {
    hide Product, Mix;
    MixIsSum(b, w, s);
    ConvexIdentity(b, p, lo);
    ConvexIdentity(b, p, hi);
    Scaled(b, lo * (1.0 - p), w);
    Scaled(1.0 - b, lo, s);
    Scaled(b, w, hi * (1.0 - p));
    Scaled(1.0 - b, s, hi);
  }

  /** Every mean lies between the harshest and the kindest score. */
  lemma MeanStaysInRange(b: real, xs: seq<Intent>)
    requires Decay(b)
    ensures -3.0 <= Weighted(b, xs) <= 2.0
  {
    MeanBetween(b, xs, -3.0, 2.0);
    PowerPositive(b, |xs|);
  }

  ghost function Blend(recent: real, weight: real, past: real): real { recent + weight * past }

  lemma WholeBlend(w: real)
    ensures Blend(0.0, 1.0, w) == w
  {
  }

  lemma BlendStep(b: real, f: real, p: real, w: real, s: real)
    ensures Mix(b, Blend(f, p, w), s) == Blend(Mix(b, f, s), Product(b, p), w)
  {
    assert b * (p * w) == (b * p) * w;
  }

  /** Forgetting everything before the last replies costs their decayed weight, no more. */
  lemma {:induction false} SplitMean(b: real, past: seq<Intent>, recent: seq<Intent>)
    ensures Weighted(b, past + recent) == Blend(Weighted(b, recent), Power(b, |recent|), Weighted(b, past))
  {
    hide Power, WeightedUpTo, Blend, Mix, Product;
    EmptyMean(b);
    if |recent| == 0 {
      assert past + recent == past && recent == [];
      WholeBlend(Weighted(b, past));
    } else {
      var front, x := recent[..|recent| - 1], recent[|recent| - 1];
      assert recent == front + [x] && past + recent == (past + front) + [x];
      SplitMean(b, past, front);
      Appended(b, front, x);
      Appended(b, past + front, x);
      PowerStep(b, |front|);
      BlendStep(b, Weighted(b, front), Power(b, |front|), Weighted(b, past), Score(x));
    }
  }

  /** Reading only the last two hundred replies is off by at most 3/1024. */
  lemma WindowIsEnough(b: real, history: seq<Intent>)
    requires Decay(b) && |history| > WINDOW
    ensures var windowed := Weighted(b, history[|history| - WINDOW..]);
            -3.0 / 1024.0 <= Weighted(b, history) - windowed <= 2.0 / 1024.0
  {
    var past, recent := history[..|history| - WINDOW], history[|history| - WINDOW..];
    assert history == past + recent;
    SplitMean(b, past, recent);
    WindowWeight(b);
    MeanStaysInRange(b, past);
  }

  function Repeat(x: Intent, n: nat): (xs: seq<Intent>)
    ensures |xs| == n && forall i :: 0 <= i < n ==> xs[i] == x
  {
    seq(n, i => x)
  }

  lemma UniformStep(b: real, p: real, s: real)
    ensures Mix(b, Product(s, 1.0 - p), s) == Product(s, 1.0 - Product(b, p))
  {
    assert b * (s * p) == s * (b * p);
  }

  lemma NothingLeft(s: real)
    ensures Product(s, 0.0) == 0.0
  {
  }

  /** n replies of one kind score that kind's value times (1 - b^n). */
  lemma {:induction false} UniformMean(b: real, x: Intent, n: nat)
    ensures Weighted(b, Repeat(x, n)) == Product(Score(x), 1.0 - Power(b, n))
  {
    hide Mix, Weighted, Score, Product;
    if n > 0 {
      UniformMean(b, x, n - 1);
      PowerStep(b, n - 1);
      assert Repeat(x, n) == Repeat(x, n - 1) + [x];
      Appended(b, Repeat(x, n - 1), x);
      UniformStep(b, Power(b, n - 1), Score(x));
    } else {
      EmptyMean(b);
      assert Repeat(x, 0) == [];
      NothingLeft(Score(x));
    }
  }

  /** What replies of one kind score, kind by kind. */
  lemma KindMean(b: real, n: nat)
    ensures var w := 1.0 - Power(b, n);
      && Weighted(b, Repeat(Interested, n)) == 2.0 * w && Weighted(b, Repeat(Objection, n)) == -0.5 * w
      && Weighted(b, Repeat(NotInterested, n)) == -1.0 * w && Weighted(b, Repeat(Unsubscribe, n)) == -2.0 * w
      && Weighted(b, Repeat(Hostile, n)) == -3.0 * w && Weighted(b, Repeat(Unlisted, n)) == 0.0
  {
    hide Weighted, Power, Repeat;
    forall x ensures Weighted(b, Repeat(x, n)) == Product(Score(x), 1.0 - Power(b, n)) { UniformMean(b, x, n); }
  }

  lemma HostileMean(b: real, n: nat)
    ensures Weighted(b, Repeat(Hostile, n)) == -3.0 * (1.0 - Power(b, n))
  {
    UniformMean(b, Hostile, n);
  }

  /** Refusals alone throttle a cohort from the twenty-first on; objections alone never do. */
  lemma WhatThrottles(b: real, n: nat)
    requires Decay(b)
    ensures Weighted(b, Repeat(NotInterested, n)) < THROTTLE_BELOW <==> n >= 21
    ensures !(Weighted(b, Repeat(Objection, n)) < THROTTLE_BELOW)
  {
    hide Weighted, Repeat;
    KindMean(b, n);
    PowerPositive(b, n);
    if n >= 21 {
      PowerShrinks(b, 21, n);
      DecayBelowOne(b);
      assert Power(b, 21) == b * Power(b, 20);
    } else {
      PowerShrinks(b, n, 20);
    }
  }

  /** The pause line can be crossed with n replies if and only if n is at least fifteen. */
  lemma PauseNeedsFifteen(b: real, n: nat)
    requires Decay(b)
    ensures (exists xs: seq<Intent> :: |xs| == n && Weighted(b, xs) < PAUSE_BELOW) <==> n >= 15
  {
    DecayCrossesPauseLine(b);
    if n >= 15 {
      PowerShrinks(b, 15, n);
      HostileMean(b, n);
      assert |Repeat(Hostile, n)| == n && Weighted(b, Repeat(Hostile, n)) < PAUSE_BELOW;
    } else {
      forall xs: seq<Intent> | |xs| == n ensures !(Weighted(b, xs) < PAUSE_BELOW) {
        PowerShrinks(b, n, 14);
        MeanBetween(b, xs, -3.0, 2.0);
      }
    }
  }

  // ---- acting on it ---------------------------------------------------------------------------

  datatype Action = NoAction | Throttled | Paused

  function Recent(history: seq<Intent>): seq<Intent> {
    if |history| <= WINDOW then history else history[|history| - WINDOW..]
  }

  /** What one evaluation does to the month's cap; `throttledBefore` and `pausedBefore` say
      whether the audit trail already shows that action this period. */
  ghost function Verdict(b: real, history: seq<Intent>, throttledBefore: bool, pausedBefore: bool): Action {
    var score := Weighted(b, Recent(history));
    if |Recent(history)| < MIN_REPLIES then NoAction
    else if score < PAUSE_BELOW then (if pausedBefore then NoAction else Paused)
    else if score < THROTTLE_BELOW then (if throttledBefore then NoAction else Throttled)
    else NoAction
  }

  function CapAfter(action: Action, cap: nat): nat {
    match action
    case NoAction => cap
    case Paused => 0
    case Throttled => if cap / 2 > 1 then cap / 2 else 1
  }

  /** When an evaluation acts, over the last two hundred replies, and what becomes of the cap: a
      pause leaves nothing, a throttle half, rounded down, but at least one. */
  lemma ActsExactly(b: real, history: seq<Intent>, throttledBefore: bool, pausedBefore: bool, cap: nat)
    ensures var last := history[if |history| > 200 then |history| - 200 else 0..];
      var action := Verdict(b, history, throttledBefore, pausedBefore);
      var left := CapAfter(action, cap);
      && (action == Paused <==> |last| >= 10 && Weighted(b, last) < -1.2 && !pausedBefore)
      && (action == Throttled <==> |last| >= 10 && -1.2 <= Weighted(b, last) < -0.5 && !throttledBefore)
      && (action == Paused ==> left == 0) && (action == NoAction ==> left == cap)
      && (action == Throttled ==> if cap >= 2 then 2 * left == cap || 2 * left + 1 == cap else left == 1)
  {
    hide Weighted;
    assert history[0..] == history;
  }

  class CohortMonth {
    var cap: nat
    var throttled: bool
    var paused: bool
    var escalations: nat

    constructor (cap: nat)
      ensures this.cap == cap && !throttled && !paused && escalations == 0
    {
      this.cap, throttled, paused, escalations := cap, false, false, 0;
    }

    method Evaluate(b: real, history: seq<Intent>) returns (action: Action)
      modifies this
      ensures action == Verdict(b, history, old(throttled), old(paused))
      ensures cap == CapAfter(action, old(cap))
      ensures throttled == (old(throttled) || action == Throttled)
      ensures paused == (old(paused) || action == Paused)
      ensures escalations == old(escalations) + (if action == Paused then 1 else 0)
    {
      var window := Recent(history);
      var score := CohortSentiment(b, window);
      if |window| < MIN_REPLIES { return NoAction; }
      if score < PAUSE_BELOW {
        if paused { return NoAction; }
        cap, paused, escalations := 0, true, escalations + 1;
        return Paused;
      }
      if score < THROTTLE_BELOW {
        if throttled { return NoAction; }
        var half := cap / 2;
        if half < 1 { half := 1; }
        cap, throttled := half, true;
        return Throttled;
      }
      return NoAction;
    }

    /** The classify hook: only every tenth classified reply evaluates at all. */
    method MaybeEvaluate(b: real, history: seq<Intent>) returns (action: Action)
      requires Decay(b)
      modifies this
      ensures |history| == 0 || |history| % EVALUATE_EVERY != 0 ==> action == NoAction && cap == old(cap)
      ensures throttled == (old(throttled) || action == Throttled) && paused == (old(paused) || action == Paused)
      ensures |history| > 0 && |history| % EVALUATE_EVERY == 0 ==>
                action == Verdict(b, history, old(throttled), old(paused)) && cap == CapAfter(action, old(cap))
      ensures action == Paused ==> |history| >= 20
    {
      action := NoAction;
      if |history| > 0 && |history| % EVALUATE_EVERY == 0 {
        action := Evaluate(b, history);
        PauseWaitsForTwenty(b, history, old(throttled), old(paused));
      }
    }
  }

  /** The hook cannot pause a cohort before its twentieth classified reply. */
  lemma PauseWaitsForTwenty(b: real, history: seq<Intent>, throttledBefore: bool, pausedBefore: bool)
    requires Decay(b) && |history| % EVALUATE_EVERY == 0
    ensures Verdict(b, history, throttledBefore, pausedBefore) == Paused ==> |history| >= 20
  {
    if Verdict(b, history, throttledBefore, pausedBefore) == Paused {
      PauseNeedsFifteen(b, |Recent(history)|);
      assert |Recent(history)| == |Recent(history)| && Weighted(b, Recent(history)) < PAUSE_BELOW;
    }
  }

  /** An evaluation raises the cap exactly when it throttles a cap of zero: the cap is zero, the
      month has no throttle yet, there are replies enough, and their score lies between the
      pause line and the throttle line. */
  lemma ThrottleRaisesOnlyZero(b: real, history: seq<Intent>, throttledBefore: bool, pausedBefore: bool, cap: nat)
    ensures CapAfter(Verdict(b, history, throttledBefore, pausedBefore), cap) > cap <==>
      && cap == 0 && !throttledBefore && |history| >= MIN_REPLIES
      && PAUSE_BELOW <= Weighted(b, Recent(history)) < THROTTLE_BELOW
  {
    hide Weighted;
  }

  // ---- a whole month ----------------------------------------------------------------------------

  /** The month after some evaluations, with the action each of them took. */
  datatype Month = Month(cap: nat, throttled: bool, paused: bool, actions: seq<Action>)

  ghost function After(b: real, cap: nat, evaluations: seq<seq<Intent>>): Month {
    if evaluations == [] then Month(cap, false, false, [])
    else
      var m := After(b, cap, evaluations[..|evaluations| - 1]);
      var a := Verdict(b, evaluations[|evaluations| - 1], m.throttled, m.paused);
      Month(CapAfter(a, m.cap), m.throttled || a == Throttled, m.paused || a == Paused, m.actions + [a])
  }

  lemma {:induction false} FlagsRemember(b: real, cap: nat, evaluations: seq<seq<Intent>>)
    ensures var m := After(b, cap, evaluations);
      && |m.actions| == |evaluations|
      && (m.throttled <==> Throttled in m.actions) && (m.paused <==> Paused in m.actions)
  {
    hide Verdict;
    if evaluations != [] { FlagsRemember(b, cap, evaluations[..|evaluations| - 1]); }
  }

  /** Whatever replies come in, a month throttles at most once and pauses at most once. */
  lemma {:induction false} ActsOncePerPeriod(b: real, cap: nat, evaluations: seq<seq<Intent>>, i: nat, j: nat)
    requires i < j < |After(b, cap, evaluations).actions|
    ensures After(b, cap, evaluations).actions[i] == After(b, cap, evaluations).actions[j] ==>
      After(b, cap, evaluations).actions[i] == NoAction
  {
    hide Weighted, Recent;
    var past := evaluations[..|evaluations| - 1];
    FlagsRemember(b, cap, past);
    if j < |past| { ActsOncePerPeriod(b, cap, past, i, j); }
  }

  /** A month's cap ends no higher than it began, unless it began at zero: then at one. */
  lemma {:induction false} CapOverPeriod(b: real, cap: nat, evaluations: seq<seq<Intent>>)
    ensures After(b, cap, evaluations).cap <= (if cap == 0 then 1 else cap)
  {
    hide Verdict;
    if evaluations != [] { CapOverPeriod(b, cap, evaluations[..|evaluations| - 1]); }
  }

  // ---- a pause that the throttle undoes ------------------------------------------------------------

  lemma HalfOfHalfLife(b: real)
    requires Decay(b)
    ensures 0.5 < Power(b, 10) < 0.8
  {
    PowerPositive(b, 10);
    PowerAdds(b, 10, 10);
    SquareRootOfHalf(Power(b, 10));
  }

  lemma SquareRootOfHalf(p: real)
    requires p > 0.0 && p * p == 0.5
    ensures 0.5 < p < 0.8
  {
    if p <= 0.5 { ProductsInOrder(p, 0.5, p, 0.5); }
    if p >= 0.8 { ProductsInOrder(0.8, p, 0.8, p); }
  }

  function Harsh(): seq<Intent> { Repeat(Hostile, 20) }
  function Mild(): seq<Intent> { Harsh() + Repeat(Unlisted, 10) }

  lemma HarshScore(b: real)
    requires Decay(b)
    ensures Recent(Harsh()) == Harsh() && |Harsh()| == 20 && Weighted(b, Harsh()) == -1.5
  {
    HostileMean(b, 20);
  }

  lemma MildScore(b: real)
    requires Decay(b)
    ensures Recent(Mild()) == Mild() && |Mild()| == 30 && PAUSE_BELOW < Weighted(b, Mild()) < THROTTLE_BELOW
  {
    hide Weighted, Power, Blend;
    SplitMean(b, Harsh(), Repeat(Unlisted, 10));
    HarshScore(b);
    KindMean(b, 10);
    HalfOfHalfLife(b);
    BlendOfNothing(Power(b, 10));
  }

  lemma BlendOfNothing(p: real)
    ensures Blend(0.0, p, -1.5) == -1.5 * p
  {
  }

  /** Twenty hostile replies pause the cohort; ten neutral ones later in the month, which only
      milden the score, throttle it and so lift its cap from zero to one. */
  lemma PauseThenThrottleReopens(b: real, cap: nat)
    requires Decay(b)
    ensures Harsh() <= Mild()
    ensures After(b, cap, [Harsh()]).actions == [Paused] && After(b, cap, [Harsh()]).cap == 0
    ensures After(b, cap, [Harsh(), Mild()]).actions == [Paused, Throttled] && After(b, cap, [Harsh(), Mild()]).cap == 1
  {
    HarshScore(b);
    MildScore(b);
    hide Weighted, Recent, Decay;
    assert Verdict(b, Harsh(), false, false) == Paused && Verdict(b, Mild(), false, true) == Throttled;
    assert [Harsh()][..0] == [] && [Harsh(), Mild()][..1] == [Harsh()];
  }

  /** The same through the classify hook: the month's cap after the twentieth and the thirtieth reply. */
  method ReopenedMonth(b: real, cap: nat) returns (month: CohortMonth, atTwenty: nat, atThirty: nat)
    requires Decay(b)
    ensures atTwenty == 0 && atThirty == 1 && fresh(month) && month.cap == atThirty && month.paused && month.throttled
  {
    HarshScore(b);
    MildScore(b);
    hide Weighted, Recent;
    month := new CohortMonth(cap);
    var first := month.MaybeEvaluate(b, Harsh());
    atTwenty := month.cap;
    var second := month.MaybeEvaluate(b, Mild());
    atThirty := month.cap;
  }
}
