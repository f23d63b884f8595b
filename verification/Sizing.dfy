/** Position sizing and the live target. */
module Sizing {
  import opened Market
  import opened FvgModel
  import opened Detectors
  import opened TradeAttempts

  datatype Symbol = Symbol(tickSize: real, tickValue: real, volumeMin: real, volumeMax: real, volumeStep: real)

  predicate ValidSymbol(sym: Symbol) {
    && sym.tickSize > 0.0 && sym.tickValue > 0.0 && sym.volumeStep > 0.0
    && 0.0 < sym.volumeMin <= sym.volumeMax
  }

  /** Risk budget over the money one lot loses at the stop, by way of pips. */
  function RawLots(balance: real, riskPct: real, stopDistance: real, sym: Symbol): real
    requires ValidSymbol(sym) && stopDistance > 0.0
  {
    var ticksPerPip := 0.0001 / sym.tickSize;
    PositiveProduct(sym.tickValue, ticksPerPip);
    var pipValuePerLot := sym.tickValue * ticksPerPip;
    var stopPips := Pips(stopDistance);
    PositiveProduct(stopPips, pipValuePerLot);
    balance * riskPct / (stopPips * pipValuePerLot)
  }

  lemma PositiveProduct(x: real, y: real)
    ensures x > 0.0 && y > 0.0 ==> x * y > 0.0
  {
  }

  /** Money one lot loses when the stop is hit. */
  function LossPerLot(stopDistance: real, sym: Symbol): real
    requires ValidSymbol(sym)
  {
    stopDistance * sym.tickValue / sym.tickSize
  }

  /** Python's int(): truncation toward zero. */
  function Truncate(x: real): int {
    if x >= 0.0 then x.Floor else -((-x).Floor)
  }

  /** Whole volume steps within the budget, with the code's 1e-9 slack. */
  function Steps(raw: real, step: real): int
    requires step > 0.0
  {
    Truncate(raw / step + 0.000000001)
  }

  /** The volume of n steps. */
  function Whole(n: int, step: real): real { n as real * step }

  /** Whole steps, raised to the broker's minimum and cut to its maximum. */
  function ClampedLots(balance: real, riskPct: real, stopDistance: real, sym: Symbol): (r: real)
    requires ValidSymbol(sym) && stopDistance > 0.0
    ensures sym.volumeMin <= r <= sym.volumeMax
  {
    var lots := Whole(Steps(RawLots(balance, riskPct, stopDistance, sym), sym.volumeStep), sym.volumeStep);
    var floored := if lots < sym.volumeMin then sym.volumeMin else lots;
    if floored > sym.volumeMax then sym.volumeMax else floored
  }

  /** The nearest integer, ties to even. */
  function Nearest(y: real): int {
    var low := y.Floor;
    if y - low as real > 0.5 || (y - low as real == 0.5 && low % 2 == 1) then low + 1 else low
  }

  /** Python's round(x, 8). */
  function Round8(x: real): (r: real)
    ensures -0.000000005 <= r - x <= 0.000000005
  {
    Nearest(x * 100000000.0) as real / 100000000.0
  }

  /** x has at most eight decimals. */
  ghost predicate EightDecimals(x: real) {
    x * 100000000.0 == (x * 100000000.0).Floor as real
  }

  /** The size of a position; None when the stop distance is not positive. */
  function LotSize(balance: real, riskPct: real, stopDistance: real, sym: Symbol): (r: Option<real>)
    requires ValidSymbol(sym)
    ensures r.Some? <==> stopDistance > 0.0
    ensures r.Some? ==> sym.volumeMin - 0.000000005 <= r.value <= sym.volumeMax + 0.000000005
  {
    if stopDistance <= 0.0 then None else Some(Round8(ClampedLots(balance, riskPct, stopDistance, sym)))
  }

  lemma NearestKeepsSide(y: real, n: int)
    ensures y >= n as real ==> Nearest(y) >= n
    ensures y <= n as real ==> Nearest(y) <= n
  {
  }

  /** Rounding never crosses a number of at most eight decimals. */
  lemma RoundKeepsSide(x: real, bound: real)
    requires EightDecimals(bound)
    ensures x >= bound ==> Round8(x) >= bound
    ensures x <= bound ==> Round8(x) <= bound
  {
    hide Nearest;
    NearestKeepsSide(x * 100000000.0, (bound * 100000000.0).Floor);
  }

  lemma RoundMonotone(x: real, y: real)
    requires x <= y
    ensures Round8(x) <= Round8(y)
  {
    hide Nearest;
    NearestMonotone(x * 100000000.0, y * 100000000.0);
  }

  lemma NearestMonotone(y: real, z: real)
    requires y <= z
    ensures Nearest(y) <= Nearest(z)
  {
  }

  /** The size for this balance, risk share and stop respects the broker's bounds. */
  predicate InBounds(balance: real, riskPct: real, stopDistance: real, sym: Symbol)
    requires ValidSymbol(sym) && stopDistance > 0.0
  {
    sym.volumeMin <= LotSize(balance, riskPct, stopDistance, sym).value <= sym.volumeMax
  }

  /** A symbol's bounds are respected for every balance, risk share and stop exactly when rounding to eight digits
      neither lowers its minimum nor raises its maximum. */
  lemma BoundsRespected(sym: Symbol)
    requires ValidSymbol(sym)
    ensures (forall balance, riskPct, stopDistance :: stopDistance > 0.0 ==>
              InBounds(balance, riskPct, stopDistance, sym)) <==>
            Round8(sym.volumeMin) >= sym.volumeMin && Round8(sym.volumeMax) <= sym.volumeMax
  {
    hide Round8, ClampedLots, LossPerLot;
    if Round8(sym.volumeMin) >= sym.volumeMin && Round8(sym.volumeMax) <= sym.volumeMax {
      forall balance, riskPct, stopDistance | stopDistance > 0.0
        ensures InBounds(balance, riskPct, stopDistance, sym)
      {
        var lots := ClampedLots(balance, riskPct, stopDistance, sym);
        RoundMonotone(sym.volumeMin, lots);
        RoundMonotone(lots, sym.volumeMax);
      }
    }
    EmptyBudget(1.0, sym);
    var budget := (sym.volumeMax + sym.volumeStep) * LossPerLot(1.0, sym);
    LargeBudget(budget, sym);
    if forall balance, riskPct, stopDistance :: stopDistance > 0.0 ==> InBounds(balance, riskPct, stopDistance, sym) {
      assert InBounds(0.0, 1.0, 1.0, sym);
      assert InBounds(budget, 1.0, 1.0, sym);
    }
  }

  /** An empty budget buys the broker's minimum. */
  lemma EmptyBudget(stopDistance: real, sym: Symbol)
    requires ValidSymbol(sym) && stopDistance > 0.0
    ensures ClampedLots(0.0, 1.0, stopDistance, sym) == sym.volumeMin
  {
    assert RawLots(0.0, 1.0, stopDistance, sym) == 0.0;
    assert Steps(0.0, sym.volumeStep) == 0;
  }

  /** A budget beyond the maximum buys the maximum. */
  lemma LargeBudget(budget: real, sym: Symbol)
    requires ValidSymbol(sym) && budget == (sym.volumeMax + sym.volumeStep) * LossPerLot(1.0, sym)
    ensures ClampedLots(budget, 1.0, 1.0, sym) == sym.volumeMax
  {
    hide RawLots, Steps, LossPerLot, Whole;
    var raw, lots := RawLots(budget, 1.0, 1.0, sym), sym.volumeMax + sym.volumeStep;
    PipCancels(budget, 1.0, 1.0, sym);
    SameFactor(raw, lots, LossPerLot(1.0, sym));
    StepsBracket(raw, sym.volumeStep);
    assert Whole(Steps(raw, sym.volumeStep), sym.volumeStep) >= sym.volumeMax;
  }

  lemma SameFactor(x: real, y: real, d: real)
    requires d > 0.0 && x * d == y * d
    ensures x == y
  {
    if x < y { ScaleStrict(x, y, d); }
    if y < x { ScaleStrict(y, x, d); }
  }

  /** A minimum of nine decimals that rounding lowers: with an empty budget the size is below it. */
  lemma BelowMinimum()
    ensures var sym := Symbol(0.00001, 1.0, 0.010000001, 100.0, 0.01);
            ValidSymbol(sym) && LotSize(0.0, 0.01, 0.001, sym) == Some(0.01) && !InBounds(0.0, 0.01, 0.001, sym)
  {
    var sym := Symbol(0.00001, 1.0, 0.010000001, 100.0, 0.01);
    assert RawLots(0.0, 0.01, 0.001, sym) == 0.0;
    assert Steps(0.0, sym.volumeStep) == 0;
    assert ClampedLots(0.0, 0.01, 0.001, sym) == sym.volumeMin;
    assert Nearest(1000000.1) == 1000000;
    assert Round8(sym.volumeMin) == 0.01;
  }

  /** With a minimum and a maximum of at most eight decimals the size stays within them; with such a step as well the
      rounding changes nothing. */
  lemma RoundingIsSafe(balance: real, riskPct: real, stopDistance: real, sym: Symbol)
    requires ValidSymbol(sym) && stopDistance > 0.0 && EightDecimals(sym.volumeMin) && EightDecimals(sym.volumeMax)
    ensures sym.volumeMin <= LotSize(balance, riskPct, stopDistance, sym).value <= sym.volumeMax
    ensures EightDecimals(sym.volumeStep) ==>
              LotSize(balance, riskPct, stopDistance, sym).value == ClampedLots(balance, riskPct, stopDistance, sym)
  {
    hide Round8, RawLots, Steps, EightDecimals, Whole;
    var lots := ClampedLots(balance, riskPct, stopDistance, sym);
    RoundKeepsSide(lots, sym.volumeMin);
    RoundKeepsSide(lots, sym.volumeMax);
    if EightDecimals(sym.volumeStep) {
      WholeStepsDecimals(Steps(RawLots(balance, riskPct, stopDistance, sym), sym.volumeStep), sym.volumeStep);
      RoundKeepsSide(lots, lots);
    }
  }

  lemma WholeStepsDecimals(n: int, step: real)
    requires EightDecimals(step)
    ensures EightDecimals(Whole(n, step))
  {
    hide Whole;
    var m := (step * 100000000.0).Floor;
    Scaled(n, step, m as real);
    ProductOfInts(n, m);
    WholeNumber(Whole(n, step) * 100000000.0, n * m);
  }

  lemma Scaled(n: int, y: real, z: real)
    requires y * 100000000.0 == z
    ensures Whole(n, y) * 100000000.0 == n as real * z
  {
    assert n as real * y * 100000000.0 == n as real * (y * 100000000.0);
  }

  lemma WholeNumber(y: real, k: int)
    requires y == k as real
    ensures y == y.Floor as real
  {
  }

  lemma ProductOfInts(n: int, m: int)
    ensures (n * m) as real == n as real * m as real
  {
  }

  /** The pip constant cancels: the raw size is the budget over the loss per lot. */
  lemma PipCancels(balance: real, riskPct: real, stopDistance: real, sym: Symbol)
    requires ValidSymbol(sym) && stopDistance > 0.0
    ensures LossPerLot(stopDistance, sym) > 0.0
    ensures RawLots(balance, riskPct, stopDistance, sym) * LossPerLot(stopDistance, sym) == balance * riskPct
  {
    var ticksPerPip := 0.0001 / sym.tickSize;
    var pipValue := sym.tickValue * ticksPerPip;
    var perLot := Pips(stopDistance) * pipValue;
    PositiveProduct(sym.tickValue, ticksPerPip);
    PositiveProduct(Pips(stopDistance), pipValue);
    SamePerLot(stopDistance, sym.tickValue, sym.tickSize);
    assert perLot == LossPerLot(stopDistance, sym);
    assert (balance * riskPct / perLot) * perLot == balance * riskPct;
  }

  lemma SamePerLot(stop: real, tickValue: real, tickSize: real)
    requires tickSize > 0.0
    ensures (stop / 0.0001) * (tickValue * (0.0001 / tickSize)) == stop * tickValue / tickSize
  {
    var inv := 1.0 / tickSize;
    assert 0.0001 / tickSize == 0.0001 * inv;
    assert (stop * tickValue) / tickSize == (stop * tickValue) * inv;
  }

  /** Within the slacks of the step count and of the rounding, the position never risks more than the budget unless it
      was raised to the broker's minimum, and one more step would exceed the budget unless it was cut to the maximum. */
  lemma RiskBound(balance: real, riskPct: real, stopDistance: real, sym: Symbol)
    requires ValidSymbol(sym) && stopDistance > 0.0
    ensures var clamped := ClampedLots(balance, riskPct, stopDistance, sym);
            var lots := LotSize(balance, riskPct, stopDistance, sym).value;
            var perLot := LossPerLot(stopDistance, sym);
            var budget := balance * riskPct;
            && (clamped > sym.volumeMin ==>
                  lots * perLot <= budget + (0.000000001 * sym.volumeStep + 0.000000005) * perLot)
            && (clamped < sym.volumeMax ==> (lots + sym.volumeStep + 0.000000005) * perLot > budget)
  {
    hide Round8, RawLots, Steps, LossPerLot, Whole;
    var raw := RawLots(balance, riskPct, stopDistance, sym);
    var step := sym.volumeStep;
    var n := Steps(raw, step);
    var perLot := LossPerLot(stopDistance, sym);
    PipCancels(balance, riskPct, stopDistance, sym);
    if raw >= 0.0 {
      StepsBracket(raw, step);
    } else {
      NegativeSteps(raw, step);
    }
    var clamped := ClampedLots(balance, riskPct, stopDistance, sym);
    var lots := LotSize(balance, riskPct, stopDistance, sym).value;
    assert clamped > sym.volumeMin ==> clamped <= Whole(n, step);
    if clamped > sym.volumeMin {
      Scale(lots, raw + (0.000000001 * step + 0.000000005), perLot);
      Spread(raw, 0.000000001 * step + 0.000000005, perLot);
    }
    if clamped < sym.volumeMax {
      ScaleStrict(raw, lots + step + 0.000000005, perLot);
    }
  }

  lemma Spread(x: real, y: real, d: real)
    ensures (x + y) * d == x * d + y * d
  {
  }

  lemma StepsBracket(raw: real, step: real)
    requires step > 0.0 && raw >= 0.0
    ensures var whole := Whole(Steps(raw, step), step);
            whole <= raw + 0.000000001 * step && whole + step > raw
  {
    var q := raw / step;
    var n := Steps(raw, step) as real;
    assert q >= 0.0 && n <= q + 0.000000001 < n + 1.0;
    assert q * step == raw;
    Bracket(raw, q, n, step);
  }

  lemma Bracket(raw: real, q: real, n: real, step: real)
    requires step > 0.0 && n <= q + 0.000000001 && q < n + 1.0 && Product(q, step) == raw
    ensures Product(n, step) <= raw + 0.000000001 * step
    ensures Product(n, step) + step > raw
  {
    hide Product;
    ProductMonotone(n, q + 0.000000001, step);
    ProductMonotone(q, n + 1.0, step);
    ProductAdd(q, 0.000000001, step);
    ProductAdd(n, 1.0, step);
  }

  /** Multiplication, kept apart from the linear reasoning around it. */
  function Product(x: real, y: real): real { x * y }

  lemma ProductMonotone(x: real, y: real, d: real)
    requires d > 0.0
    ensures x <= y ==> Product(x, d) <= Product(y, d)
    ensures x < y ==> Product(x, d) < Product(y, d)
  {
    var gap := (y - x) * d;
    if x < y { PositiveProduct(y - x, d); }
  }

  lemma ProductAdd(x: real, y: real, d: real)
    ensures Product(x + y, d) == Product(x, d) + y * d
  {
  }

  /** A negative budget buys no steps, so the broker's minimum is used. */
  lemma NegativeSteps(raw: real, step: real)
    requires step > 0.0 && raw < 0.0
    ensures Whole(Steps(raw, step), step) <= 0.0
  {
    var q := raw / step;
    if q > 0.0 { PositiveProduct(q, step); }
    assert q * step == raw;
    var n := Steps(raw, step) as real;
    assert n <= 0.0;
    Scale(n, 0.0, step);
  }

  lemma Scale(x: real, y: real, d: real)
    requires x <= y && d > 0.0
    ensures x * d <= y * d
  {
    assert (y - x) * d >= 0.0;
  }

  lemma ScaleStrict(x: real, y: real, d: real)
    requires x < y && d > 0.0
    ensures x * d < y * d
  {
    assert (y - x) * d > 0.0;
  }

  /** The live target of a fill: the midpoint of the most extreme of the last six closed bars; None is the error for
      fewer than six bars. */
  function ComputeTarget(bars: seq<Tick>, side: Side): (r: Option<real>)
    ensures r.Some? <==> |bars| >= 6
    ensures r.Some? ==> exists x :: LeadsLastSix(bars, side, x) && r.value == (bars[x].high + bars[x].low) / 2.0
  {
    if |bars| < TARGET_LOOKBACK then None
    else
      var w := bars[|bars| - TARGET_LOOKBACK..];
      var x := ExtremeTick(w, side);
      assert LeadsLastSix(bars, side, |bars| - 6 + x);
      Some((w[x].high + w[x].low) / 2.0)
  }

  /** Bar x is the first of the last six with the highest high, for a long; with the lowest low, for a short. */
  ghost predicate LeadsLastSix(bars: seq<Tick>, side: Side, x: int) {
    && 0 <= |bars| - 6 <= x < |bars|
    && forall m :: |bars| - 6 <= m < |bars| ==>
         if side == Long then bars[m].high <= bars[x].high && (m < x ==> bars[m].high < bars[x].high)
         else bars[m].low >= bars[x].low && (m < x ==> bars[m].low > bars[x].low)
  }

  /** Handed the bars before a fill, however many, the live computation returns the model's own target. */
  lemma LiveTargetIsModelTarget(day: seq<Bar>, side: Side, bars: seq<Tick>, from: nat)
    requires from <= |day| && |bars| == |day| - from
    requires forall k :: 0 <= k < |bars| ==> bars[k] == TickOf(day, from + k)
    ensures ComputeTarget(bars, side) ==
            if |bars| < TARGET_LOOKBACK then None else Some(Target(day, side, |day|))
  {
    hide LeadsLastSix, ExtremeTick;
    if |bars| >= TARGET_LOOKBACK {
      var w := bars[|bars| - TARGET_LOOKBACK..];
      assert IsWindow(w, day, TARGET_LOOKBACK);
      WindowTarget(w, day, side);
    }
  }
}
