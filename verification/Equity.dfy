/** R-multiples and the equity curve: the journal's single formula against the batch model's three cases. */
module Equity {
  import opened Market
  import opened FvgModel

  function Abs(x: real): real { if x >= 0.0 then x else -x }

  /** Realized move over planned risk. */
  function RealizedR(t: Trade): real {
    var risk := Abs(t.entry - t.stop);
    if risk == 0.0 then 0.0
    else
      var pnl := if t.side == Long then t.exitPrice - t.entry else t.entry - t.exitPrice;
      pnl / risk
  }

  /** One trade of the journal's equity chain. */
  function EquityAfter(before: real, riskPct: real, t: Trade): real {
    before + before * riskPct * RealizedR(t)
  }

  function Curve(start: real, riskPct: real, trades: seq<Trade>): (c: seq<real>)
    ensures |c| == |trades| + 1 && c[0] == start
  {
    if trades == [] then [start]
    else
      var c := Curve(start, riskPct, trades[..|trades| - 1]);
      c + [EquityAfter(c[|c| - 1], riskPct, trades[|trades| - 1])]
  }

  ghost predicate WellFormed(day: seq<Bar>) {
    forall k :: 0 <= k < |day| ==> day[k].low <= day[k].close <= day[k].high
  }

  /** What every trade of the engine satisfies: a planned risk of at least five pips, recorded in pips, a target beyond
      the entry, exits at the stop or the target, and a scratch short of both. */
  predicate Sound(t: Trade) {
    var sign := if t.side == Long then 1.0 else -1.0;
    && t.riskPips >= MIN_STOP_PIPS
    && sign * (t.entry - t.stop) == t.riskPips * 0.0001
    && sign * (t.target - t.entry) > 0.0
    && match t.outcome
       case Loss => t.exitPrice == t.stop
       case Win => t.exitPrice == t.target
       case Scratch => sign * (t.exitPrice - t.stop) > 0.0 && sign * (t.target - t.exitPrice) > 0.0
  }

  lemma EngineTradesAreSound(day: seq<Bar>, s: Session, w: Option<Key>)
    requires WellFormed(day) && Verdict(day, s, w) && w.Some?
    ensures Sound(TradeFor(day, s, w).value)
  {
    hide IsRaid, IsMss;
    var j := w.value.mss;
    TradeSound(day, s.side, j);
  }

  lemma TradeSound(day: seq<Bar>, side: Side, j: nat)
    requires WellFormed(day) && j < |day| && Accepted(day, side, j) && AttemptAt(day, side, j, |day|).HasFilled()
    ensures Sound(TradeOf(day, side, j))
  {
    hide FirstTouch, FirstExit, Target, FindFvg;
    var st := SetupAt(day, side, j).value;
    var a := AttemptAt(day, side, j, |day|);
    var last := day[|day| - 1];
    if a.Open? {
      assert FirstExit(day, side, st.stop, a.target, a.fillBar, |day|) == |day|;
      assert !StopHit(last, side, st.stop) && !TargetHit(last, side, a.target);
    }
  }

  /** R is -1 on a loss, positive on a win and above -1 on a scratch. */
  lemma RBounds(t: Trade)
    requires Sound(t)
    ensures t.outcome == Loss ==> RealizedR(t) == -1.0
    ensures t.outcome == Win ==> RealizedR(t) > 0.0
    ensures t.outcome == Scratch ==> RealizedR(t) > -1.0
    ensures t.outcome == Scratch ==> RealizedR(t) < Abs(t.target - t.entry) / (t.riskPips * 0.0001)
  {
    var risk := Abs(t.entry - t.stop);
    assert risk == t.riskPips * 0.0001 && risk > 0.0;
    var pnl := if t.side == Long then t.exitPrice - t.entry else t.entry - t.exitPrice;
    match t.outcome {
      case Loss => Divide(pnl, risk, -1.0);
      case Win => Ordered(0.0, pnl, risk);
      case Scratch =>
        Ordered(-risk, pnl, risk);
        Divide(-risk, risk, -1.0);
        Ordered(pnl, Abs(t.target - t.entry), risk);
    }
  }

  lemma Divide(x: real, d: real, r: real)
    requires d > 0.0 && x == r * d
    ensures x / d == r
  {
  }

  lemma Ordered(x: real, y: real, d: real)
    requires d > 0.0 && x < y
    ensures x / d < y / d
  {
    assert (y - x) / d > 0.0;
    assert y / d == x / d + (y - x) / d;
  }

  /** Equity stays positive and loses at most the risked fraction. */
  predicate Keeps(riskPct: real, before: real, after: real) {
    after > 0.0 && after >= before * (1.0 - riskPct)
  }

  /** One trade costs at most the risked fraction, and exactly that on a loss. */
  lemma StepBound(before: real, riskPct: real, t: Trade)
    requires Sound(t) && before > 0.0 && 0.0 < riskPct < 1.0
    ensures EquityAfter(before, riskPct, t) > 0.0 && Keeps(riskPct, before, EquityAfter(before, riskPct, t))
    ensures t.outcome == Loss ==> EquityAfter(before, riskPct, t) == before * (1.0 - riskPct)
    ensures t.outcome == Win ==> EquityAfter(before, riskPct, t) > before
  {
    RBounds(t);
    StepArithmetic(before, riskPct, RealizedR(t));
  }

  lemma StepArithmetic(before: real, riskPct: real, r: real)
    requires before > 0.0 && 0.0 < riskPct < 1.0 && r >= -1.0
    ensures var after := before + before * riskPct * r;
            && after > 0.0 && after >= before * (1.0 - riskPct)
            && (r == -1.0 ==> after == before * (1.0 - riskPct))
            && (r > 0.0 ==> after > before)
  {
    var stake := before * riskPct;
    Positive(before, riskPct);
    Positive(before, 1.0 - riskPct);
    if r > -1.0 { Positive(stake, r + 1.0); }
    if r > 0.0 { Positive(stake, r); }
    assert stake * (r + 1.0) == stake * r + stake;
  }

  lemma Positive(x: real, y: real)
    requires x > 0.0 && y > 0.0
    ensures x * y > 0.0
  {
  }

  /** The whole curve stays positive, and no step loses more than the risked fraction. */
  lemma {:induction false} CurveBound(start: real, riskPct: real, trades: seq<Trade>)
    requires start > 0.0 && 0.0 < riskPct < 1.0
    requires forall t :: t in trades ==> Sound(t)
    ensures var c := Curve(start, riskPct, trades);
            && c[|c| - 1] > 0.0
            && forall k :: 0 <= k < |c| - 1 ==> Keeps(riskPct, c[k], c[k + 1])
  {
    hide Keeps, EquityAfter, Sound;
    if trades != [] {
      var n := |trades| - 1;
      var c := Curve(start, riskPct, trades[..n]);
      CurveBound(start, riskPct, trades[..n]);
      assert trades[n] in trades;
      StepBound(c[n], riskPct, trades[n]);
    }
  }

  /** The batch model's report loop, with its three cases. */
  method BatchCurve(trades: seq<Trade>) returns (curve: seq<real>)
    requires forall t :: t in trades ==> Sound(t)
    ensures curve == Curve(100.0, 0.01, trades)
  {
    hide EquityAfter, Sound;
    var equity := 100.0;
    curve := [equity];
    var k := 0;
    while k < |trades|
      invariant 0 <= k <= |trades|
      invariant curve == Curve(100.0, 0.01, trades[..k]) && equity == curve[k]
    {
      var t := trades[k];
      assert t in trades;
      assert trades[..k + 1][..k] == trades[..k];
      BatchStepIs(equity, t);
      ghost var before := equity;
      var riskAmount := equity * 0.01;
      var risk := t.riskPips * 0.0001;
      if t.outcome == Win {
        equity := equity + riskAmount * (Abs(t.target - t.entry) / risk);
      } else if t.outcome == Loss {
        equity := equity - riskAmount;
      } else {
        var moved := if t.side == Long then t.exitPrice - t.entry else t.entry - t.exitPrice;
        equity := equity + riskAmount * (moved / risk);
      }
      assert equity == EquityAfter(before, 0.01, t);
      curve := curve + [equity];
      k := k + 1;
    }
    assert trades[..k] == trades;
  }

  /** The batch model's step in each case is the single formula's. */
  lemma BatchStepIs(before: real, t: Trade)
    requires Sound(t)
    ensures t.riskPips * 0.0001 != 0.0
    ensures EquityAfter(before, 0.01, t) ==
            match t.outcome
            case Win => before + before * 0.01 * (Abs(t.target - t.entry) / (t.riskPips * 0.0001))
            case Loss => before - before * 0.01
            case Scratch =>
              var moved := if t.side == Long then t.exitPrice - t.entry else t.entry - t.exitPrice;
              before + before * 0.01 * (moved / (t.riskPips * 0.0001))
  {
    hide RealizedR;
    ThreeCases(t);
  }

  /** The single R formula specializes to the three cases. */
  lemma ThreeCases(t: Trade)
    requires Sound(t)
    ensures var risk := t.riskPips * 0.0001;
            RealizedR(t) ==
            match t.outcome
            case Win => Abs(t.target - t.entry) / risk
            case Loss => -1.0
            case Scratch => (if t.side == Long then t.exitPrice - t.entry else t.entry - t.exitPrice) / risk
  {
    RBounds(t);
  }
}
