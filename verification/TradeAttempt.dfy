/** One streaming search: minimum stop, limit fill, target from the six bars before the fill, and exit. */
module TradeAttempts {
  import opened Market
  import opened FvgModel
  import opened Journal
  import opened Causality
  import opened Detectors

  datatype Status = Waiting | RejectedMinStop | Filled | GivenUp | Done

  /** What bar b does to a search that stood at AttemptAt(.., b): the batch model's fill and exit loops, one bar on. */
  lemma AttemptStep(day: seq<Bar>, side: Side, j: nat, b: nat)
    requires j < b < |day| && SetupAt(day, side, j).Some?
    ensures var st := SetupAt(day, side, j).value;
            var next := AttemptAt(day, side, j, b + 1);
            match AttemptAt(day, side, j, b)
            case Pending =>
              next == if !Touched(day[b], side, st.entry) then Pending
                      else if b < TARGET_LOOKBACK || !TargetValid(side, Target(day, side, b), st.entry) then Abandoned
                      else Exit(day[b], side, st.stop, Target(day, side, b), b, b)
            case Open(t, p) => next == Exit(day[b], side, st.stop, t, p, b)
            case other => next == other
  {
    hide Target, Touched, StopHit, TargetHit, TargetValid, SetupAt, FirstTouch, FirstExit;
    var st := SetupAt(day, side, j).value;
    TouchStep(day, side, st.entry, j + 1, b);
    var p := FirstTouch(day, side, st.entry, j + 1, b);
    if p == b {
      if TARGET_LOOKBACK <= b { ExitStep(day, side, st.stop, Target(day, side, b), b, b); }
    } else if TARGET_LOOKBACK <= p {
      ExitStep(day, side, st.stop, Target(day, side, p), p, b);
    }
  }

  /** An open search after an exit check on one bar; the stop is checked before the target. */
  function Exit(bar: Bar, side: Side, stop: real, target: real, fillBar: nat, b: nat): Attempt {
    if StopHit(bar, side, stop) then Closed(target, fillBar, b, Loss, stop)
    else if TargetHit(bar, side, target) then Closed(target, fillBar, b, Win, target)
    else Open(target, fillBar)
  }

  lemma {:induction false} TouchStep(day: seq<Bar>, side: Side, entry: real, from: nat, b: nat)
    requires from <= b < |day|
    ensures var p := FirstTouch(day, side, entry, from, b);
            FirstTouch(day, side, entry, from, b + 1) ==
            if p < b then p else if Touched(day[b], side, entry) then b else b + 1
    decreases b - from
  {
    hide Touched;
    if from < b { TouchStep(day, side, entry, from + 1, b); }
  }

  lemma {:induction false} ExitStep(day: seq<Bar>, side: Side, stop: real, target: real, from: nat, b: nat)
    requires from <= b < |day|
    ensures var q := FirstExit(day, side, stop, target, from, b);
            FirstExit(day, side, stop, target, from, b + 1) ==
            if q < b then q
            else if StopHit(day[b], side, stop) || TargetHit(day[b], side, target) then b else b + 1
    decreases b - from
  {
    hide StopHit, TargetHit;
    if from < b { ExitStep(day, side, stop, target, from + 1, b); }
  }

  predicate MoreExtremeTick(t: Tick, t': Tick, side: Side) {
    if side == Long then t.high > t'.high else t.low < t'.low
  }

  /** Python's max (min) of the deque by high (low): the first of the most extreme entries. */
  function ExtremeTick(w: seq<Tick>, side: Side): (x: nat)
    requires w != []
    ensures x < |w|
    ensures forall m :: 0 <= m < x ==> MoreExtremeTick(w[x], w[m], side)
    ensures forall m :: x <= m < |w| ==> !MoreExtremeTick(w[m], w[x], side)
    ensures side == Long ==> forall m :: 0 <= m < |w| ==> w[m].high <= w[x].high && (m < x ==> w[m].high < w[x].high)
    ensures side == Short ==> forall m :: 0 <= m < |w| ==> w[m].low >= w[x].low && (m < x ==> w[m].low > w[x].low)
  {
    if |w| == 1 then 0
    else
      var x := ExtremeTick(w[..|w| - 1], side);
      if MoreExtremeTick(w[|w| - 1], w[x], side) then |w| - 1 else x
  }

  lemma WindowTarget(w: seq<Tick>, day: seq<Bar>, side: Side)
    requires IsWindow(w, day, TARGET_LOOKBACK) && |w| == TARGET_LOOKBACK
    ensures var x := ExtremeTick(w, side);
            (w[x].high + w[x].low) / 2.0 == Target(day, side, |day|)
  {
    hide ExtremeBar, ExtremeTick;
    var n := |day|;
    var x := n - TARGET_LOOKBACK + ExtremeTick(w, side);
    var y := ExtremeBar(day, side, n - TARGET_LOOKBACK, n);
    assert IsExtreme(day, side, n - TARGET_LOOKBACK, n, x) by {
      forall m | n - TARGET_LOOKBACK <= m < x ensures MoreExtreme(day[x], day[m], side) {
        assert TickOf(day, m) == w[m - (n - TARGET_LOOKBACK)];
      }
      forall m | x <= m < n ensures !MoreExtreme(day[m], day[x], side) {
        assert TickOf(day, m) == w[m - (n - TARGET_LOOKBACK)];
      }
    }
    var forward, backward := MoreExtreme(day[x], day[y], side), MoreExtreme(day[y], day[x], side);
    assert x == y;
  }

  function LastOf(w: seq<Tick>, cap: nat): seq<Tick> {
    if |w| <= cap then w else w[|w| - cap..]
  }

  class TradeAttempt {
    const side: Side
    const entry: real
    const stop: real
    const fvgBar: nat
    const riskPips: real
    var status: Status
    var target: Option<real>
    var outcome: Option<Outcome>
    var exitPrice: Option<real>
    var fillBar: Option<nat>
    var recent: seq<Tick>

    ghost predicate Shows(a: Attempt)
      reads this
    {
      match a
      case Rejected => status == RejectedMinStop
      case Pending => status == Waiting && target.None? && outcome.None?
      case Abandoned => status == GivenUp
      case Open(t, p) => status == Filled && target == Some(t) && fillBar == Some(p) && outcome.None?
      case Closed(t, p, _, o, x) =>
        status == Done && target == Some(t) && fillBar == Some(p) && outcome == Some(o) && exitPrice == Some(x)
    }

    /** This object is the search started at bar j, as it stands after all bars of `day`. */
    ghost predicate Tracks(day: seq<Bar>, j: nat)
      reads this
    {
      && j < |day|
      && SetupAt(day, side, j) == Some(Setup(entry, stop, riskPips))
      && Shows(AttemptAt(day, side, j, |day|))
      && (status == Waiting ==> IsWindow(recent, day, TARGET_LOOKBACK))
    }

    constructor (side: Side, entry: real, stop: real, fvgBar: nat, seed: seq<Tick>, ghost day: seq<Bar>)
      requires fvgBar == |day| - 1
      requires SetupAt(day, side, fvgBar) ==
               Some(Setup(entry, stop, Pips(if side == Long then entry - stop else stop - entry)))
      requires IsWindow(seed, day, TARGET_LOOKBACK)
      ensures Tracks(day, fvgBar) && this.side == side && this.entry == entry && this.stop == stop
      ensures status == if riskPips < MIN_STOP_PIPS then RejectedMinStop else Waiting
    {
      this.side, this.entry, this.stop, this.fvgBar := side, entry, stop, fvgBar;
      target, outcome, exitPrice, fillBar := None, None, None, None;
      recent := LastOf(seed, TARGET_LOOKBACK);
      var risk := if side == Long then entry - stop else stop - entry;
      riskPips := Pips(risk);
      status := if Pips(risk) < MIN_STOP_PIPS then RejectedMinStop else Waiting;
    }

    predicate IsActive()
      reads this
    {
      status == Waiting || status == Filled
    }

    method OnNewBar(bar: Bar, idx: nat, ghost day: seq<Bar>, ghost j: nat) returns (events: seq<Event>)
      requires Tracks(day, j) && idx == |day|
      modifies this
      ensures Tracks(day + [bar], j)
      ensures events == AttemptEvents(day + [bar], side, j, idx)
    {
      hide Target, ExtremeBar, ExtremeTick, FirstTouch, FirstExit, AttemptAt, SetupAt;
      ghost var day' := day + [bar];
      AttemptCausal(day, day', idx, side, j);
      AttemptStep(day', side, j, idx);
      events := [];
      if !IsActive() {
        return;
      }
      if status == Waiting {
        var touched := if side == Long then bar.low <= entry else bar.high >= entry;
        if touched {
          if |recent| < TARGET_LOOKBACK {
            status := GivenUp;
            return;
          }
          WindowTarget(recent, day, side);
          TargetCausal(day, day', idx, side, idx);
          var x := recent[ExtremeTick(recent, side)];
          var t := (x.high + x.low) / 2.0;
          var valid := if side == Long then t > entry else t < entry;
          if !valid {
            status := GivenUp;
            return;
          }
          target, status, fillBar := Some(t), Filled, Some(idx);
          events := [OrderFilled(bar.time, side, entry, stop, t, idx)];
          var closed := CheckClose(bar);
          events := events + closed;
          return;
        }
        PushWindow(recent, day, bar, TARGET_LOOKBACK);
        recent := Push(recent, Tick(idx, bar.time, bar.high, bar.low), TARGET_LOOKBACK);
        return;
      }
      events := CheckClose(bar);
    }

    method CheckClose(bar: Bar) returns (events: seq<Event>)
      requires status == Filled && target.Some? && outcome.None?
      modifies this`status, this`outcome, this`exitPrice
      ensures if StopHit(bar, side, stop) then
                status == Done && outcome == Some(Loss) && exitPrice == Some(stop) &&
                events == [TradeClosed(bar.time, side, Loss, stop)]
              else if TargetHit(bar, side, target.value) then
                status == Done && outcome == Some(Win) && exitPrice == target &&
                events == [TradeClosed(bar.time, side, Win, target.value)]
              else status == Filled && outcome.None? && events == []
    {
      if side == Long {
        if bar.low <= stop {
          outcome, exitPrice := Some(Loss), Some(stop);
        } else if bar.high >= target.value {
          outcome, exitPrice := Some(Win), target;
        }
      } else {
        if bar.high >= stop {
          outcome, exitPrice := Some(Loss), Some(stop);
        } else if bar.low <= target.value {
          outcome, exitPrice := Some(Win), target;
        }
      }
      if outcome.Some? {
        status := Done;
        return [TradeClosed(bar.time, side, outcome.value, exitPrice.value)];
      }
      return [];
    }

    method CloseAsScratch(time: int, finalClose: real) returns (events: seq<Event>)
      modifies this`status, this`outcome, this`exitPrice
      ensures if old(status) == Filled then
                status == Done && outcome == Some(Scratch) && exitPrice == Some(finalClose) &&
                events == [TradeClosed(time, side, Scratch, finalClose)]
              else unchanged(this) && events == []
    {
      if status != Filled {
        return [];
      }
      status, outcome, exitPrice := Done, Some(Scratch), Some(finalClose);
      return [TradeClosed(time, side, Scratch, finalClose)];
    }
  }
}
