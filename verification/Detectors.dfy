/** The streaming engine's detectors.  Each is fed one bar at a time; `Tracks(day)` says that its fields are what the
    bars fed so far determine. */
module Detectors {
  import opened Market
  import opened FvgModel
  import opened Journal
  import opened Causality
  import opened BatchModel

  datatype Tick = Tick(idx: nat, time: int, high: real, low: real)

  function TickOf(day: seq<Bar>, k: nat): Tick
    requires k < |day|
  {
    Tick(k, day[k].time, day[k].high, day[k].low)
  }

  /** A deque with a maximum length. */
  function Push(w: seq<Tick>, t: Tick, cap: nat): seq<Tick> {
    if |w| < cap || w == [] then w + [t] else w[1..] + [t]
  }

  /** `w` holds the last `cap` bars of the day, or all of them if there are fewer. */
  ghost predicate IsWindow(w: seq<Tick>, day: seq<Bar>, cap: nat) {
    && |w| == Min(cap, |day|)
    && forall k :: 0 <= k < |w| ==> w[k] == TickOf(day, |day| - |w| + k)
  }

  lemma PushWindow(w: seq<Tick>, day: seq<Bar>, bar: Bar, cap: nat)
    requires IsWindow(w, day, cap) && cap > 0
    ensures IsWindow(Push(w, Tick(|day|, bar.time, bar.high, bar.low), cap), day + [bar], cap)
  {
    var day' := day + [bar];
    var w' := Push(w, Tick(|day|, bar.time, bar.high, bar.low), cap);
    assert |w'| == Min(cap, |day'|);
    forall k | 0 <= k < |w'| ensures w'[k] == TickOf(day', |day'| - |w'| + k) {
      var was := if |w| < cap then k else k + 1;
      assert was < |w| ==> w'[k] == w[was];
    }
  }

  function Highs(w: seq<Tick>): (r: seq<real>)
    ensures |r| == |w| && forall k :: 0 <= k < |w| ==> r[k] == w[k].high
  {
    seq(|w|, k requires 0 <= k < |w| => w[k].high)
  }

  function Lows(w: seq<Tick>): (r: seq<real>)
    ensures |r| == |w| && forall k :: 0 <= k < |w| ==> r[k] == w[k].low
  {
    seq(|w|, k requires 0 <= k < |w| => w[k].low)
  }

  /** The middle of a full window is its extremum exactly when it is a pivot of the day. */
  lemma WindowShowsPivot(w: seq<Tick>, day: seq<Bar>)
    requires IsWindow(w, day, 2 * SWING_N + 1) && |w| == 5
    ensures w[2] == TickOf(day, |day| - 3)
    ensures w[2].high == Extremum(Top, Highs(w)) <==> IsPivot(day, Top, |day| - 3)
    ensures w[2].low == Extremum(Bottom, Lows(w)) <==> IsPivot(day, Bottom, |day| - 3)
  {
    hide IsPivot, Extremum;
    var k := |day| - 3;
    CentredWindow(day, Top, k);
    CentredWindow(day, Bottom, k);
    assert Highs(w) == Prices(day[k - 2..k + 3], Top);
    assert Lows(w) == Prices(day[k - 2..k + 3], Bottom);
  }

  class IntradaySwingDetector {
    var window: seq<Tick>
    var barIndex: int

    ghost predicate Tracks(day: seq<Bar>)
      reads this
    {
      barIndex == |day| - 1 && IsWindow(window, day, 2 * SWING_N + 1)
    }

    constructor ()
      ensures Tracks([])
    {
      window, barIndex := [], -1;
    }

    method StartNewDay()
      modifies this
      ensures Tracks([])
    {
      window, barIndex := [], -1;
    }

    method OnNewBar(bar: Bar, ghost day: seq<Bar>) returns (events: seq<Event>)
      requires Tracks(day)
      modifies this
      ensures Tracks(day + [bar])
      ensures events == SwingEvents(day + [bar], |day|)
    {
      hide IsPivot, Extremum;
      ghost var day' := day + [bar];
      PushWindow(window, day, bar, 2 * SWING_N + 1);
      barIndex := barIndex + 1;
      window := Push(window, Tick(barIndex, bar.time, bar.high, bar.low), 2 * SWING_N + 1);
      events := [];
      if |window| < 2 * SWING_N + 1 {
        NotPivotEarly(day', Top, |day| - 2);
        NotPivotEarly(day', Bottom, |day| - 2);
        return;
      }
      var candidate := window[SWING_N];
      WindowShowsPivot(window, day');
      if candidate.high == Extremum(Top, Highs(window)) {
        events := events + [SwingHigh(candidate.time, candidate.high, candidate.idx)];
      }
      if candidate.low == Extremum(Bottom, Lows(window)) {
        events := events + [SwingLow(candidate.time, candidate.low, candidate.idx)];
      }
    }
  }

  class RaidDetector {
    var latestHigh: Option<(nat, real)>
    var latestLow: Option<(nat, real)>

    /** The swings confirmed by the bars fed so far, seen from the next bar. */
    ghost predicate Tracks(day: seq<Bar>)
      reads this
    {
      latestHigh == Confirmed(day, Top) && latestLow == Confirmed(day, Bottom)
    }

    constructor ()
      ensures Tracks([])
    {
      latestHigh, latestLow := None, None;
    }

    method StartNewDay()
      modifies this
      ensures Tracks([])
    {
      latestHigh, latestLow := None, None;
    }

    /** The check uses the swings of earlier bars; this bar's own confirmations are folded in afterwards. */
    method OnNewBar(bar: Bar, idx: nat, side: Side, inKillZone: bool, newSwings: seq<Event>,
                    ghost day: seq<Bar>, ghost s: Session)
      returns (events: seq<Event>)
      requires Tracks(day) && idx == |day| && side == s.side
      requires inKillZone <==> s.start <= idx < s.end
      requires newSwings == SwingEvents(day + [bar], idx)
      modifies this
      ensures Tracks(day + [bar])
      ensures events == RaidEvents(day + [bar], s, idx)
    {
      ghost var day' := day + [bar];
      ConfirmedIsLatest(day, bar);
      events := [];
      if inKillZone && latestHigh.Some? && latestLow.Some? {
        if side == Long {
          var level := latestLow.value.1;
          if bar.low < level {
            events := [Raid(bar.time, Long, level, bar.low, idx, Some(latestHigh.value.1))];
          }
        } else {
          var level := latestHigh.value.1;
          if bar.high > level {
            events := [Raid(bar.time, Short, level, bar.high, idx, Some(latestLow.value.1))];
          }
        }
      }
      assert events == RaidEvents(day', s, idx);
      var m := 0;
      while m < |newSwings|
        invariant 0 <= m <= |newSwings|
        invariant latestHigh == LastHigh(old(latestHigh), newSwings[..m])
        invariant latestLow == LastLow(old(latestLow), newSwings[..m])
      {
        assert newSwings[..m + 1][..m] == newSwings[..m];
        match newSwings[m] {
          case SwingHigh(_, price, k) => latestHigh := Some((k, price));
          case SwingLow(_, price, k) => latestLow := Some((k, price));
          case _ =>
        }
        m := m + 1;
      }
      assert newSwings[..m] == newSwings;
      FoldConfirms(day, bar, old(latestHigh), old(latestLow));
    }
  }

  /** The latest swing whose confirmation lies within `day`. */
  ghost function Confirmed(day: seq<Bar>, e: Edge): Option<(nat, real)> {
    var k := LatestPivot(day, e, |day| - SWING_N);
    if k < 0 then None else Some((k, PriceAt(day[k], e)))
  }

  function LastHigh(from: Option<(nat, real)>, events: seq<Event>): Option<(nat, real)> {
    if events == [] then from
    else
      var e := events[|events| - 1];
      if e.SwingHigh? then Some((e.bar, e.price)) else LastHigh(from, events[..|events| - 1])
  }

  function LastLow(from: Option<(nat, real)>, events: seq<Event>): Option<(nat, real)> {
    if events == [] then from
    else
      var e := events[|events| - 1];
      if e.SwingLow? then Some((e.bar, e.price)) else LastLow(from, events[..|events| - 1])
  }

  /** At bar i the model's cut-off `< i - SWING_N` selects exactly the swings confirmed by earlier bars. */
  lemma ConfirmedIsLatest(day: seq<Bar>, bar: Bar)
    ensures LatestPivot(day, Top, |day| - SWING_N) == LatestPivot(day + [bar], Top, |day| - SWING_N)
    ensures LatestPivot(day, Bottom, |day| - SWING_N) == LatestPivot(day + [bar], Bottom, |day| - SWING_N)
  {
    PivotCausal(day, day + [bar], |day|, Top, |day| - SWING_N);
    PivotCausal(day, day + [bar], |day|, Bottom, |day| - SWING_N);
  }

  lemma ConfirmedStep(day: seq<Bar>, bar: Bar, e: Edge)
    ensures var day' := day + [bar];
            var k := |day| - 2;
            Confirmed(day', e) == if IsPivot(day', e, k) then Some((k, PriceAt(day'[k], e))) else Confirmed(day, e)
  {
    hide IsPivot;
    PivotCausal(day, day + [bar], |day|, e, |day| - SWING_N);
    if |day| < 2 { assert !IsPivot(day + [bar], e, |day| - 2) by { NotPivotEarly(day + [bar], e, |day| - 2); } }
  }

  lemma NotPivotEarly(day: seq<Bar>, e: Edge, k: int)
    requires k < SWING_N
    ensures !IsPivot(day, e, k)
  {
  }

  lemma FoldConfirms(day: seq<Bar>, bar: Bar, high: Option<(nat, real)>, low: Option<(nat, real)>)
    requires high == Confirmed(day, Top) && low == Confirmed(day, Bottom)
    ensures LastHigh(high, SwingEvents(day + [bar], |day|)) == Confirmed(day + [bar], Top)
    ensures LastLow(low, SwingEvents(day + [bar], |day|)) == Confirmed(day + [bar], Bottom)
  {
    hide IsPivot, Confirmed;
    ConfirmedStep(day, bar, Top);
    ConfirmedStep(day, bar, Bottom);
    var events := SwingEvents(day + [bar], |day|);
    if |events| == 2 {
      assert events[..1] == [events[0]];
      assert events[..1][..0] == [];
    } else if |events| == 1 {
      assert events[..0] == [];
    }
  }

  /** Watches the nine bars after one raid for a close beyond the reference level. */
  datatype MssWatch = MssWatch(raidBar: nat, side: Side, reference: real) {
    predicate IsExpired(idx: nat) {
      idx > raidBar + MSS_WINDOW
    }

    function OnNewBar(bar: Bar, idx: nat): seq<Event> {
      if idx <= raidBar || IsExpired(idx) then []
      else if side == Long && bar.close > reference then
        [Mss(bar.time, Long, reference, bar.close, raidBar, idx)]
      else if side == Short && bar.close < reference then
        [Mss(bar.time, Short, reference, bar.close, raidBar, idx)]
      else []
    }
  }

  class FvgDetector {
    var window: seq<Tick>

    ghost predicate Tracks(day: seq<Bar>)
      reads this
    {
      IsWindow(window, day, 3)
    }

    constructor ()
      ensures Tracks([])
    {
      window := [];
    }

    method OnNewBar(idx: nat, bar: Bar, ghost day: seq<Bar>)
      requires Tracks(day) && idx == |day|
      modifies this
      ensures Tracks(day + [bar])
    {
      PushWindow(window, day, bar, 3);
      window := Push(window, Tick(idx, bar.time, bar.high, bar.low), 3);
    }

    /** The gap ending at the bar fed last. */
    method CheckFvg(time: int, side: Side, ghost day: seq<Bar>) returns (event: Option<Event>)
      requires Tracks(day) && day != []
      ensures match FindFvg(day, side, |day| - 1)
              case None => event == None
              case Some(g) => event == Some(FvgFound(time, side, g.top, g.bottom, g.frame, |day| - 1))
    {
      if |window| < 3 {
        return None;
      }
      var first, last := window[0], window[2];
      if side == Short {
        if first.low > last.high {
          return Some(FvgFound(time, Short, first.low, last.high, first.idx, last.idx));
        }
      } else {
        if first.high < last.low {
          return Some(FvgFound(time, Long, last.low, first.high, first.idx, last.idx));
        }
      }
      return None;
    }
  }
}
