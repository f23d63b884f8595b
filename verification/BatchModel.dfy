/** The batch day loop: nested searches over the whole day's arrays, with early exit at the first fill. */
module BatchModel {
  import opened Market
  import opened FvgModel
  import opened Journal

  function Prices(bars: seq<Bar>, e: Edge): (r: seq<real>)
    ensures |r| == |bars| && forall m :: 0 <= m < |bars| ==> r[m] == PriceAt(bars[m], e)
  {
    seq(|bars|, m requires 0 <= m < |bars| => PriceAt(bars[m], e))
  }

  /** Python's max (Top) or min (Bottom) of a non-empty list. */
  function Extremum(e: Edge, xs: seq<real>): (x: real)
    requires xs != []
    ensures x in xs && forall m :: 0 <= m < |xs| ==> Reaches(e, x, xs[m])
  {
    if |xs| == 1 then xs[0]
    else
      var rest := Extremum(e, xs[1..]);
      if Reaches(e, xs[0], rest) then xs[0] else rest
  }

  /** Being the extremum of the centred window is being a pivot. */
  lemma CentredWindow(day: seq<Bar>, e: Edge, k: nat)
    requires 2 <= k && k + 2 < |day|
    ensures PriceAt(day[k], e) == Extremum(e, Prices(day[k - 2..k + 3], e)) <==> IsPivot(day, e, k)
  {
    var xs := Prices(day[k - 2..k + 3], e);
    var x := Extremum(e, xs);
    assert forall m :: 0 <= m < 5 ==> xs[m] == PriceAt(day[k - 2 + m], e);
    assert xs[2] == PriceAt(day[k], e);
    assert Reaches(e, x, xs[0]) && Reaches(e, x, xs[1]) && Reaches(e, x, xs[2]) && Reaches(e, x, xs[3])
           && Reaches(e, x, xs[4]);
    var m :| 0 <= m < 5 && x == xs[m];
  }

  /** `piv` lists exactly the pivots below m, in increasing order. */
  ghost predicate PivotList(day: seq<Bar>, e: Edge, piv: seq<nat>, m: int) {
    && (forall x, y :: 0 <= x < y < |piv| ==> piv[x] < piv[y])
    && (forall x :: 0 <= x < |piv| ==> IsPivot(day, e, piv[x]) && piv[x] < m)
    && (forall k :: k < m && IsPivot(day, e, k) ==> k in piv)
  }

  lemma PivotLogEarly(day: seq<Bar>, n: nat)
    requires n <= |day| && n <= 4
    ensures PivotLog(day, n) == []
  {
    if n > 0 { PivotLogEarly(day, n - 1); }
  }

  lemma PivotListStart(day: seq<Bar>, e: Edge)
    ensures PivotList(day, e, [], SWING_N)
  {
  }

  lemma PivotListStep(day: seq<Bar>, e: Edge, piv: seq<nat>, k: nat)
    requires PivotList(day, e, piv, k)
    ensures PivotList(day, e, if IsPivot(day, e, k) then piv + [k] else piv, k + 1)
  {
    hide IsPivot;
    var piv' := piv + [k];
    assert forall x :: 0 <= x < |piv| ==> piv'[x] == piv[x];
    assert piv'[|piv|] == k;
    assert forall m :: m in piv ==> m in piv';
  }

  /** Bars within SWING_N of the end are never pivots. */
  lemma PivotListEnd(day: seq<Bar>, e: Edge, piv: seq<nat>, k: nat)
    requires PivotList(day, e, piv, k) && |day| <= k + SWING_N
    ensures PivotList(day, e, piv, |day|)
  {
  }

  lemma PivotLogStep(day: seq<Bar>, k: nat)
    requires k + 2 < |day|
    ensures PivotLog(day, k + 3) == PivotLog(day, k + 2) +
              (if IsPivot(day, Top, k) then [SwingHigh(day[k].time, day[k].high, k)] else []) +
              (if IsPivot(day, Bottom, k) then [SwingLow(day[k].time, day[k].low, k)] else [])
  {
    hide IsPivot;
  }

  method FindPivots(day: seq<Bar>) returns (highs: seq<nat>, lows: seq<nat>, log: seq<Event>)
    ensures PivotList(day, Top, highs, |day|) && PivotList(day, Bottom, lows, |day|)
    ensures log == PivotLog(day, |day|)
  {
    hide IsPivot, PivotList, Extremum, Prices, PivotLog;
    highs, lows, log := [], [], [];
    var k := SWING_N;
    PivotLogEarly(day, Min(4, |day|));
    PivotListStart(day, Top);
    PivotListStart(day, Bottom);
    while k < |day| - SWING_N
      invariant 2 <= k && (k + 2 <= |day| || k == 2)
      invariant PivotList(day, Top, highs, k) && PivotList(day, Bottom, lows, k)
      invariant log == PivotLog(day, Min(k + 2, |day|))
    {
      CentredWindow(day, Top, k);
      CentredWindow(day, Bottom, k);
      PivotListStep(day, Top, highs, k);
      PivotListStep(day, Bottom, lows, k);
      PivotLogStep(day, k);
      if day[k].high == Extremum(Top, Prices(day[k - SWING_N..k + SWING_N + 1], Top)) {
        highs := highs + [k];
        log := log + [SwingHigh(day[k].time, day[k].high, k)];
      }
      if day[k].low == Extremum(Bottom, Prices(day[k - SWING_N..k + SWING_N + 1], Bottom)) {
        lows := lows + [k];
        log := log + [SwingLow(day[k].time, day[k].low, k)];
      }
      k := k + 1;
    }
    PivotListEnd(day, Top, highs, k);
    PivotListEnd(day, Bottom, lows, k);
  }

  /** Python's bisect_left on an increasing list. */
  function BisectLeft(piv: seq<nat>, x: int): (pos: nat)
    requires forall a, b :: 0 <= a < b < |piv| ==> piv[a] < piv[b]
    ensures pos <= |piv|
    ensures forall a :: 0 <= a < pos ==> piv[a] < x
    ensures forall a :: pos <= a < |piv| ==> x <= piv[a]
  {
    if piv == [] || x <= piv[0] then 0 else 1 + BisectLeft(piv[1..], x)
  }

  /** The entry just before the bisection point is the latest pivot before x. */
  lemma BisectIsLatest(day: seq<Bar>, e: Edge, piv: seq<nat>, x: int)
    requires PivotList(day, e, piv, |day|)
    ensures var pos := BisectLeft(piv, x);
            LatestPivot(day, e, x) == if pos == 0 then -1 else piv[pos - 1]
  {
    var pos := BisectLeft(piv, x);
    var k := LatestPivot(day, e, x);
    if k >= 0 {
      var a :| 0 <= a < |piv| && piv[a] == k;
      assert a < pos;
      assert k <= piv[pos - 1] < x;
    }
  }

  lemma Acceptance(day: seq<Bar>, side: Side, j: nat)
    requires j < |day| && Accepted(day, side, j)
    ensures SetupAt(day, side, j).Some? && SetupAt(day, side, j).value.riskPips >= MIN_STOP_PIPS
  {
  }

  /** The fill and exit loops for one accepted gap. */
  method SearchFill(day: seq<Bar>, side: Side, j: nat, entry: real, stop: real, riskPips: real)
    returns (trade: Option<Trade>, log: seq<Event>)
    requires j < |day| && SetupAt(day, side, j) == Some(Setup(entry, stop, riskPips)) && Accepted(day, side, j)
    ensures trade.Some? <==> AttemptAt(day, side, j, |day|).HasFilled()
    ensures trade.Some? ==> trade.value == TradeOf(day, side, j) && log == TradeLog(day, side, j)
    ensures trade.None? ==> log == []
  {
    hide Touched, StopHit, TargetHit, TargetValid, SetupAt, Target, Accepted;
    var n := |day|;
    trade, log := None, [];
    Acceptance(day, side, j);
    var p := j + 1;
    while p < n
      invariant j + 1 <= p <= n
      invariant forall m :: j + 1 <= m < p ==> !Touched(day[m], side, entry)
    {
      if Touched(day[p], side, entry) {
        assert FirstTouch(day, side, entry, j + 1, n) == p;
        if p < TARGET_LOOKBACK {
          return;
        }
        var target := Target(day, side, p);
        if !TargetValid(side, target, entry) {
          return;
        }
        log := [OrderFilled(day[p].time, side, entry, stop, target, p)];
        var q := p;
        while q < n
          invariant p <= q <= n
          invariant forall m :: p <= m < q ==> !StopHit(day[m], side, stop) && !TargetHit(day[m], side, target)
        {
          if StopHit(day[q], side, stop) {
            log := log + [TradeClosed(day[q].time, side, Loss, stop)];
            trade := Some(Trade(side, entry, stop, target, riskPips, Loss, stop));
            return;
          }
          if TargetHit(day[q], side, target) {
            log := log + [TradeClosed(day[q].time, side, Win, target)];
            trade := Some(Trade(side, entry, stop, target, riskPips, Win, target));
            return;
          }
          q := q + 1;
        }
        var close := day[n - 1].close;
        log := log + [TradeClosed(day[n - 1].time, side, Scratch, close)];
        trade := Some(Trade(side, entry, stop, target, riskPips, Scratch, close));
        return;
      }
      p := p + 1;
    }
  }

  /** One pass of the structure-shift loop: the shift, its gap, the minimum stop and the fill search. */
  method ExaminePair(day: seq<Bar>, s: Session, i: nat, j: nat, reference: real)
    returns (trade: Option<Trade>, log: seq<Event>)
    requires i < j <= i + MSS_WINDOW && j < |day|
    requires IsRaid(day, s, i) && reference == Reference(day, s.side, i)
    ensures trade.Some? <==> Fills(day, s, i, j)
    ensures trade.Some? ==> trade.value == TradeOf(day, s.side, j)
    ensures log == PairLog(day, s, i, j)
  {
    trade, log := None, [];
    var crossed := if s.side == Long then day[j].close > reference else day[j].close < reference;
    if !crossed {
      return;
    }
    log := [Mss(day[j].time, s.side, reference, day[j].close, i, j)];
    var fvg := FindFvg(day, s.side, j);
    if fvg.None? {
      return;
    }
    var g := fvg.value;
    log := log + [FvgFound(day[j].time, s.side, g.top, g.bottom, g.frame, j)];
    var entry := (g.top + g.bottom) / 2.0;
    var stop := if s.side == Long then day[g.frame].low else day[g.frame].high;
    var risk := if s.side == Long then entry - stop else stop - entry;
    if Pips(risk) < MIN_STOP_PIPS {
      log := log + [MinStopRejected(day[j].time, s.side, Pips(risk))];
      return;
    }
    var tradeLog;
    trade, tradeLog := SearchFill(day, s.side, j, entry, stop, Pips(risk));
    log := log + tradeLog;
  }

  /** The structure-shift loop of one raid: it ends at the first shift bar whose search fills. */
  method SearchShift(day: seq<Bar>, s: Session, i: nat, reference: real)
    returns (trade: Option<Trade>, mss: nat, log: seq<Event>)
    requires i < |day| && IsRaid(day, s, i) && reference == Reference(day, s.side, i)
    ensures trade.Some? ==> Fills(day, s, i, mss) && trade.value == TradeOf(day, s.side, mss)
    ensures trade.Some? ==> forall j: nat :: i < j < mss ==> !Fills(day, s, i, j)
    ensures trade.Some? ==> i < mss < |day| && log == RaidSearchLog(day, s, i, mss + 1)
    ensures trade.None? ==> forall j: nat :: !Fills(day, s, i, j)
    ensures trade.None? ==> log == RaidSearchLog(day, s, i, Min(i + 10, |day|))
  {
    hide Fills, PairLog, TradeOf, IsRaid, Reference;
    trade, mss, log := None, 0, [];
    var j := i + 1;
    while j < Min(i + 10, |day|)
      invariant i + 1 <= j <= Min(i + 10, |day|)
      invariant trade.None?
      invariant forall m: nat :: i < m < j ==> !Fills(day, s, i, m)
      invariant log == RaidSearchLog(day, s, i, j)
    {
      var pairLog;
      trade, pairLog := ExaminePair(day, s, i, j, reference);
      log := log + pairLog;
      if trade.Some? {
        mss := j;
        return;
      }
      j := j + 1;
    }
    FillsInWindow(day, s, i);
  }

  lemma FillsInWindow(day: seq<Bar>, s: Session, i: nat)
    ensures forall j: nat :: Fills(day, s, i, j) ==> i < j < Min(i + 10, |day|)
  {
  }

  lemma SearchLogStep(day: seq<Bar>, s: Session, i: nat)
    requires 0 <= s.start <= i < |day|
    ensures SearchLog(day, s, i + 1) == SearchLog(day, s, i) +
              if IsRaid(day, s, i) then [GoldenRaid(day, s, i)] + RaidSearchLog(day, s, i, Min(i + 10, |day|)) else []
  {
    hide IsRaid, RaidSearchLog;
  }

  /** The first fill found in search order is the day's winner. */
  lemma FirstFillWins(day: seq<Bar>, s: Session, i: nat, j: nat)
    requires Fills(day, s, i, j) && 0 <= s.start && s.end <= |day|
    requires forall i': nat, j': nat :: i' < i ==> !Fills(day, s, i', j')
    requires forall j': nat :: i < j' < j ==> !Fills(day, s, i, j')
    ensures Verdict(day, s, Some(Key(i, j))) && WellPlaced(day, s, Some(Key(i, j))) && s.start <= i
    ensures BatchLog(day, s, Some(Key(i, j))) ==
            PivotLog(day, |day|) + (SearchLog(day, s, i) + [GoldenRaid(day, s, i)] + RaidSearchLog(day, s, i, j + 1))
  {
    hide Fills, PivotLog, RaidSearchLog, SearchLog;
    FillsAreRaids(day, s);
    assert IsWinner(day, s, Key(i, j));
  }

  lemma NothingFills(day: seq<Bar>, s: Session)
    requires 0 <= s.start && s.end <= |day|
    requires forall i: nat, j: nat :: i < s.end ==> !Fills(day, s, i, j)
    ensures Verdict(day, s, None)
  {
    hide Fills;
    FillsAreRaids(day, s);
  }

  /** The batch model's day: raid bars in order, and for each its shift bars in order, until a search fills. */
  method RunDay(day: seq<Bar>, s: Session) returns (trade: Option<Trade>, winner: Option<Key>, log: seq<Event>)
    requires 0 <= s.start && s.end <= |day|
    ensures Verdict(day, s, winner) && trade == TradeFor(day, s, winner)
    ensures log == BatchLog(day, s, winner)
  {
    hide Fills, TradeOf, IsPivot, LatestPivot, RaidSearchLog, PivotLog, PivotList, SetupAt, Accepted, SearchLog,
         Verdict;
    var highs, lows, pivotLog := FindPivots(day);
    trade, winner, log := None, None, [];
    if s.start <= |day| { SearchLogStart(day, s); }
    FillsAreRaids(day, s);
    var i := s.start;
    while i < s.end
      invariant s.start <= i && (i <= s.end || i == s.start)
      invariant i <= |day| ==> log == SearchLog(day, s, i)
      invariant s.start >= s.end ==> log == []
      invariant trade.None? && winner.None?
      invariant forall i': nat, j: nat :: i' < i ==> !Fills(day, s, i', j)
    {
      var level, reference := CheckRaid(day, s, i, highs, lows);
      SearchLogStep(day, s, i);
      var raided := level.Some? &&
        if s.side == Long then day[i].low < level.value else day[i].high > level.value;
      if raided {
        log := log + [Raid(day[i].time, s.side, level.value, SweepPrice(day[i], s.side), i, None)];
        var t, j, shiftLog := SearchShift(day, s, i, reference);
        log := log + shiftLog;
        if t.Some? {
          FirstFillWins(day, s, i, j);
          trade, winner := t, Some(Key(i, j));
          log := pivotLog + log;
          return;
        }
      }
      i := i + 1;
    }
    NothingFills(day, s);
    log := pivotLog + log;
  }

  lemma SearchLogStart(day: seq<Bar>, s: Session)
    requires 0 <= s.start <= |day|
    ensures SearchLog(day, s, s.start) == []
  {
  }

  lemma FillsAreRaids(day: seq<Bar>, s: Session)
    ensures forall i': nat, j': nat :: Fills(day, s, i', j') ==>
      IsRaid(day, s, i') && i' < j' < |day| && Accepted(day, s.side, j')
  {
  }

  /** The sweep level and the opposite level at bar i, found by bisecting the pivot lists. */
  method CheckRaid(day: seq<Bar>, s: Session, i: nat, highs: seq<nat>, lows: seq<nat>)
    returns (level: Option<real>, reference: real)
    requires i < |day| && PivotList(day, Top, highs, |day|) && PivotList(day, Bottom, lows, |day|)
    ensures level.Some? <==> BothSwings(day, i)
    ensures level.Some? ==> level.value == RaidLevel(day, s.side, i) && reference == Reference(day, s.side, i)
  {
    BisectIsLatest(day, Top, highs, i - SWING_N);
    BisectIsLatest(day, Bottom, lows, i - SWING_N);
    var plPos := BisectLeft(lows, i - SWING_N);
    var phPos := BisectLeft(highs, i - SWING_N);
    if plPos == 0 || phPos == 0 {
      return None, 0.0;
    }
    var lowLevel, highLevel := day[lows[plPos - 1]].low, day[highs[phPos - 1]].high;
    if s.side == Long {
      return Some(lowLevel), highLevel;
    } else {
      return Some(highLevel), lowLevel;
    }
  }
}
