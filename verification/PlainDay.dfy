/** The day's trade in bars and prices alone, with every comparison and constant written out, and the proof that it is
    the trade both engines return. */
module PlainDay {
  import opened Market
  import opened FvgModel

  // ---------- in plain terms ----------

  /** Bar k has the highest high of the five bars around it, ties allowed. */
  ghost predicate High(day: seq<Bar>, k: int) {
    2 <= k && k + 2 < |day| && forall m :: k - 2 <= m <= k + 2 ==> day[m].high <= day[k].high
  }

  ghost predicate Low(day: seq<Bar>, k: int) {
    2 <= k && k + 2 < |day| && forall m :: k - 2 <= m <= k + 2 ==> day[m].low >= day[k].low
  }

  /** The latest swing high whose two following bars have both closed before bar i. */
  ghost predicate LatestHigh(day: seq<Bar>, h: nat, i: nat) {
    High(day, h) && h + 2 < i <= |day| && forall m :: h < m && m + 2 < i ==> !High(day, m)
  }

  ghost predicate LatestLow(day: seq<Bar>, l: nat, i: nat) {
    Low(day, l) && l + 2 < i <= |day| && forall m :: l < m && m + 2 < i ==> !Low(day, m)
  }

  /** A long search: bar i sweeps below the latest swing low, bar j closes above the latest swing high, and a gap up
      ends at bar j. */
  ghost predicate LongPair(day: seq<Bar>, from: int, to: int, i: nat, j: nat) {
    && from <= i < to && i < j <= i + 9 && j < |day| && j >= 2
    && (exists h: nat, l: nat ::
          LatestHigh(day, h, i) && LatestLow(day, l, i) && day[i].low < day[l].low && day[j].close > day[h].high)
    && day[j - 2].high < day[j].low
  }

  /** The stop first, then the target, both from the fill bar on; otherwise the last close. */
  ghost predicate LongEnd(day: seq<Bar>, p: nat, t: Trade) {
    match t.outcome
    case Loss =>
      && t.exitPrice == t.stop
      && exists q: nat :: q < |day| && LongQuiet(day, p, q, t) && day[q].low <= t.stop
    case Win =>
      && t.exitPrice == t.target
      && exists q: nat :: q < |day| && LongQuiet(day, p, q, t) && day[q].low > t.stop && day[q].high >= t.target
    case Scratch =>
      LongQuiet(day, p, |day|, t) && day != [] && t.exitPrice == day[|day| - 1].close
  }

  ghost predicate LongQuiet(day: seq<Bar>, p: nat, q: nat, t: Trade) {
    p <= q <= |day| && forall m :: p <= m < q ==> day[m].low > t.stop && day[m].high < t.target
  }

  /** The trade of the gap at bar j that fills at bar p and takes its target from bar x. */
  ghost predicate LongTrade(day: seq<Bar>, j: nat, p: nat, x: nat, t: Trade)
    requires 2 <= j < |day|
  {
    && t.side == Long
    && t.entry == (day[j].low + day[j - 2].high) / 2.0 && t.stop == day[j - 2].low
    && t.riskPips == (t.entry - t.stop) / 0.0001 && t.riskPips >= 5.0
    && j < p < |day| && p >= 6 && day[p].low <= t.entry && (forall m :: j < m < p ==> day[m].low > t.entry)
    && p - 6 <= x < p && (forall m :: p - 6 <= m < p ==> day[m].high <= day[x].high)
    && (forall m :: p - 6 <= m < x ==> day[m].high < day[x].high)
    && t.target == (day[x].high + day[x].low) / 2.0 && t.target > t.entry
    && LongEnd(day, p, t)
  }

  ghost predicate LongAt(day: seq<Bar>, from: int, to: int, i: nat, j: nat, t: Trade) {
    LongPair(day, from, to, i, j) && exists p: nat, x: nat :: LongTrade(day, j, p, x, t)
  }

  /** A short search: bar i sweeps above the latest swing high, bar j closes below the latest swing low, and a gap down
      ends at bar j. */
  ghost predicate ShortPair(day: seq<Bar>, from: int, to: int, i: nat, j: nat) {
    && from <= i < to && i < j <= i + 9 && j < |day| && j >= 2
    && (exists h: nat, l: nat ::
          LatestHigh(day, h, i) && LatestLow(day, l, i) && day[i].high > day[h].high && day[j].close < day[l].low)
    && day[j].high < day[j - 2].low
  }

  /** The stop first, then the target, both from the fill bar on; otherwise the last close. */
  ghost predicate ShortEnd(day: seq<Bar>, p: nat, t: Trade) {
    match t.outcome
    case Loss =>
      t.exitPrice == t.stop && exists q: nat :: ShortQuiet(day, p, q, t) && q < |day| && day[q].high >= t.stop
    case Win =>
      && t.exitPrice == t.target
      && exists q: nat :: q < |day| && ShortQuiet(day, p, q, t) && day[q].high < t.stop && day[q].low <= t.target
    case Scratch =>
      ShortQuiet(day, p, |day|, t) && day != [] && t.exitPrice == day[|day| - 1].close
  }

  ghost predicate ShortQuiet(day: seq<Bar>, p: nat, q: nat, t: Trade) {
    p <= q <= |day| && forall m :: p <= m < q ==> day[m].high < t.stop && day[m].low > t.target
  }

  /** The trade of the gap at bar j that fills at bar p and takes its target from bar x. */
  ghost predicate ShortTrade(day: seq<Bar>, j: nat, p: nat, x: nat, t: Trade)
    requires 2 <= j < |day|
  {
    && t.side == Short
    && t.entry == (day[j].high + day[j - 2].low) / 2.0 && t.stop == day[j - 2].high
    && t.riskPips == (t.stop - t.entry) / 0.0001 && t.riskPips >= 5.0
    && j < p < |day| && p >= 6 && day[p].high >= t.entry && (forall m :: j < m < p ==> day[m].high < t.entry)
    && p - 6 <= x < p && (forall m :: p - 6 <= m < p ==> day[m].low >= day[x].low)
    && (forall m :: p - 6 <= m < x ==> day[m].low > day[x].low)
    && t.target == (day[x].high + day[x].low) / 2.0 && t.target < t.entry
    && ShortEnd(day, p, t)
  }

  ghost predicate ShortAt(day: seq<Bar>, from: int, to: int, i: nat, j: nat, t: Trade) {
    ShortPair(day, from, to, i, j) && exists p: nat, x: nat :: ShortTrade(day, j, p, x, t)
  }

  /** A trade of the day on its trend's side, from the search of raid bar i and shift bar j. */
  ghost predicate TradeAt(day: seq<Bar>, s: Session, i: nat, j: nat, t: Trade) {
    if s.side == Long then LongAt(day, s.start, s.end, i, j, t) else ShortAt(day, s.start, s.end, i, j, t)
  }

  /** The day's trade: that of the earliest raid bar and, for it, of the earliest shift bar; none if there is none. */
  ghost predicate IsDayTrade(day: seq<Bar>, s: Session, trade: Option<Trade>) {
    match trade
    case None => forall i: nat, j: nat, t :: !TradeAt(day, s, i, j, t)
    case Some(t) => exists i: nat, j: nat :: TradeAt(day, s, i, j, t) && Earliest(day, s, i, j)
  }

  ghost predicate Earliest(day: seq<Bar>, s: Session, i: nat, j: nat) {
    forall i': nat, j': nat, t' :: TradeAt(day, s, i', j', t') ==> i < i' || (i == i' && j <= j')
  }

  // ---------- the model means the same ----------

  lemma PivotIs(day: seq<Bar>, k: int)
    ensures IsPivot(day, Top, k) <==> High(day, k)
    ensures IsPivot(day, Bottom, k) <==> Low(day, k)
  {
    if IsPivot(day, Top, k) {
      forall m | k - 2 <= m <= k + 2 ensures day[m].high <= day[k].high {
        assert m == k - 2 || m == k - 1 || m == k || m == k + 1 || m == k + 2;
      }
    }
    if IsPivot(day, Bottom, k) {
      forall m | k - 2 <= m <= k + 2 ensures day[m].low >= day[k].low {
        assert m == k - 2 || m == k - 1 || m == k || m == k + 1 || m == k + 2;
      }
    }
  }

  lemma LatestIs(day: seq<Bar>, h: nat, i: nat)
    requires i <= |day|
    ensures LatestHigh(day, h, i) <==> h == LatestPivot(day, Top, i - SWING_N)
    ensures LatestLow(day, h, i) <==> h == LatestPivot(day, Bottom, i - SWING_N)
  {
    hide IsPivot, LatestPivot, High, Low;
    forall k: int ensures IsPivot(day, Top, k) == High(day, k) && IsPivot(day, Bottom, k) == Low(day, k) {
      PivotIs(day, k);
    }
  }

  /** A raid, a shift and a gap of the model. */
  ghost predicate IsPair(day: seq<Bar>, s: Session, i: nat, j: nat) {
    IsRaid(day, s, i) && j < |day| && IsMss(day, s.side, i, j) && FindFvg(day, s.side, j).Some?
  }

  lemma PairIs(day: seq<Bar>, s: Session, i: nat, j: nat)
    ensures s.side == Long ==> (LongPair(day, s.start, s.end, i, j) <==> IsPair(day, s, i, j))
    ensures s.side == Short ==> (ShortPair(day, s.start, s.end, i, j) <==> IsPair(day, s, i, j))
  {
    hide LatestPivot, LatestHigh, LatestLow;
    if i <= |day| {
      forall h: nat
        ensures LatestHigh(day, h, i) <==> h == LatestPivot(day, Top, i - SWING_N)
        ensures LatestLow(day, h, i) <==> h == LatestPivot(day, Bottom, i - SWING_N)
      {
        LatestIs(day, h, i);
      }
      var h, l := LatestPivot(day, Top, i - SWING_N), LatestPivot(day, Bottom, i - SWING_N);
      assert h >= 0 ==> LatestHigh(day, h, i);
      assert l >= 0 ==> LatestLow(day, l, i);
    }
  }

  /** The fill of the model: its bar, and the bar its target is taken from. */
  lemma LongFillIs(day: seq<Bar>, j: nat)
    requires 2 <= j < |day| && Accepted(day, Long, j) && AttemptAt(day, Long, j, |day|).HasFilled()
    ensures var a := AttemptAt(day, Long, j, |day|);
            && a.fillBar >= 6
            && LongTrade(day, j, a.fillBar, ExtremeBar(day, Long, a.fillBar - 6, a.fillBar), TradeOf(day, Long, j))
  {
    hide FirstTouch, FirstExit, ExtremeBar, LongEnd;
    LongEndIs(day, j, TradeOf(day, Long, j));
  }

  /** The fill of the model: its bar, and the bar its target is taken from. */
  lemma ShortFillIs(day: seq<Bar>, j: nat)
    requires 2 <= j < |day| && Accepted(day, Short, j) && AttemptAt(day, Short, j, |day|).HasFilled()
    ensures var a := AttemptAt(day, Short, j, |day|);
            && a.fillBar >= 6
            && ShortTrade(day, j, a.fillBar, ExtremeBar(day, Short, a.fillBar - 6, a.fillBar), TradeOf(day, Short, j))
  {
    hide FirstTouch, FirstExit, ExtremeBar, ShortEnd;
    ShortEndIs(day, j, TradeOf(day, Short, j));
  }

  lemma LongEndIs(day: seq<Bar>, j: nat, t: Trade)
    requires 2 <= j < |day| && Accepted(day, Long, j) && AttemptAt(day, Long, j, |day|).HasFilled()
    requires t == TradeOf(day, Long, j)
    ensures LongEnd(day, AttemptAt(day, Long, j, |day|).fillBar, t)
  {
    hide FirstTouch, FirstExit, ExtremeBar, Target;
    var a, n := AttemptAt(day, Long, j, |day|), |day|;
    var q := FirstExit(day, Long, t.stop, t.target, a.fillBar, n);
    assert LongQuiet(day, a.fillBar, q, t);
  }

  lemma ShortEndIs(day: seq<Bar>, j: nat, t: Trade)
    requires 2 <= j < |day| && Accepted(day, Short, j) && AttemptAt(day, Short, j, |day|).HasFilled()
    requires t == TradeOf(day, Short, j)
    ensures ShortEnd(day, AttemptAt(day, Short, j, |day|).fillBar, t)
  {
    hide FirstTouch, FirstExit, ExtremeBar, Target;
    var a, n := AttemptAt(day, Short, j, |day|), |day|;
    var q := FirstExit(day, Short, t.stop, t.target, a.fillBar, n);
    assert ShortQuiet(day, a.fillBar, q, t);
  }

  /** A fill and its trade in plain terms are the model's. */
  lemma LongFilled(day: seq<Bar>, j: nat, p: nat, x: nat, t: Trade)
    requires 2 <= j < |day| && FindFvg(day, Long, j).Some? && LongTrade(day, j, p, x, t)
    ensures Accepted(day, Long, j) && AttemptAt(day, Long, j, |day|).HasFilled() && t == TradeOf(day, Long, j)
  {
    hide FirstTouch, FirstExit, ExtremeBar, LongEnd;
    assert SetupAt(day, Long, j) == Some(Setup(t.entry, t.stop, t.riskPips));
    var f := FirstTouch(day, Long, t.entry, j + 1, |day|);
    assert !(f < p) && Touched(day[p], Long, t.entry);
    assert f == p;
    var y := ExtremeBar(day, Long, p - 6, p);
    assert MoreExtreme(day[x], day[y], Long) == false && MoreExtreme(day[y], day[x], Long) == false;
    assert x == y && t.target == Target(day, Long, p);
    LongEnded(day, p, t);
  }

  lemma LongEnded(day: seq<Bar>, p: nat, t: Trade)
    requires p < |day| && t.side == Long && LongEnd(day, p, t)
    ensures var q := FirstExit(day, Long, t.stop, t.target, p, |day|);
            && (t.outcome == Scratch <==> q == |day|)
            && (q < |day| ==> (t.outcome == Loss <==> StopHit(day[q], Long, t.stop)))
            && t.exitPrice == (if q == |day| then day[|day| - 1].close
                               else if StopHit(day[q], Long, t.stop) then t.stop else t.target)
  {
    hide FirstExit;
    var q := FirstExit(day, Long, t.stop, t.target, p, |day|);
    if t.outcome != Scratch {
      var r: nat :| r < |day| && LongQuiet(day, p, r, t)
                    && (StopHit(day[r], Long, t.stop) || TargetHit(day[r], Long, t.target))
                    && (t.outcome == Loss <==> StopHit(day[r], Long, t.stop));
      assert !(q < r) && !(r < q);
    }
  }

  /** A fill and its trade in plain terms are the model's. */
  lemma ShortFilled(day: seq<Bar>, j: nat, p: nat, x: nat, t: Trade)
    requires 2 <= j < |day| && FindFvg(day, Short, j).Some? && ShortTrade(day, j, p, x, t)
    ensures Accepted(day, Short, j) && AttemptAt(day, Short, j, |day|).HasFilled() && t == TradeOf(day, Short, j)
  {
    hide FirstTouch, FirstExit, ExtremeBar, ShortEnd;
    assert SetupAt(day, Short, j) == Some(Setup(t.entry, t.stop, t.riskPips));
    var f := FirstTouch(day, Short, t.entry, j + 1, |day|);
    assert !(f < p) && Touched(day[p], Short, t.entry);
    assert f == p;
    var y := ExtremeBar(day, Short, p - 6, p);
    assert MoreExtreme(day[x], day[y], Short) == false && MoreExtreme(day[y], day[x], Short) == false;
    assert x == y && t.target == Target(day, Short, p);
    ShortEnded(day, p, t);
  }

  lemma ShortEnded(day: seq<Bar>, p: nat, t: Trade)
    requires p < |day| && t.side == Short && ShortEnd(day, p, t)
    ensures var q := FirstExit(day, Short, t.stop, t.target, p, |day|);
            && (t.outcome == Scratch <==> q == |day|)
            && (q < |day| ==> (t.outcome == Loss <==> StopHit(day[q], Short, t.stop)))
            && t.exitPrice == (if q == |day| then day[|day| - 1].close
                               else if StopHit(day[q], Short, t.stop) then t.stop else t.target)
  {
    hide FirstExit;
    var q := FirstExit(day, Short, t.stop, t.target, p, |day|);
    if t.outcome != Scratch {
      var r: nat :| r < |day| && ShortQuiet(day, p, r, t)
                    && (StopHit(day[r], Short, t.stop) || TargetHit(day[r], Short, t.target))
                    && (t.outcome == Loss <==> StopHit(day[r], Short, t.stop));
      assert !(q < r) && !(r < q);
    }
  }

  /** In plain terms a search has a trade exactly when it fills in the model, and it is the same. */
  lemma TradeIs(day: seq<Bar>, s: Session, i: nat, j: nat, t: Trade)
    ensures TradeAt(day, s, i, j, t) <==> Fills(day, s, i, j) && t == TradeOf(day, s.side, j)
  {
    hide LongPair, ShortPair, LongTrade, ShortTrade, IsRaid, IsMss, AttemptAt, TradeOf, ExtremeBar;
    PairIs(day, s, i, j);
    if Fills(day, s, i, j) {
      FilledPair(day, s, i, j);
      if s.side == Long { LongFillIs(day, j); } else { ShortFillIs(day, j); }
    }
    if TradeAt(day, s, i, j, t) {
      if s.side == Long {
        var p: nat, x: nat :| LongTrade(day, j, p, x, t);
        FilledPair(day, s, i, j);
        LongFilled(day, j, p, x, t);
      } else {
        var p: nat, x: nat :| ShortTrade(day, j, p, x, t);
        FilledPair(day, s, i, j);
        ShortFilled(day, j, p, x, t);
      }
    }
  }

  lemma FilledPair(day: seq<Bar>, s: Session, i: nat, j: nat)
    ensures IsPair(day, s, i, j) ==> 2 <= j < |day|
    ensures Fills(day, s, i, j) ==> IsPair(day, s, i, j)
  {
    hide AttemptAt, BothSwings, RaidLevel, Reference;
  }

  /** The trade of the model's verdict is the day's trade in plain terms. */
  lemma VerdictIsDayTrade(day: seq<Bar>, s: Session, w: Option<Key>)
    requires Verdict(day, s, w)
    ensures IsDayTrade(day, s, TradeFor(day, s, w))
  {
    hide Fills, TradeAt, TradeOf;
    forall i: nat, j: nat, t ensures TradeAt(day, s, i, j, t) ==> Fills(day, s, i, j) {
      TradeIs(day, s, i, j, t);
    }
    if w.Some? {
      var k := w.value;
      TradeIs(day, s, k.raid, k.mss, TradeFor(day, s, w).value);
      forall i: nat, j: nat, t | TradeAt(day, s, i, j, t) ensures k.raid < i || (k.raid == i && k.mss <= j) {
        assert LexLe(k, Key(i, j));
      }
      assert Earliest(day, s, k.raid, k.mss);
    }
  }

  /** There is only one. */
  lemma DayTradeUnique(day: seq<Bar>, s: Session, trade: Option<Trade>, trade': Option<Trade>)
    requires IsDayTrade(day, s, trade) && IsDayTrade(day, s, trade')
    ensures trade == trade'
  {
    hide TradeAt, Fills, TradeOf;
    if trade.Some? && trade'.Some? {
      var i: nat, j: nat :| TradeAt(day, s, i, j, trade.value) && Earliest(day, s, i, j);
      var i': nat, j': nat :| TradeAt(day, s, i', j', trade'.value) && Earliest(day, s, i', j');
      TradeIs(day, s, i, j, trade.value);
      TradeIs(day, s, i', j', trade'.value);
    }
  }
}
