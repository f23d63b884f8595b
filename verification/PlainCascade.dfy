/** The Cascade detector's signals in bars and prices alone: which sweep of which swing becomes a signal, and that the
    detector emits exactly those. */
module PlainCascade {
  import opened Market
  import opened FvgModel
  import opened BatchModel
  import opened CascadeSignals

  // ---------- in plain terms ----------

  /** Bar k has strictly the highest high of the five bars around it. */
  ghost predicate StrictHigh(bars: seq<Bar>, k: int) {
    2 <= k && k + 2 < |bars| && forall m :: k - 2 <= m <= k + 2 && m != k ==> bars[m].high < bars[k].high
  }

  /** Bar i trades above the swing high and closes below it, and s is the latest swing high confirmed by then. */
  ghost predicate ShortSweep(bars: seq<Bar>, s: nat, i: nat) {
    && StrictHigh(bars, s) && s + 2 <= i < |bars|
    && (forall m :: s < m && m + 2 <= i ==> !StrictHigh(bars, m))
    && bars[i].high > bars[s].high && bars[i].close < bars[s].high
  }

  /** Bar j closes below all lows of bar i and the ten bars before it. */
  ghost predicate ShortBeyond(bars: seq<Bar>, i: nat, j: nat)
    requires i < |bars| && j < |bars|
  {
    forall m :: 0 <= m && i - 10 <= m <= i ==> bars[j].close < bars[m].low
  }

  /** Bar j is the first to do so, within fifteen bars. */
  ghost predicate ShortShift(bars: seq<Bar>, i: nat, j: nat) {
    && i < j <= i + 15 && j < |bars| && ShortBeyond(bars, i, j)
    && forall k :: i < k < j ==> !ShortBeyond(bars, i, k)
  }

  /** The latest gap of the leg from bar i to bar j ends at bar k, and lies in the right half of the leg. */
  ghost predicate ShortGap(bars: seq<Bar>, i: nat, j: nat, k: nat) {
    && i + 2 <= k <= j < |bars| && bars[k - 2].low > bars[k].high
    && (forall m :: k < m <= j ==> !(bars[m - 2].low > bars[m].high))
    && bars[i].high - bars[j].low > 0.0
    && (bars[k - 2].low + bars[k].high) / 2.0 >= bars[j].low + (bars[i].high - bars[j].low) * 0.5
  }

  function ShortSignalAt(bars: seq<Bar>, i: nat, j: nat, k: nat): Signal
    requires i + 2 <= k <= j < |bars|
  {
    Signal(Short, i, j, bars[k - 2].low, bars[k].high, bars[k - 1].high, bars[k - 1].low, bars[j].low)
  }

  /** The signal of swing s: its first sweep that finds a shift, if the leg holds the gap. */
  ghost predicate ShortSignal(bars: seq<Bar>, s: nat, sig: Signal) {
    var i, j := sig.sweep, sig.mss;
    && ShortSweep(bars, s, i) && ShortShift(bars, i, j)
    && (forall i': nat, j': nat :: i' < i ==> !(ShortSweep(bars, s, i') && ShortShift(bars, i', j')))
    && exists k: nat :: ShortGap(bars, i, j, k) && sig == ShortSignalAt(bars, i, j, k)
  }

  /** Bar k has strictly the lowest low of the five bars around it. */
  ghost predicate StrictLow(bars: seq<Bar>, k: int) {
    2 <= k && k + 2 < |bars| && forall m :: k - 2 <= m <= k + 2 && m != k ==> bars[m].low > bars[k].low
  }

  /** Bar i trades below the swing low and closes above it, and s is the latest swing low confirmed by then. */
  ghost predicate LongSweep(bars: seq<Bar>, s: nat, i: nat) {
    && StrictLow(bars, s) && s + 2 <= i < |bars|
    && (forall m :: s < m && m + 2 <= i ==> !StrictLow(bars, m))
    && bars[i].low < bars[s].low && bars[i].close > bars[s].low
  }

  /** Bar j closes above all highs of bar i and the ten bars before it. */
  ghost predicate LongBeyond(bars: seq<Bar>, i: nat, j: nat)
    requires i < |bars| && j < |bars|
  {
    forall m :: 0 <= m && i - 10 <= m <= i ==> bars[j].close > bars[m].high
  }

  /** Bar j is the first to do so, within fifteen bars. */
  ghost predicate LongShift(bars: seq<Bar>, i: nat, j: nat) {
    && i < j <= i + 15 && j < |bars| && LongBeyond(bars, i, j)
    && forall k :: i < k < j ==> !LongBeyond(bars, i, k)
  }

  /** The latest gap of the leg from bar i to bar j ends at bar k, and lies in the right half of the leg. */
  ghost predicate LongGap(bars: seq<Bar>, i: nat, j: nat, k: nat) {
    && i + 2 <= k <= j < |bars| && bars[k - 2].high < bars[k].low
    && (forall m :: k < m <= j ==> !(bars[m - 2].high < bars[m].low))
    && bars[j].high - bars[i].low > 0.0
    && (bars[k].low + bars[k - 2].high) / 2.0 <= bars[i].low + (bars[j].high - bars[i].low) * 0.5
  }

  function LongSignalAt(bars: seq<Bar>, i: nat, j: nat, k: nat): Signal
    requires i + 2 <= k <= j < |bars|
  {
    Signal(Long, i, j, bars[k - 2].high, bars[k].low, bars[k - 1].high, bars[k - 1].low, bars[j].high)
  }

  /** The signal of swing s: its first sweep that finds a shift, if the leg holds the gap. */
  ghost predicate LongSignal(bars: seq<Bar>, s: nat, sig: Signal) {
    var i, j := sig.sweep, sig.mss;
    && LongSweep(bars, s, i) && LongShift(bars, i, j)
    && (forall i': nat, j': nat :: i' < i ==> !(LongSweep(bars, s, i') && LongShift(bars, i', j')))
    && exists k: nat :: LongGap(bars, i, j, k) && sig == LongSignalAt(bars, i, j, k)
  }

  // ---------- a pool and its swing ----------

  /** Swing s of this side is the latest confirmed by bar i. */
  ghost predicate Latest(bars: seq<Bar>, side: Side, s: nat, i: int) {
    && IsFractal(bars, PoolEdge(side), s) && s + 2 <= i
    && forall m :: s < m && m + 2 <= i ==> !IsFractal(bars, PoolEdge(side), m)
  }

  /** Bar i sweeps swing s while it is the latest, and a shift follows. */
  ghost predicate Finds(bars: seq<Bar>, side: Side, s: nat, i: nat) {
    && i < |bars| && Latest(bars, side, s, i)
    && Sweeps(bars[i], side, PriceAt(bars[s], PoolEdge(side)))
    && FirstBeyond(bars, side, Structure(bars, side, i), i + 1, ShiftEnd(bars, i)) < ShiftEnd(bars, i)
  }

  /** A bar before n has done so. */
  ghost predicate Consumed(bars: seq<Bar>, side: Side, s: nat, n: int) {
    exists i: nat :: i < n && Finds(bars, side, s, i)
  }

  /** With bars before n as sweep candidates and swings confirmed by bar c: the pool holds the latest swing exactly if
      none of those bars has consumed it. */
  ghost predicate PoolIs(bars: seq<Bar>, side: Side, pool: Option<Pool>, c: int, n: int) {
    match pool
    case Some(p) =>
      && Latest(bars, side, p.swing, c) && p.price == PriceAt(bars[p.swing], PoolEdge(side))
      && !Consumed(bars, side, p.swing, n)
    case None => forall s: nat :: Latest(bars, side, s, c) ==> Consumed(bars, side, s, n)
  }

  lemma RefreshIs(bars: seq<Bar>, side: Side, pool: Option<Pool>, i: nat)
    requires i < |bars| && PoolIs(bars, side, pool, i - 1, i)
    ensures PoolIs(bars, side, Refresh(bars, side, pool, i), i, i)
  {
    hide IsFractal, Finds, FirstBeyond, Structure;
    var e := PoolEdge(side);
    if i >= 2 && IsFractal(bars, e, i - 2) {
      forall s: nat | Latest(bars, side, s, i) ensures s == i - 2 {
      }
      var swing: nat := i - 2;
      if Consumed(bars, side, swing, i) {
        var x: nat :| x < i && Finds(bars, side, swing, x);
        FindsLater(bars, side, swing, x);
      }
    } else {
      forall s: nat ensures Latest(bars, side, s, i) <==> Latest(bars, side, s, i - 1) {
        FractalInside(bars, e, s);
        if Latest(bars, side, s, i) { assert s != i - 2; }
        if Latest(bars, side, s, i - 1) {
          forall m | s < m && m + 2 <= i ensures !IsFractal(bars, e, m) {
            if m + 2 == i { FractalInside(bars, e, m); }
          }
        }
      }
    }
  }

  lemma FractalInside(bars: seq<Bar>, e: Edge, k: int)
    ensures IsFractal(bars, e, k) ==> 2 <= k && k + 2 < |bars|
  {
  }

  lemma FindsLater(bars: seq<Bar>, side: Side, s: nat, i: nat)
    requires Finds(bars, side, s, i)
    ensures s + 2 <= i < |bars|
  {
  }

  /** The hit of a sweep that finds its shift, if the leg holds the gap. */
  ghost predicate HitIs(bars: seq<Bar>, h: Hit, n: int) {
    var sig := h.signal;
    && sig.sweep < n && Finds(bars, sig.side, h.swing, sig.sweep) && !Consumed(bars, sig.side, h.swing, sig.sweep)
    && sig.mss == FirstBeyond(bars, sig.side, Structure(bars, sig.side, sig.sweep), sig.sweep + 1,
                              ShiftEnd(bars, sig.sweep))
    && SignalOf(bars, sig.side, sig.sweep, sig.mss) == Some(sig)
  }

  lemma SideStepIs(bars: seq<Bar>, side: Side, pool: Option<Pool>, i: nat)
    requires i < |bars| && PoolIs(bars, side, pool, i, i)
    ensures PoolIs(bars, side, SideStep(bars, side, pool, i).0, i, i + 1)
    ensures forall h: Hit :: h in SideStep(bars, side, pool, i).1 <==>
              h.signal.side == side && h.signal.sweep == i && HitIs(bars, h, i + 1)
  {
    hide IsFractal, FirstBeyond, Structure, LastGap, Latest, Sweeps;
    forall s: nat | Latest(bars, side, s, i) ensures pool.Some? ==> s == pool.value.swing {
      if pool.Some? { LatestUnique(bars, side, s, pool.value.swing, i); }
    }
    forall s: nat ensures Consumed(bars, side, s, i + 1) <==> Consumed(bars, side, s, i) || Finds(bars, side, s, i) {
      if Finds(bars, side, s, i) { assert i < i + 1; }
    }
    var step := SideStep(bars, side, pool, i);
    forall h: Hit | h.signal.side == side && h.signal.sweep == i && HitIs(bars, h, i + 1) ensures h in step.1 {
      assert Latest(bars, side, h.swing, i);
    }
  }

  lemma LatestUnique(bars: seq<Bar>, side: Side, s: nat, s': nat, i: int)
    requires Latest(bars, side, s, i) && Latest(bars, side, s', i)
    ensures s == s'
  {
    hide IsFractal;
  }

  lemma {:induction false} RunIs(bars: seq<Bar>, n: nat)
    requires n <= |bars|
    ensures var st := Run(bars, n);
            && PoolIs(bars, Short, st.highPool, n - 1, n) && PoolIs(bars, Long, st.lowPool, n - 1, n)
            && forall h :: h in st.hits <==> HitIs(bars, h, n)
  {
    hide SideStep, Refresh, HitIs, PoolIs;
    if n == 0 {
      NothingYet(bars);
    } else {
      RunIs(bars, n - 1);
      var st, i := Run(bars, n - 1), n - 1;
      RefreshIs(bars, Short, st.highPool, i);
      RefreshIs(bars, Long, st.lowPool, i);
      SideStepIs(bars, Short, Refresh(bars, Short, st.highPool, i), i);
      SideStepIs(bars, Long, Refresh(bars, Long, st.lowPool, i), i);
      forall h ensures HitIs(bars, h, n) <==> HitIs(bars, h, i) || (h.signal.sweep == i && HitIs(bars, h, n)) {
        HitBefore(bars, h, i);
      }
    }
  }

  lemma HitBefore(bars: seq<Bar>, h: Hit, i: nat)
    ensures HitIs(bars, h, i + 1) && h.signal.sweep != i <==> HitIs(bars, h, i)
  {
    hide Finds, Consumed, SignalOf, FirstBeyond, Structure;
  }

  lemma NothingYet(bars: seq<Bar>)
    ensures PoolIs(bars, Short, None, -1, 0) && PoolIs(bars, Long, None, -1, 0)
    ensures forall h :: !HitIs(bars, h, 0)
  {
  }

  // ---------- the model means the same ----------

  lemma ShortSwingIs(bars: seq<Bar>, k: int)
    ensures IsFractal(bars, PoolEdge(Short), k) <==> StrictHigh(bars, k)
  {
    if IsFractal(bars, PoolEdge(Short), k) {
      forall m | k - 2 <= m <= k + 2 && m != k
        ensures PriceAt(bars[m], Top) != PriceAt(bars[k], Top)
        ensures Reaches(Top, PriceAt(bars[k], Top), PriceAt(bars[m], Top))
      {
        assert m == k - 2 || m == k - 1 || m == k + 1 || m == k + 2;
      }
    }
  }

  lemma ShortSweepIs(bars: seq<Bar>, s: nat, i: nat)
    ensures ShortSweep(bars, s, i) <==>
            i < |bars| && Latest(bars, Short, s, i) && Sweeps(bars[i], Short, PriceAt(bars[s], PoolEdge(Short)))
  {
    hide IsFractal, StrictHigh;
    forall k: int ensures IsFractal(bars, PoolEdge(Short), k) == StrictHigh(bars, k) {
      ShortSwingIs(bars, k);
    }
    ShortInside(bars, s);
  }

  lemma ShortInside(bars: seq<Bar>, k: int)
    ensures StrictHigh(bars, k) ==> 2 <= k && k + 2 < |bars|
  {
  }

  lemma ShortBeyondIs(bars: seq<Bar>, i: nat, j: nat)
    requires i < |bars| && j < |bars|
    ensures Beyond(bars[j], Short, Structure(bars, Short, i)) <==> ShortBeyond(bars, i, j)
  {
    hide Extremum;
    var lo := Max(0, i - STRUCTURE_LOOKBACK);
    var xs := Prices(bars[lo..i + 1], Bottom);
    var x := Extremum(Bottom, xs);
    var y :| 0 <= y < |xs| && xs[y] == x;
    assert PriceAt(bars[lo + y], Bottom) == x;
    forall m | 0 <= m && i - 10 <= m <= i ensures Reaches(Bottom, x, PriceAt(bars[m], Bottom)) {
      assert xs[m - lo] == PriceAt(bars[m], Bottom);
    }
  }

  /** The shift bar of the model is the one in plain terms, if there is one. */
  lemma ShortShiftIs(bars: seq<Bar>, i: nat, j: nat)
    requires i < |bars|
    ensures var f := FirstBeyond(bars, Short, Structure(bars, Short, i), i + 1, ShiftEnd(bars, i));
            ShortShift(bars, i, j) <==> j == f && f < ShiftEnd(bars, i)
  {
    hide FirstBeyond, Structure, Beyond, ShortBeyond;
    forall k: nat | k < |bars| ensures Beyond(bars[k], Short, Structure(bars, Short, i)) == ShortBeyond(bars, i, k) {
      ShortBeyondIs(bars, i, k);
    }
    var f := FirstBeyond(bars, Short, Structure(bars, Short, i), i + 1, ShiftEnd(bars, i));
    if ShortShift(bars, i, j) { assert !(f < j) && !(j < f); }
  }

  lemma ShortGapIs(bars: seq<Bar>, i: nat, j: nat, k: nat)
    requires i < j < |bars|
    ensures ShortGap(bars, i, j, k) <==> SignalOf(bars, Short, i, j).Some? && k == LastGap(bars, Short, i, j)
  {
    hide LastGap;
    var g := LastGap(bars, Short, i, j);
    if g > 0 {
      assert IsGap(bars, Short, g);
      forall m | g < m <= j ensures !(bars[m - 2].low > bars[m].high) {
        assert !IsGap(bars, Short, m);
      }
    }
    if ShortGap(bars, i, j, k) {
      assert IsGap(bars, Short, k);
      assert g == k;
    }
  }

  lemma ShortFindsIs(bars: seq<Bar>, s: nat, i: nat)
    ensures Finds(bars, Short, s, i) <==> ShortSweep(bars, s, i) && exists j: nat :: ShortShift(bars, i, j)
  {
    hide FirstBeyond, Structure, Latest, Sweeps, ShortSweep, ShortShift;
    ShortSweepIs(bars, s, i);
    if i < |bars| {
      var f := FirstBeyond(bars, Short, Structure(bars, Short, i), i + 1, ShiftEnd(bars, i));
      ShortShiftIs(bars, i, f);
      if j: nat :| ShortShift(bars, i, j) { ShortShiftIs(bars, i, j); }
    }
  }

  lemma ShortSignalIs(bars: seq<Bar>, s: nat, sig: Signal)
    ensures ShortSignal(bars, s, sig) <==> sig.side == Short && HitIs(bars, Hit(sig, s), |bars|)
  {
    hide FirstBeyond, Structure, Finds, Consumed, ShortSweep, ShortShift, ShortGap, SignalOf;
    var i, j := sig.sweep, sig.mss;
    ShortInOrder(bars, s, i, j);
    ShortConsumedIs(bars, s, i);
    ShortFindsIs(bars, s, i);
    if i < |bars| {
      ShortShiftIs(bars, i, j);
      if y: nat :| ShortShift(bars, i, y) { ShortShiftIs(bars, i, y); }
    }
    if i < j < |bars| { ShortSignalOfIs(bars, i, j, sig); }
  }

  lemma ShortConsumedIs(bars: seq<Bar>, s: nat, i: nat)
    ensures Consumed(bars, Short, s, i) <==>
            exists i': nat, j': nat :: i' < i && ShortSweep(bars, s, i') && ShortShift(bars, i', j')
  {
    hide Finds, ShortSweep, ShortShift;
    forall x: nat
      ensures Finds(bars, Short, s, x) <==> ShortSweep(bars, s, x) && exists y: nat :: ShortShift(bars, x, y)
    {
      ShortFindsIs(bars, s, x);
    }
    if Consumed(bars, Short, s, i) {
      var x: nat :| x < i && Finds(bars, Short, s, x);
      var y: nat :| ShortShift(bars, x, y);
      assert x < i && ShortSweep(bars, s, x) && ShortShift(bars, x, y);
    }
  }

  lemma ShortSignalOfIs(bars: seq<Bar>, i: nat, j: nat, sig: Signal)
    requires i < j < |bars| && sig.sweep == i && sig.mss == j
    ensures SignalOf(bars, Short, i, j) == Some(sig) <==>
            exists k: nat :: ShortGap(bars, i, j, k) && sig == ShortSignalAt(bars, i, j, k)
  {
    hide LastGap, ShortGap;
    var g := LastGap(bars, Short, i, j);
    ShortGapIs(bars, i, j, g);
    ShortGapInside(bars, i, j, g);
    forall k: nat | ShortGap(bars, i, j, k) ensures k == g {
      ShortGapIs(bars, i, j, k);
    }
  }

  lemma ShortGapInside(bars: seq<Bar>, i: nat, j: nat, k: nat)
    ensures ShortGap(bars, i, j, k) ==> i + 2 <= k <= j < |bars|
  {
  }

  lemma ShortInOrder(bars: seq<Bar>, s: nat, i: nat, j: nat)
    ensures ShortShift(bars, i, j) ==> i < j < |bars|
    ensures ShortSweep(bars, s, i) ==> s + 2 <= i < |bars|
  {
  }

  lemma LongSwingIs(bars: seq<Bar>, k: int)
    ensures IsFractal(bars, PoolEdge(Long), k) <==> StrictLow(bars, k)
  {
    if IsFractal(bars, PoolEdge(Long), k) {
      forall m | k - 2 <= m <= k + 2 && m != k
        ensures PriceAt(bars[m], Bottom) != PriceAt(bars[k], Bottom)
        ensures Reaches(Bottom, PriceAt(bars[k], Bottom), PriceAt(bars[m], Bottom))
      {
        assert m == k - 2 || m == k - 1 || m == k + 1 || m == k + 2;
      }
    }
  }

  lemma LongSweepIs(bars: seq<Bar>, s: nat, i: nat)
    ensures LongSweep(bars, s, i) <==>
            i < |bars| && Latest(bars, Long, s, i) && Sweeps(bars[i], Long, PriceAt(bars[s], PoolEdge(Long)))
  {
    hide IsFractal, StrictLow;
    forall k: int ensures IsFractal(bars, PoolEdge(Long), k) == StrictLow(bars, k) {
      LongSwingIs(bars, k);
    }
    LongInside(bars, s);
  }

  lemma LongInside(bars: seq<Bar>, k: int)
    ensures StrictLow(bars, k) ==> 2 <= k && k + 2 < |bars|
  {
  }

  lemma LongBeyondIs(bars: seq<Bar>, i: nat, j: nat)
    requires i < |bars| && j < |bars|
    ensures Beyond(bars[j], Long, Structure(bars, Long, i)) <==> LongBeyond(bars, i, j)
  {
    hide Extremum;
    var lo := Max(0, i - STRUCTURE_LOOKBACK);
    var xs := Prices(bars[lo..i + 1], Top);
    var x := Extremum(Top, xs);
    var y :| 0 <= y < |xs| && xs[y] == x;
    assert PriceAt(bars[lo + y], Top) == x;
    forall m | 0 <= m && i - 10 <= m <= i ensures Reaches(Top, x, PriceAt(bars[m], Top)) {
      assert xs[m - lo] == PriceAt(bars[m], Top);
    }
  }

  /** The shift bar of the model is the one in plain terms, if there is one. */
  lemma LongShiftIs(bars: seq<Bar>, i: nat, j: nat)
    requires i < |bars|
    ensures var f := FirstBeyond(bars, Long, Structure(bars, Long, i), i + 1, ShiftEnd(bars, i));
            LongShift(bars, i, j) <==> j == f && f < ShiftEnd(bars, i)
  {
    hide FirstBeyond, Structure, Beyond, LongBeyond;
    forall k: nat | k < |bars| ensures Beyond(bars[k], Long, Structure(bars, Long, i)) == LongBeyond(bars, i, k) {
      LongBeyondIs(bars, i, k);
    }
    var f := FirstBeyond(bars, Long, Structure(bars, Long, i), i + 1, ShiftEnd(bars, i));
    if LongShift(bars, i, j) { assert !(f < j) && !(j < f); }
  }

  lemma LongGapIs(bars: seq<Bar>, i: nat, j: nat, k: nat)
    requires i < j < |bars|
    ensures LongGap(bars, i, j, k) <==> SignalOf(bars, Long, i, j).Some? && k == LastGap(bars, Long, i, j)
  {
    hide LastGap;
    var g := LastGap(bars, Long, i, j);
    if g > 0 {
      assert IsGap(bars, Long, g);
      forall m | g < m <= j ensures !(bars[m - 2].high < bars[m].low) {
        assert !IsGap(bars, Long, m);
      }
    }
    if LongGap(bars, i, j, k) {
      assert IsGap(bars, Long, k);
      assert g == k;
    }
  }

  lemma LongFindsIs(bars: seq<Bar>, s: nat, i: nat)
    ensures Finds(bars, Long, s, i) <==> LongSweep(bars, s, i) && exists j: nat :: LongShift(bars, i, j)
  {
    hide FirstBeyond, Structure, Latest, Sweeps, LongSweep, LongShift;
    LongSweepIs(bars, s, i);
    if i < |bars| {
      var f := FirstBeyond(bars, Long, Structure(bars, Long, i), i + 1, ShiftEnd(bars, i));
      LongShiftIs(bars, i, f);
      if j: nat :| LongShift(bars, i, j) { LongShiftIs(bars, i, j); }
    }
  }

  lemma LongSignalIs(bars: seq<Bar>, s: nat, sig: Signal)
    ensures LongSignal(bars, s, sig) <==> sig.side == Long && HitIs(bars, Hit(sig, s), |bars|)
  {
    hide FirstBeyond, Structure, Finds, Consumed, LongSweep, LongShift, LongGap, SignalOf;
    var i, j := sig.sweep, sig.mss;
    LongInOrder(bars, s, i, j);
    LongConsumedIs(bars, s, i);
    LongFindsIs(bars, s, i);
    if i < |bars| {
      LongShiftIs(bars, i, j);
      if y: nat :| LongShift(bars, i, y) { LongShiftIs(bars, i, y); }
    }
    if i < j < |bars| { LongSignalOfIs(bars, i, j, sig); }
  }

  lemma LongConsumedIs(bars: seq<Bar>, s: nat, i: nat)
    ensures Consumed(bars, Long, s, i) <==>
            exists i': nat, j': nat :: i' < i && LongSweep(bars, s, i') && LongShift(bars, i', j')
  {
    hide Finds, LongSweep, LongShift;
    forall x: nat
      ensures Finds(bars, Long, s, x) <==> LongSweep(bars, s, x) && exists y: nat :: LongShift(bars, x, y)
    {
      LongFindsIs(bars, s, x);
    }
    if Consumed(bars, Long, s, i) {
      var x: nat :| x < i && Finds(bars, Long, s, x);
      var y: nat :| LongShift(bars, x, y);
      assert x < i && LongSweep(bars, s, x) && LongShift(bars, x, y);
    }
  }

  lemma LongSignalOfIs(bars: seq<Bar>, i: nat, j: nat, sig: Signal)
    requires i < j < |bars| && sig.sweep == i && sig.mss == j
    ensures SignalOf(bars, Long, i, j) == Some(sig) <==>
            exists k: nat :: LongGap(bars, i, j, k) && sig == LongSignalAt(bars, i, j, k)
  {
    hide LastGap, LongGap;
    var g := LastGap(bars, Long, i, j);
    LongGapIs(bars, i, j, g);
    LongGapInside(bars, i, j, g);
    forall k: nat | LongGap(bars, i, j, k) ensures k == g {
      LongGapIs(bars, i, j, k);
    }
  }

  lemma LongGapInside(bars: seq<Bar>, i: nat, j: nat, k: nat)
    ensures LongGap(bars, i, j, k) ==> i + 2 <= k <= j < |bars|
  {
  }

  lemma LongInOrder(bars: seq<Bar>, s: nat, i: nat, j: nat)
    ensures LongShift(bars, i, j) ==> i < j < |bars|
    ensures LongSweep(bars, s, i) ==> s + 2 <= i < |bars|
  {
  }

  /** The detector's hits are exactly the signals of the swings, each once, in order of the sweep bar and at one bar the
      short before the long. */
  lemma HitsMean(bars: seq<Bar>, h: Hit)
    ensures h in Run(bars, |bars|).hits <==>
            if h.signal.side == Short then ShortSignal(bars, h.swing, h.signal) else LongSignal(bars, h.swing, h.signal)
    ensures var hits := Run(bars, |bars|).hits;
            forall x, y :: 0 <= x < y < |hits| ==> InEmission(hits[x], hits[y])
  {
    hide Run, HitIs, ShortSignal, LongSignal;
    RunIs(bars, |bars|);
    ShortSignalIs(bars, h.swing, h.signal);
    LongSignalIs(bars, h.swing, h.signal);
    EmissionOrder(bars, |bars|);
  }

  /** What detection returns: a signal is in the list exactly if it is the signal of some swing. */
  lemma SignalsMean(bars: seq<Bar>, sig: Signal)
    ensures sig in Signals(Run(bars, |bars|).hits) <==>
            exists s: nat :: ShortSignal(bars, s, sig) || LongSignal(bars, s, sig)
  {
    hide Run, ShortSignal, LongSignal;
    var hits := Run(bars, |bars|).hits;
    if sig in Signals(hits) {
      var k :| 0 <= k < |hits| && Signals(hits)[k] == sig;
      HitsMean(bars, hits[k]);
      assert ShortSignal(bars, hits[k].swing, sig) || LongSignal(bars, hits[k].swing, sig);
    }
    if s: nat :| ShortSignal(bars, s, sig) || LongSignal(bars, s, sig) {
      HitsMean(bars, Hit(sig, s));
      SideOf(bars, s, sig);
      var k :| 0 <= k < |hits| && hits[k] == Hit(sig, s);
      assert Signals(hits)[k] == sig;
    }
  }

  lemma SideOf(bars: seq<Bar>, s: nat, sig: Signal)
    ensures ShortSignal(bars, s, sig) ==> sig.side == Short
    ensures LongSignal(bars, s, sig) ==> sig.side == Long
  {
    hide ShortSweep, LongSweep, ShortShift, LongShift, ShortGap, LongGap;
  }

  predicate InEmission(h: Hit, h': Hit) {
    h.signal.sweep < h'.signal.sweep
    || (h.signal.sweep == h'.signal.sweep && h.signal.side == Short && h'.signal.side == Long)
  }

  lemma {:induction false} EmissionOrder(bars: seq<Bar>, n: nat)
    requires n <= |bars|
    ensures var hits := Run(bars, n).hits;
            && (forall h :: h in hits ==> h.signal.sweep < n)
            && forall x, y :: 0 <= x < y < |hits| ==> InEmission(hits[x], hits[y])
  {
    hide SideStep, Refresh;
    if n > 0 {
      EmissionOrder(bars, n - 1);
      var st, i := Run(bars, n - 1), n - 1;
      var p, q := Refresh(bars, Short, st.highPool, i), Refresh(bars, Long, st.lowPool, i);
      StepEmits(bars, Short, p, i);
      StepEmits(bars, Long, q, i);
      OneMoreBar(st.hits, SideStep(bars, Short, p, i).1, SideStep(bars, Long, q, i).1, i);
    }
  }

  lemma StepEmits(bars: seq<Bar>, side: Side, pool: Option<Pool>, i: nat)
    requires i < |bars|
    ensures forall h :: h in SideStep(bars, side, pool, i).1 ==> h.signal.sweep == i && h.signal.side == side
    ensures |SideStep(bars, side, pool, i).1| <= 1
  {
    hide FirstBeyond, LastGap, Structure;
  }

  lemma OneMoreBar(hits: seq<Hit>, shorts: seq<Hit>, longs: seq<Hit>, i: nat)
    requires forall h :: h in hits ==> h.signal.sweep < i
    requires forall x, y :: 0 <= x < y < |hits| ==> InEmission(hits[x], hits[y])
    requires |shorts| <= 1 && forall h :: h in shorts ==> h.signal.sweep == i && h.signal.side == Short
    requires |longs| <= 1 && forall h :: h in longs ==> h.signal.sweep == i && h.signal.side == Long
    ensures var all := hits + shorts + longs;
            && (forall h :: h in all ==> h.signal.sweep < i + 1)
            && forall x, y :: 0 <= x < y < |all| ==> InEmission(all[x], all[y])
  {
    var all := hits + shorts + longs;
    forall x | 0 <= x < |all|
      ensures if x < |hits| then all[x] == hits[x] && all[x] in hits
              else if x < |hits| + |shorts| then all[x] in shorts else all[x] in longs
    {
    }
  }
}
