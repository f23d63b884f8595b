/** Cascade Raid signal detection: a sweep of an unconsumed swing level, a structure shift within fifteen bars, a gap in
    the leg and the half-of-leg filter. */
module CascadeSignals {
  import opened Market
  import opened FvgModel
  import opened BatchModel

  const WING: nat := 2
  const STRUCTURE_LOOKBACK: nat := 10
  const SHIFT_WINDOW: nat := 15

  // A short signal sweeps the last swing high, a long signal the last swing low.

  function PoolEdge(side: Side): Edge { if side == Short then Top else Bottom }

  /** Bar i is the strict and only extreme of the five bars centred on it. */
  predicate IsFractal(bars: seq<Bar>, e: Edge, i: int) {
    && WING <= i && i + WING < |bars|
    && IsPivot(bars, e, i)
    && PriceAt(bars[i - 2], e) != PriceAt(bars[i], e) && PriceAt(bars[i - 1], e) != PriceAt(bars[i], e)
    && PriceAt(bars[i + 1], e) != PriceAt(bars[i], e) && PriceAt(bars[i + 2], e) != PriceAt(bars[i], e)
  }

  datatype Pool = Pool(swing: nat, price: real)

  datatype Signal = Signal(side: Side, sweep: nat, mss: nat, near: real, far: real, frameHigh: real, frameLow: real,
                           legExtreme: real)

  /** A signal together with the swing whose level it consumed. */
  datatype Hit = Hit(signal: Signal, swing: nat)

  predicate Sweeps(b: Bar, side: Side, price: real) {
    if side == Short then b.high > price && b.close < price else b.low < price && b.close > price
  }

  /** The structure a shift must close beyond: the opposite extreme of the sweep bar and the ten bars before it. */
  function Structure(bars: seq<Bar>, side: Side, i: nat): real
    requires i < |bars|
  {
    var e := PoolEdge(if side == Short then Long else Short);
    Extremum(e, Prices(bars[Max(0, i - STRUCTURE_LOOKBACK)..i + 1], e))
  }

  predicate Beyond(b: Bar, side: Side, level: real) {
    if side == Short then b.close < level else b.close > level
  }

  /** The first bar in [from, end) that closes beyond the level, or `end`. */
  function FirstBeyond(bars: seq<Bar>, side: Side, level: real, from: nat, end: nat): (j: nat)
    requires from <= end <= |bars|
    ensures from <= j <= end
    ensures j < end ==> Beyond(bars[j], side, level)
    ensures forall m :: from <= m < j ==> !Beyond(bars[m], side, level)
    decreases end - from
  {
    if from == end || Beyond(bars[from], side, level) then from else FirstBeyond(bars, side, level, from + 1, end)
  }

  predicate IsGap(bars: seq<Bar>, side: Side, k: nat)
    requires 2 <= k < |bars|
  {
    if side == Short then bars[k - 2].low > bars[k].high else bars[k - 2].high < bars[k].low
  }

  /** The latest gap ending in (sweep + 1, mss], or 0. */
  function LastGap(bars: seq<Bar>, side: Side, sweep: nat, k: nat): (g: nat)
    requires k < |bars|
    ensures g == 0 || (sweep + 2 <= g <= k && IsGap(bars, side, g))
    ensures forall m :: Max(g, sweep + 1) < m <= k ==> !IsGap(bars, side, m)
  {
    if k < sweep + 2 then 0 else if IsGap(bars, side, k) then k else LastGap(bars, side, sweep, k - 1)
  }

  /** The signal of a sweep and its shift, if the leg holds a gap in the right half. */
  function SignalOf(bars: seq<Bar>, side: Side, sweep: nat, mss: nat): Option<Signal>
    requires sweep < mss < |bars|
  {
    var k := LastGap(bars, side, sweep, mss);
    if k == 0 then None
    else
      var top := if side == Short then bars[k - 2].low else bars[k].low;
      var bottom := if side == Short then bars[k].high else bars[k - 2].high;
      var mid := (top + bottom) / 2.0;
      var f := bars[k - 1];
      if side == Short then
        var range := bars[sweep].high - bars[mss].low;
        if range > 0.0 && mid >= bars[mss].low + range * 0.5
        then Some(Signal(Short, sweep, mss, top, bottom, f.high, f.low, bars[mss].low))
        else None
      else
        var range := bars[mss].high - bars[sweep].low;
        if range > 0.0 && mid <= bars[sweep].low + range * 0.5
        then Some(Signal(Long, sweep, mss, bottom, top, f.high, f.low, bars[mss].high))
        else None
  }

  /** A pool after the swing confirmed by bar i, if any, has replaced it. */
  function Refresh(bars: seq<Bar>, side: Side, pool: Option<Pool>, i: nat): Option<Pool>
    requires i < |bars|
  {
    if i >= WING && IsFractal(bars, PoolEdge(side), i - WING)
    then Some(Pool(i - WING, PriceAt(bars[i - WING], PoolEdge(side))))
    else pool
  }

  function ShiftEnd(bars: seq<Bar>, i: nat): nat
    requires i < |bars|
  {
    Min(|bars|, i + 1 + SHIFT_WINDOW)
  }

  /** One side at bar i: a sweep whose shift is found consumes the pool, whether or not a signal results; one whose
      shift is not found leaves it to be swept again. */
  function SideStep(bars: seq<Bar>, side: Side, pool: Option<Pool>, i: nat): (Option<Pool>, seq<Hit>)
    requires i < |bars|
  {
    if pool.None? || !Sweeps(bars[i], side, pool.value.price) then (pool, [])
    else
      var mss := FirstBeyond(bars, side, Structure(bars, side, i), i + 1, ShiftEnd(bars, i));
      if mss == ShiftEnd(bars, i) then (pool, [])
      else
        (None, match SignalOf(bars, side, i, mss) case None => [] case Some(sig) => [Hit(sig, pool.value.swing)])
  }

  datatype State = State(highPool: Option<Pool>, lowPool: Option<Pool>, hits: seq<Hit>)

  /** The detector's state after bars 0 .. n-1 have been the sweep candidate. */
  function Run(bars: seq<Bar>, n: nat): State
    requires n <= |bars|
  {
    if n == 0 then State(None, None, [])
    else
      var st := Run(bars, n - 1);
      var i := n - 1;
      var (high, shorts) := SideStep(bars, Short, Refresh(bars, Short, st.highPool, i), i);
      var (low, longs) := SideStep(bars, Long, Refresh(bars, Long, st.lowPool, i), i);
      State(high, low, st.hits + shorts + longs)
  }

  function Signals(hits: seq<Hit>): (r: seq<Signal>)
    ensures |r| == |hits| && forall k :: 0 <= k < |hits| ==> r[k] == hits[k].signal
  {
    seq(|hits|, k requires 0 <= k < |hits| => hits[k].signal)
  }

  lemma SignalsOf(hits: seq<Hit>, more: seq<Hit>)
    ensures Signals(hits + more) == Signals(hits) + Signals(more) && Signals([]) == []
  {
  }

  // ---------- the detector's loops ----------

  function CountOf(xs: seq<real>, x: real): nat {
    if xs == [] then 0 else (if xs[0] == x then 1 else 0) + CountOf(xs[1..], x)
  }

  lemma CentredCount(bars: seq<Bar>, e: Edge, i: nat)
    requires WING <= i && i + WING < |bars|
    ensures var w := Prices(bars[i - WING..i + WING + 1], e);
            PriceAt(bars[i], e) == Extremum(e, w) && CountOf(w, PriceAt(bars[i], e)) == 1 <==> IsFractal(bars, e, i)
  {
    hide Extremum, IsPivot;
    CentredWindow(bars, e, i);
    var w := Prices(bars[i - WING..i + WING + 1], e);
    var x := PriceAt(bars[i], e);
    assert w == [PriceAt(bars[i - 2], e), PriceAt(bars[i - 1], e), x, PriceAt(bars[i + 1], e), PriceAt(bars[i + 2], e)];
    FiveCount(w[0], w[1], w[2], w[3], w[4]);
  }

  lemma FiveCount(a: real, b: real, x: real, c: real, d: real)
    ensures CountOf([a, b, x, c, d], x) == 1 <==> a != x && b != x && c != x && d != x
  {
    assert CountOf([d], x) == (if d == x then 1 else 0) by { assert [d][1..] == []; }
    assert CountOf([c, d], x) == (if c == x then 1 else 0) + CountOf([d], x) by { assert [c, d][1..] == [d]; }
    assert CountOf([x, c, d], x) == 1 + CountOf([c, d], x) by { assert [x, c, d][1..] == [c, d]; }
    assert CountOf([b, x, c, d], x) == (if b == x then 1 else 0) + CountOf([x, c, d], x) by {
      assert [b, x, c, d][1..] == [x, c, d];
    }
    assert [a, b, x, c, d][1..] == [b, x, c, d];
  }

  method FindFractalSwings(bars: seq<Bar>, e: Edge) returns (swings: array<bool>)
    ensures fresh(swings) && swings.Length == |bars|
    ensures forall i :: 0 <= i < |bars| ==> (swings[i] <==> IsFractal(bars, e, i))
  {
    var n := |bars|;
    swings := new bool[n](_ => false);
    var i := WING;
    while i < n - WING
      invariant WING <= i
      invariant forall k :: 0 <= k < n && k < i ==> (swings[k] <==> IsFractal(bars, e, k))
      invariant forall k :: 0 <= k < n && i <= k ==> !swings[k]
    {
      hide IsFractal, Extremum, CountOf;
      CentredCount(bars, e, i);
      var w := Prices(bars[i - WING..i + WING + 1], e);
      if PriceAt(bars[i], e) == Extremum(e, w) && CountOf(w, PriceAt(bars[i], e)) == 1 {
        swings[i] := true;
      }
      i := i + 1;
    }
  }

  method FindShift(bars: seq<Bar>, side: Side, level: real, sweep: nat) returns (mss: Option<nat>)
    requires sweep < |bars|
    ensures var j := FirstBeyond(bars, side, level, sweep + 1, ShiftEnd(bars, sweep));
            mss == if j == ShiftEnd(bars, sweep) then None else Some(j)
  {
    var j := sweep + 1;
    while j < ShiftEnd(bars, sweep)
      invariant sweep + 1 <= j <= ShiftEnd(bars, sweep)
      invariant FirstBeyond(bars, side, level, sweep + 1, ShiftEnd(bars, sweep)) ==
                FirstBeyond(bars, side, level, j, ShiftEnd(bars, sweep))
    {
      if Beyond(bars[j], side, level) {
        return Some(j);
      }
      j := j + 1;
    }
    return None;
  }

  method FindGap(bars: seq<Bar>, side: Side, sweep: nat, mss: nat) returns (gap: Option<nat>)
    requires sweep < mss < |bars|
    ensures var k := LastGap(bars, side, sweep, mss);
            gap == if k == 0 then None else Some(k)
  {
    var k := mss;
    while k > sweep + 1
      invariant sweep + 1 <= k <= mss
      invariant LastGap(bars, side, sweep, mss) == LastGap(bars, side, sweep, k)
    {
      if IsGap(bars, side, k) {
        return Some(k);
      }
      k := k - 1;
    }
    return None;
  }

  /** One sweep attempt, resolved completely before the next bar is looked at. */
  method Attempt(bars: seq<Bar>, side: Side, pool: Option<Pool>, i: nat)
    returns (pool': Option<Pool>, signals: seq<Signal>)
    requires i < |bars|
    ensures pool' == SideStep(bars, side, pool, i).0 && signals == Signals(SideStep(bars, side, pool, i).1)
  {
    hide FirstBeyond, LastGap, Extremum;
    pool', signals := pool, [];
    if pool.None? || !Sweeps(bars[i], side, pool.value.price) {
      return;
    }
    var mss := FindShift(bars, side, Structure(bars, side, i), i);
    if mss.None? {
      return;
    }
    pool' := None;
    var j := mss.value;
    var gap := FindGap(bars, side, i, j);
    if gap.None? {
      return;
    }
    var k := gap.value;
    var legRange := if side == Short then bars[i].high - bars[j].low else bars[j].high - bars[i].low;
    if legRange <= 0.0 {
      return;
    }
    var top := if side == Short then bars[k - 2].low else bars[k].low;
    var bottom := if side == Short then bars[k].high else bars[k - 2].high;
    var mid := (top + bottom) / 2.0;
    if side == Short {
      if mid >= bars[j].low + legRange * 0.5 {
        signals := [Signal(Short, i, j, top, bottom, bars[k - 1].high, bars[k - 1].low, bars[j].low)];
      }
    } else {
      if mid <= bars[i].low + legRange * 0.5 {
        signals := [Signal(Long, i, j, bottom, top, bars[k - 1].high, bars[k - 1].low, bars[j].high)];
      }
    }
    assert signals == Signals(SideStep(bars, side, pool, i).1);
  }

  method DetectSignals(bars: seq<Bar>) returns (signals: seq<Signal>)
    ensures signals == Signals(Run(bars, |bars|).hits)
  {
    hide SideStep, IsFractal, Signals;
    SignalsOf([], []);
    var swingHigh := FindFractalSwings(bars, Top);
    var swingLow := FindFractalSwings(bars, Bottom);
    signals := [];
    ghost var hits: seq<Hit> := [];
    var recentHigh: Option<Pool>, recentLow: Option<Pool> := None, None;
    var i := 0;
    while i < |bars|
      invariant 0 <= i <= |bars|
      invariant Run(bars, i) == State(recentHigh, recentLow, hits)
      invariant signals == Signals(hits)
      invariant forall k :: 0 <= k < |bars| ==> (swingHigh[k] <==> IsFractal(bars, Top, k))
      invariant forall k :: 0 <= k < |bars| ==> (swingLow[k] <==> IsFractal(bars, Bottom, k))
    {
      if i >= WING {
        if swingHigh[i - WING] {
          recentHigh := Some(Pool(i - WING, bars[i - WING].high));
        }
        if swingLow[i - WING] {
          recentLow := Some(Pool(i - WING, bars[i - WING].low));
        }
      }
      var shorts, longs;
      ghost var shortHits, longHits := SideStep(bars, Short, recentHigh, i).1, SideStep(bars, Long, recentLow, i).1;
      recentHigh, shorts := Attempt(bars, Short, recentHigh, i);
      recentLow, longs := Attempt(bars, Long, recentLow, i);
      signals := signals + shorts + longs;
      SignalsOf(hits, shortHits);
      SignalsOf(hits + shortHits, longHits);
      hits := hits + shortHits + longHits;
      i := i + 1;
    }
  }

  // ---------- bounded look-ahead ----------

  lemma StructureAgrees(d: seq<Bar>, d': seq<Bar>, m: nat, side: Side, i: nat)
    requires Agree(d, d', m) && i < m
    ensures Structure(d, side, i) == Structure(d', side, i)
  {
    var lo := Max(0, i - STRUCTURE_LOOKBACK);
    assert d[lo..i + 1] == d'[lo..i + 1];
  }

  lemma {:induction false} LastGapAgrees(d: seq<Bar>, d': seq<Bar>, m: nat, side: Side, sweep: nat, k: nat)
    requires Agree(d, d', m) && k < m
    ensures LastGap(d, side, sweep, k) == LastGap(d', side, sweep, k)
  {
    if k >= sweep + 2 { LastGapAgrees(d, d', m, side, sweep, k - 1); }
  }

  lemma {:induction false} FirstBeyondAgrees(d: seq<Bar>, d': seq<Bar>, m: nat, side: Side, level: real, from: nat,
      end: nat)
    requires Agree(d, d', m) && from <= end <= m
    ensures FirstBeyond(d, side, level, from, end) == FirstBeyond(d', side, level, from, end)
    decreases end - from
  {
    if from < end { FirstBeyondAgrees(d, d', m, side, level, from + 1, end); }
  }

  lemma RefreshAgrees(d: seq<Bar>, d': seq<Bar>, m: nat, side: Side, pool: Option<Pool>, i: nat)
    requires Agree(d, d', m) && i < m
    ensures Refresh(d, side, pool, i) == Refresh(d', side, pool, i)
  {
  }

  lemma SignalAgrees(d: seq<Bar>, d': seq<Bar>, m: nat, side: Side, sweep: nat, mss: nat)
    requires Agree(d, d', m) && sweep < mss < m
    ensures SignalOf(d, side, sweep, mss) == SignalOf(d', side, sweep, mss)
  {
    hide LastGap;
    LastGapAgrees(d, d', m, side, sweep, mss);
  }

  lemma SideStepAgrees(d: seq<Bar>, d': seq<Bar>, m: nat, side: Side, pool: Option<Pool>, i: nat)
    requires Agree(d, d', m) && i + 1 + SHIFT_WINDOW <= m
    ensures SideStep(d, side, pool, i) == SideStep(d', side, pool, i)
  {
    hide Structure, FirstBeyond, SignalOf;
    StructureAgrees(d, d', m, side, i);
    var end := i + 1 + SHIFT_WINDOW;
    FirstBeyondAgrees(d, d', m, side, Structure(d, side, i), i + 1, end);
    var mss := FirstBeyond(d, side, Structure(d, side, i), i + 1, end);
    if mss < end { SignalAgrees(d, d', m, side, i, mss); }
  }

  lemma {:induction false} RunAgrees(d: seq<Bar>, d': seq<Bar>, m: nat, n: nat)
    requires Agree(d, d', m) && (n == 0 || n + SHIFT_WINDOW <= m)
    ensures n <= |d| && n <= |d'| && Run(d, n) == Run(d', n)
  {
    hide SideStep, Refresh;
    if n > 0 {
      RunAgrees(d, d', m, n - 1);
      var st := Run(d, n - 1);
      RefreshAgrees(d, d', m, Short, st.highPool, n - 1);
      RefreshAgrees(d, d', m, Long, st.lowPool, n - 1);
      SideStepAgrees(d, d', m, Short, Refresh(d, Short, st.highPool, n - 1), n - 1);
      SideStepAgrees(d, d', m, Long, Refresh(d, Long, st.lowPool, n - 1), n - 1);
    }
  }

  /** The hits of a run whose sweep lies before bar n. */
  function Before(hits: seq<Hit>, n: int): seq<Hit> {
    if hits == [] then []
    else
      var init := Before(hits[..|hits| - 1], n);
      if hits[|hits| - 1].signal.sweep < n then init + [hits[|hits| - 1]] else init
  }

  lemma {:induction false} BeforeAppend(xs: seq<Hit>, ys: seq<Hit>, n: int)
    ensures Before(xs + ys, n) == Before(xs, n) + Before(ys, n)
  {
    if ys == [] {
      assert xs + ys == xs;
    } else {
      assert (xs + ys)[..|xs + ys| - 1] == xs + ys[..|ys| - 1];
      BeforeAppend(xs, ys[..|ys| - 1], n);
    }
  }

  lemma StepSweeps(bars: seq<Bar>, side: Side, pool: Option<Pool>, i: nat)
    requires i < |bars|
    ensures forall h :: h in SideStep(bars, side, pool, i).1 ==> h.signal.sweep == i
    ensures |SideStep(bars, side, pool, i).1| <= 1
  {
    hide FirstBeyond, LastGap, Structure;
  }

  lemma {:induction false} BeforeAllOrNone(hits: seq<Hit>, i: nat, n: int)
    requires forall h :: h in hits ==> h.signal.sweep == i
    ensures Before(hits, n) == if i < n then hits else []
  {
    if hits != [] {
      assert hits[|hits| - 1] in hits;
      BeforeAllOrNone(hits[..|hits| - 1], i, n);
    }
  }

  lemma {:induction false} RunSweeps(bars: seq<Bar>, n: nat)
    requires n <= |bars|
    ensures forall h :: h in Run(bars, n).hits ==> h.signal.sweep < n
  {
    hide SideStep, Refresh;
    if n > 0 {
      var st, i := Run(bars, n - 1), n - 1;
      RunSweeps(bars, n - 1);
      StepSweeps(bars, Short, Refresh(bars, Short, st.highPool, i), i);
      StepSweeps(bars, Long, Refresh(bars, Long, st.lowPool, i), i);
    }
  }

  lemma {:induction false} BeforeAll(hits: seq<Hit>, n: int)
    requires forall h :: h in hits ==> h.signal.sweep < n
    ensures Before(hits, n) == hits
  {
    if hits != [] {
      assert hits[|hits| - 1] in hits;
      BeforeAll(hits[..|hits| - 1], n);
    }
  }

  /** Later sweep candidates add only later hits. */
  lemma {:induction false} RunPrefix(bars: seq<Bar>, k: nat, n: nat)
    requires k <= n <= |bars|
    ensures Before(Run(bars, n).hits, k) == Run(bars, k).hits
    decreases n
  {
    hide SideStep, Refresh, Before;
    if k == n {
      RunSweeps(bars, n);
      BeforeAll(Run(bars, n).hits, n);
    } else {
      var st, i := Run(bars, n - 1), n - 1;
      var p, q := Refresh(bars, Short, st.highPool, i), Refresh(bars, Long, st.lowPool, i);
      var shorts, longs := SideStep(bars, Short, p, i).1, SideStep(bars, Long, q, i).1;
      StepSweeps(bars, Short, p, i);
      StepSweeps(bars, Long, q, i);
      BeforeAppend(st.hits + shorts, longs, k);
      BeforeAppend(st.hits, shorts, k);
      BeforeAllOrNone(shorts, i, k);
      BeforeAllOrNone(longs, i, k);
      RunPrefix(bars, k, n - 1);
    }
  }

  /** Look-ahead is bounded: on any two series that share their first m bars, the signals that sweep before bar m - 15
      are the same, although consumption threads state through the whole run. */
  lemma BoundedLookahead(d: seq<Bar>, d': seq<Bar>, m: nat)
    requires Agree(d, d', m)
    ensures Before(Run(d, |d|).hits, m as int - SHIFT_WINDOW) == Before(Run(d', |d'|).hits, m as int - SHIFT_WINDOW)
  {
    hide Run, Before;
    if m <= SHIFT_WINDOW {
      NoneBefore(d, |d|, m as int - SHIFT_WINDOW);
      NoneBefore(d', |d'|, m as int - SHIFT_WINDOW);
    } else {
      RunAgrees(d, d', m, m - SHIFT_WINDOW);
      RunPrefix(d, m - SHIFT_WINDOW, |d|);
      RunPrefix(d', m - SHIFT_WINDOW, |d'|);
    }
  }

  lemma NoneBefore(bars: seq<Bar>, n: nat, k: int)
    requires n <= |bars| && k <= 0
    ensures Before(Run(bars, n).hits, k) == []
  {
    NoNegative(Run(bars, n).hits, k);
  }

  lemma {:induction false} NoNegative(hits: seq<Hit>, k: int)
    requires k <= 0
    ensures Before(hits, k) == []
  {
    if hits != [] { NoNegative(hits[..|hits| - 1], k); }
  }

  // ---------- pool consumption ----------

  /** What a hit is: a sweep, strictly after the swing's confirming bar, of that swing's level, a shift that is the
      first close beyond the structure within fifteen bars, and a gap in between. */
  ghost predicate HitFits(bars: seq<Bar>, h: Hit) {
    var sig := h.signal;
    && IsFractal(bars, PoolEdge(sig.side), h.swing)
    && h.swing + WING < sig.sweep < sig.mss <= sig.sweep + SHIFT_WINDOW && sig.mss < |bars|
    && Sweeps(bars[sig.sweep], sig.side, PriceAt(bars[h.swing], PoolEdge(sig.side)))
    && Beyond(bars[sig.mss], sig.side, Structure(bars, sig.side, sig.sweep))
    && (forall j :: sig.sweep < j < sig.mss ==> !Beyond(bars[j], sig.side, Structure(bars, sig.side, sig.sweep)))
    && SignalOf(bars, sig.side, sig.sweep, sig.mss) == Some(sig)
  }

  ghost predicate PoolFits(bars: seq<Bar>, side: Side, pool: Option<Pool>, n: nat) {
    pool.Some? ==>
      && IsFractal(bars, PoolEdge(side), pool.value.swing)
      && pool.value.price == PriceAt(bars[pool.value.swing], PoolEdge(side))
      && pool.value.swing + WING < n
  }

  /** A swing level cannot be swept by its own confirming bar. */
  lemma SideStepFits(bars: seq<Bar>, side: Side, pool: Option<Pool>, i: nat)
    requires i < |bars| && PoolFits(bars, side, pool, i + 1)
    ensures PoolFits(bars, side, SideStep(bars, side, pool, i).0, i + 1)
    ensures forall h :: h in SideStep(bars, side, pool, i).1 ==>
              HitFits(bars, h) && h.signal.side == side && pool.Some? && h.swing == pool.value.swing
    ensures SideStep(bars, side, pool, i).1 != [] ==> SideStep(bars, side, pool, i).0.None?
    ensures SideStep(bars, side, pool, i).0.Some? ==> SideStep(bars, side, pool, i).0 == pool
  {
    hide LastGap, Structure, FirstBeyond;
  }

  /** Every swing used so far on this side lies before `bound`, and the uses are in increasing order. */
  ghost predicate SwingsIncrease(hits: seq<Hit>, side: Side, bound: int) {
    && (forall x :: 0 <= x < |hits| && hits[x].signal.side == side ==> hits[x].swing < bound)
    && (forall x, y :: 0 <= x < y < |hits| && hits[x].signal.side == side == hits[y].signal.side ==>
          hits[x].swing < hits[y].swing)
  }

  function Bound(pool: Option<Pool>, n: nat): int {
    if pool.Some? then pool.value.swing else n - WING
  }

  lemma {:induction false} RunFits(bars: seq<Bar>, n: nat)
    requires n <= |bars|
    ensures var st := Run(bars, n);
            && PoolFits(bars, Short, st.highPool, n) && PoolFits(bars, Long, st.lowPool, n)
            && (forall h :: h in st.hits ==> HitFits(bars, h))
            && SwingsIncrease(st.hits, Short, Bound(st.highPool, n))
            && SwingsIncrease(st.hits, Long, Bound(st.lowPool, n))
  {
    hide SideStep, HitFits, IsFractal;
    if n > 0 {
      RunFits(bars, n - 1);
      var st, i := Run(bars, n - 1), n - 1;
      var p, q := Refresh(bars, Short, st.highPool, i), Refresh(bars, Long, st.lowPool, i);
      SideStepFits(bars, Short, p, i);
      SideStepFits(bars, Long, q, i);
      StepSweeps(bars, Short, p, i);
      StepSweeps(bars, Long, q, i);
      var shorts, longs := SideStep(bars, Short, p, i).1, SideStep(bars, Long, q, i).1;
      SwingsExtend(st.hits, shorts, longs, Short, Bound(p, i), Bound(Run(bars, n).highPool, n));
      SwingsExtend(st.hits, shorts, longs, Long, Bound(q, i), Bound(Run(bars, n).lowPool, n));
    }
  }

  lemma SwingsExtend(hits: seq<Hit>, shorts: seq<Hit>, longs: seq<Hit>, side: Side, bound: int, bound': int)
    requires SwingsIncrease(hits, side, bound) && bound <= bound'
    requires |shorts| <= 1 && |longs| <= 1
    requires (forall h :: h in shorts ==> h.signal.side == Short) && (forall h :: h in longs ==> h.signal.side == Long)
    requires forall h :: h in (if side == Short then shorts else longs) ==> bound <= h.swing < bound'
    ensures SwingsIncrease(hits + shorts + longs, side, bound')
  {
    var all := hits + shorts + longs;
    forall x | 0 <= x < |all| ensures if x < |hits| then all[x] == hits[x] else
                                        all[x] in shorts || all[x] in longs {
    }
  }

  /** Each confirmed swing yields at most one signal on its side, and every signal is as HitFits says. */
  lemma PoolConsumption(bars: seq<Bar>)
    ensures var hits := Run(bars, |bars|).hits;
            && (forall h :: h in hits ==> HitFits(bars, h))
            && (forall x, y :: 0 <= x < y < |hits| && hits[x].signal.side == hits[y].signal.side ==>
                  hits[x].swing < hits[y].swing)
  {
    hide HitFits, Run;
    RunFits(bars, |bars|);
  }

  /** On well-formed bars the guard on the leg's range never rejects a sweep whose shift was found. */
  lemma LegRangePositive(bars: seq<Bar>, side: Side, sweep: nat, mss: nat)
    requires forall k :: 0 <= k < |bars| ==> bars[k].low <= bars[k].close <= bars[k].high
    requires sweep < mss < |bars| && Beyond(bars[mss], side, Structure(bars, side, sweep))
    ensures side == Short ==> bars[sweep].high - bars[mss].low > 0.0
    ensures side == Long ==> bars[mss].high - bars[sweep].low > 0.0
  {
    var e := PoolEdge(if side == Short then Long else Short);
    var lo := Max(0, sweep - STRUCTURE_LOOKBACK);
    var xs := Prices(bars[lo..sweep + 1], e);
    assert xs[sweep - lo] == PriceAt(bars[sweep], e);
  }
}
