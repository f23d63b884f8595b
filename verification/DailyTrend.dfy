/** The daily trend filter: the batch look-up over the whole history, the streaming gate, and what a restart keeps. */
module DailyTrend {
  import opened Market
  import opened FvgModel
  import opened Causality
  import opened BatchModel
  import opened Detectors
  import opened Journal

  // A day is a Bar whose high and low span the whole calendar day.

  /** Higher high and higher low, lower high and lower low, or neither. */
  function TrendOf(h1: real, h2: real, l1: real, l2: real): Option<Side> {
    if h2 > h1 && l2 > l1 then Some(Long)
    else if h2 < h1 && l2 < l1 then Some(Short)
    else None
  }

  /** The pivot before the latest one, or -1. */
  function PreviousPivot(days: seq<Bar>, e: Edge, bound: int): int {
    LatestPivot(days, e, LatestPivot(days, e, bound))
  }

  /** The trend of day `cutoff`, from the last two daily pivots of each kind confirmed before it. */
  function TrendAt(days: seq<Bar>, cutoff: int): Option<Side> {
    var bound := cutoff - SWING_N;
    var h2, h1 := LatestPivot(days, Top, bound), PreviousPivot(days, Top, bound);
    var l2, l1 := LatestPivot(days, Bottom, bound), PreviousPivot(days, Bottom, bound);
    if h1 < 0 || l1 < 0 then None
    else TrendOf(days[h1].high, days[h2].high, days[l1].low, days[l2].low)
  }

  // ---------- batch ----------

  /** The indices of `piv` confirmed before `cutoff`. */
  function ConfirmedBefore(piv: seq<nat>, cutoff: int): seq<nat> {
    if piv == [] then []
    else
      var rest := ConfirmedBefore(piv[..|piv| - 1], cutoff);
      var k := piv[|piv| - 1];
      if k + SWING_N < cutoff then rest + [k] else rest
  }

  lemma {:induction false} ConfirmedIsPrefix(piv: seq<nat>, cutoff: int)
    requires forall x, y :: 0 <= x < y < |piv| ==> piv[x] < piv[y]
    ensures ConfirmedBefore(piv, cutoff) == piv[..BisectLeft(piv, cutoff - SWING_N)]
  {
    hide BisectLeft;
    if piv != [] {
      var init := piv[..|piv| - 1];
      ConfirmedIsPrefix(init, cutoff);
      BisectSnoc(init, piv[|piv| - 1], cutoff - SWING_N);
      assert piv == init + [piv[|piv| - 1]];
    }
  }

  lemma BisectSnoc(init: seq<nat>, k: nat, x: int)
    requires forall a, b :: 0 <= a < b < |init + [k]| ==> (init + [k])[a] < (init + [k])[b]
    ensures forall a, b :: 0 <= a < b < |init| ==> init[a] < init[b]
    ensures (init + [k])[..BisectLeft(init + [k], x)] == init[..BisectLeft(init, x)] + if k < x then [k] else []
  {
    hide BisectLeft;
    var piv := init + [k];
    assert forall a :: 0 <= a < |init| ==> init[a] == piv[a];
    if k < x {
      BisectIs(piv, x, |piv|);
      BisectIs(init, x, |init|);
    } else {
      BisectIs(piv, x, BisectLeft(init, x));
    }
  }

  lemma BisectIs(piv: seq<nat>, x: int, p: nat)
    requires forall a, b :: 0 <= a < b < |piv| ==> piv[a] < piv[b]
    requires p <= |piv| && (p > 0 ==> piv[p - 1] < x) && (p < |piv| ==> x <= piv[p])
    ensures BisectLeft(piv, x) == p
  {
    hide BisectLeft;
    var q := BisectLeft(piv, x);
    var below, above := if q < |piv| then piv[q] else 0, if q > 0 then piv[q - 1] else 0;
  }

  /** The batch model's look-up: precomputed pivots of the whole history, filtered by confirmation day. */
  method DailyTrendAsOf(days: seq<Bar>, cutoff: nat) returns (trend: Option<Side>)
    requires cutoff <= |days|
    ensures trend == TrendAt(days, cutoff)
  {
    hide IsPivot;
    var highs, lows, log := FindPivots(days);
    var ch, cl := ConfirmedBefore(highs, cutoff), ConfirmedBefore(lows, cutoff);
    LastTwo(days, Top, highs, cutoff);
    LastTwo(days, Bottom, lows, cutoff);
    if |ch| < 2 || |cl| < 2 {
      return None;
    }
    return TrendOf(days[ch[|ch| - 2]].high, days[ch[|ch| - 1]].high, days[cl[|cl| - 2]].low, days[cl[|cl| - 1]].low);
  }

  /** The last two entries of the filtered list are the last two pivots before the bound. */
  lemma LastTwo(days: seq<Bar>, e: Edge, piv: seq<nat>, cutoff: int)
    requires PivotList(days, e, piv, |days|)
    ensures var c := ConfirmedBefore(piv, cutoff);
            var bound := cutoff - SWING_N;
            && LatestPivot(days, e, bound) == (if |c| == 0 then -1 else c[|c| - 1])
            && PreviousPivot(days, e, bound) == (if |c| < 2 then -1 else c[|c| - 2])
            && forall k :: k in c ==> k < |days|
  {
    hide IsPivot, BisectLeft, ConfirmedBefore, LatestPivot;
    ConfirmedIsPrefix(piv, cutoff);
    BisectIsLatest(days, e, piv, cutoff - SWING_N);
    var p := BisectLeft(piv, cutoff - SWING_N);
    if p > 0 {
      BisectIsLatest(days, e, piv, piv[p - 1]);
      BisectIs(piv, piv[p - 1], p - 1);
    }
  }

  // ---------- streaming ----------

  /** All pivots of one kind whose confirmation lies within the first n days, with their prices. */
  function Confirmations(days: seq<Bar>, e: Edge, n: nat): (r: seq<(nat, real)>)
    requires n <= |days|
    ensures forall x :: 0 <= x < |r| ==> r[x].0 + SWING_N < n
    decreases n
  {
    if n == 0 then []
    else
      var rest := Confirmations(days, e, n - 1);
      var k := n - 1 - SWING_N;
      if IsPivot(days, e, k) then rest + [(k, PriceAt(days[k], e))] else rest
  }

  lemma {:induction false} ConfirmationsCausal(d: seq<Bar>, d': seq<Bar>, n: nat, e: Edge)
    requires Agree(d, d', n)
    ensures Confirmations(d, e, n) == Confirmations(d', e, n)
  {
    if n > 0 { ConfirmationsCausal(d, d', n - 1, e); }
  }

  /** The last two confirmations are the model's last two pivots. */
  lemma {:induction false} LastConfirmations(days: seq<Bar>, e: Edge, n: nat)
    requires n <= |days|
    ensures var bound := n - SWING_N;
            EndsWith(Confirmations(days, e, n), days, e, LatestPivot(days, e, bound), PreviousPivot(days, e, bound))
  {
    hide IsPivot, LatestPivot, PreviousPivot, EndsWith;
    PivotStep(days, e, n - SWING_N);
    NothingYet(days, e);
    if n > 0 {
      LastConfirmations(days, e, n - 1);
      var k := n - 1 - SWING_N;
      if k < 0 {
        NotPivotEarly(days, e, k);
        PivotStep(days, e, k);
      } else if IsPivot(days, e, k) {
        var latest, previous := LatestPivot(days, e, k), PreviousPivot(days, e, k);
        OneMore(Confirmations(days, e, n - 1), days, e, latest, previous, k);
      }
    }
  }

  /** The last two entries, if there are that many, are those of the days k1 < k2; -1 stands for a missing one. */
  predicate EndsWith(c: seq<(nat, real)>, days: seq<Bar>, e: Edge, k2: int, k1: int) {
    && k2 < |days| && k1 < |days| && (k2 >= 0 <==> |c| >= 1) && (k1 >= 0 <==> |c| >= 2)
    && (k2 >= 0 ==> c[|c| - 1] == (k2, PriceAt(days[k2], e)))
    && (k1 >= 0 ==> c[|c| - 2] == (k1, PriceAt(days[k1], e)))
  }

  lemma NothingYet(days: seq<Bar>, e: Edge)
    ensures EndsWith([], days, e, -1, -1)
  {
  }

  lemma OneMore(c: seq<(nat, real)>, days: seq<Bar>, e: Edge, k2: int, k1: int, k: nat)
    requires EndsWith(c, days, e, k2, k1) && k < |days|
    ensures EndsWith(c + [(k, PriceAt(days[k], e))], days, e, k, k2)
  {
  }

  lemma PivotStep(days: seq<Bar>, e: Edge, bound: int)
    ensures LatestPivot(days, e, bound) ==
            if bound <= 0 then -1
            else if IsPivot(days, e, bound - 1) then bound - 1
            else LatestPivot(days, e, bound - 1)
    ensures PreviousPivot(days, e, bound) ==
            if bound <= 0 then -1
            else if IsPivot(days, e, bound - 1) then LatestPivot(days, e, bound - 1)
            else PreviousPivot(days, e, bound - 1)
  {
    hide IsPivot;
  }

  /** The gate's rule: last two confirmed prices of each kind. */
  function TrendFrom(highs: seq<(nat, real)>, lows: seq<(nat, real)>): Option<Side> {
    if |highs| < 2 || |lows| < 2 then None
    else TrendOf(highs[|highs| - 2].1, highs[|highs| - 1].1, lows[|lows| - 2].1, lows[|lows| - 1].1)
  }

  lemma TrendFromIsTrendAt(days: seq<Bar>, n: nat)
    requires n <= |days|
    ensures TrendFrom(Confirmations(days, Top, n), Confirmations(days, Bottom, n)) == TrendAt(days, n)
  {
    hide IsPivot, Confirmations;
    LastConfirmations(days, Top, n);
    LastConfirmations(days, Bottom, n);
  }

  class DailySwingDetector {
    var window: seq<Tick>
    var dayIndex: int

    ghost predicate Tracks(days: seq<Bar>)
      reads this
    {
      dayIndex == |days| - 1 && IsWindow(window, days, 2 * SWING_N + 1)
    }

    constructor ()
      ensures Tracks([])
    {
      window, dayIndex := [], -1;
    }

    method OnNewDay(day: Bar, ghost days: seq<Bar>) returns (events: seq<Event>)
      requires Tracks(days)
      modifies this
      ensures Tracks(days + [day])
      ensures events == SwingEvents(days + [day], |days|)
    {
      hide IsPivot, Extremum;
      ghost var days' := days + [day];
      PushWindow(window, days, day, 2 * SWING_N + 1);
      dayIndex := dayIndex + 1;
      window := Push(window, Tick(dayIndex, day.time, day.high, day.low), 2 * SWING_N + 1);
      events := [];
      if |window| < 2 * SWING_N + 1 {
        NotPivotEarly(days', Top, |days| - 2);
        NotPivotEarly(days', Bottom, |days| - 2);
        return;
      }
      var candidate := window[SWING_N];
      WindowShowsPivot(window, days');
      if candidate.high == Extremum(Top, Highs(window)) {
        events := events + [SwingHigh(candidate.time, candidate.high, candidate.idx)];
      }
      if candidate.low == Extremum(Bottom, Lows(window)) {
        events := events + [SwingLow(candidate.time, candidate.low, candidate.idx)];
      }
    }
  }

  class DaySelectionGate {
    const detector: DailySwingDetector
    var confirmedHighs: seq<(nat, real)>
    var confirmedLows: seq<(nat, real)>

    /** `days` were closed since the last (re)start, on top of the seeded swings. */
    ghost predicate Tracks(days: seq<Bar>, seedHighs: seq<(nat, real)>, seedLows: seq<(nat, real)>)
      reads this, detector
    {
      && detector.Tracks(days)
      && confirmedHighs == seedHighs + Confirmations(days, Top, |days|)
      && confirmedLows == seedLows + Confirmations(days, Bottom, |days|)
    }

    constructor ()
      ensures Tracks([], [], []) && fresh(detector)
    {
      detector := new DailySwingDetector();
      confirmedHighs, confirmedLows := [], [];
    }

    method SeedTrendHistory(highs: seq<(nat, real)>, lows: seq<(nat, real)>)
      requires Tracks([], [], [])
      modifies this
      ensures Tracks([], highs, lows)
    {
      confirmedHighs, confirmedLows := highs, lows;
    }

    method OnDayClosed(day: Bar, ghost days: seq<Bar>, ghost sh: seq<(nat, real)>, ghost sl: seq<(nat, real)>)
      returns (events: seq<Event>)
      requires Tracks(days, sh, sl)
      modifies this, detector
      ensures Tracks(days + [day], sh, sl)
      ensures events == SwingEvents(days + [day], |days|)
    {
      hide IsPivot;
      ghost var days' := days + [day];
      events := detector.OnNewDay(day, days);
      ConfirmationsCausal(days, days', |days|, Top);
      ConfirmationsCausal(days, days', |days|, Bottom);
      ghost var k := |days| - 2;
      if k < 0 { NotPivotEarly(days', Top, k); NotPivotEarly(days', Bottom, k); }
      var m := 0;
      while m < |events|
        invariant 0 <= m <= |events| && detector.Tracks(days')
        invariant confirmedHighs == old(confirmedHighs) +
                  if IsPivot(days', Top, k) && m >= 1 then [(k, days'[k].high)] else []
        invariant confirmedLows == old(confirmedLows) +
                  if IsPivot(days', Bottom, k) && m == |events| then [(k, days'[k].low)] else []
        invariant |events| == 0 ==> !IsPivot(days', Top, k) && !IsPivot(days', Bottom, k)
      {
        match events[m] {
          case SwingHigh(_, price, i) => confirmedHighs := confirmedHighs + [(i, price)];
          case SwingLow(_, price, i) => confirmedLows := confirmedLows + [(i, price)];
          case _ =>
        }
        m := m + 1;
      }
      ConfirmationsStep(days', Top, sh);
      ConfirmationsStep(days', Bottom, sl);
    }

    lemma ConfirmationsStep(days: seq<Bar>, e: Edge, seed: seq<(nat, real)>)
      requires days != []
      ensures var k := |days| - 1 - SWING_N;
              var rest := seed + Confirmations(days, e, |days| - 1);
              seed + Confirmations(days, e, |days|) ==
              if IsPivot(days, e, k) then rest + [(k, PriceAt(days[k], e))] else rest
    {
    }

    function TrendForToday(): Option<Side>
      reads this
    {
      TrendFrom(confirmedHighs, confirmedLows)
    }

    /** Fed the first c days of any history, the gate's trend is the batch model's for day c, whatever comes later. */
    lemma GateMatchesBatch(history: seq<Bar>, c: nat)
      requires c <= |history| && Tracks(history[..c], [], [])
      ensures TrendForToday() == TrendAt(history, c)
    {
      var days := history[..c];
      TrendFromIsTrendAt(days, c);
      TrendCausal(days, history, c);
      assert [] + Confirmations(days, Top, c) == Confirmations(days, Top, c);
      assert [] + Confirmations(days, Bottom, c) == Confirmations(days, Bottom, c);
    }
  }

  lemma TrendCausal(d: seq<Bar>, d': seq<Bar>, n: nat)
    requires Agree(d, d', n)
    ensures TrendAt(d, n) == TrendAt(d', n)
  {
    PivotCausal(d, d', n, Top, n - SWING_N);
    PivotCausal(d, d', n, Bottom, n - SWING_N);
    var h, l := LatestPivot(d, Top, n - SWING_N), LatestPivot(d, Bottom, n - SWING_N);
    if h >= 0 { PivotCausal(d, d', n, Top, h); }
    if l >= 0 { PivotCausal(d, d', n, Bottom, l); }
  }

  // ---------- restart ----------

  /** The last two entries, as recovered from the journal. */
  function TailTwo<T>(xs: seq<T>): seq<T> {
    if |xs| <= 2 then xs else xs[|xs| - 2..]
  }

  /** Seeding just the last two swings of each kind keeps every later trend decision. */
  lemma SeedSuffices(highs: seq<(nat, real)>, lows: seq<(nat, real)>, moreHighs: seq<(nat, real)>,
      moreLows: seq<(nat, real)>)
    ensures TrendFrom(TailTwo(highs) + moreHighs, TailTwo(lows) + moreLows) ==
            TrendFrom(highs + moreHighs, lows + moreLows)
  {
  }

  /** The confirmations of days c.., renumbered to the full history. */
  function Shifted(xs: seq<(nat, real)>, c: nat): (r: seq<(nat, real)>)
    ensures |r| == |xs| && forall k :: 0 <= k < |xs| ==> r[k] == (xs[k].0 + c, xs[k].1)
  {
    seq(|xs|, k requires 0 <= k < |xs| => (xs[k].0 + c, xs[k].1))
  }

  /** A detector restarted before day c confirms exactly the pivots whose whole five-day window lies at c or later. */
  lemma {:induction false} RestartConfirms(history: seq<Bar>, c: nat, n: nat, e: Edge, k: nat)
    requires c + n <= |history| && c <= k && k < |history|
    ensures (k, PriceAt(history[k], e)) in Shifted(Confirmations(history[c..], e, n), c) <==>
            IsPivot(history, e, k) && c + SWING_N <= k && k + SWING_N < c + n
  {
    hide IsPivot;
    var suffix := history[c..];
    PivotShift(history, c, e, k);
    if n > 0 {
      RestartConfirms(history, c, n - 1, e, k);
      ShiftedStep(history, c, n, e);
      PivotShift(history, c, e, c + n - 1 - SWING_N);
    }
  }

  lemma PivotShift(history: seq<Bar>, c: nat, e: Edge, k: int)
    requires c <= |history|
    ensures IsPivot(history[c..], e, k - c) <==> IsPivot(history, e, k) && c + SWING_N <= k
  {
  }

  lemma ShiftedStep(history: seq<Bar>, c: nat, n: nat, e: Edge)
    requires c + n <= |history| && n > 0
    ensures var suffix := history[c..];
            var k := c + n - 1 - SWING_N;
            Shifted(Confirmations(suffix, e, n), c) ==
            Shifted(Confirmations(suffix, e, n - 1), c) +
            if IsPivot(suffix, e, k - c) then [(k, PriceAt(history[k], e))] else []
  {
  }

  /** No day within two days of the restart is a pivot confirmed before day n. */
  ghost predicate NoneAround(history: seq<Bar>, e: Edge, c: int, n: int) {
    forall k :: c - SWING_N <= k < c + SWING_N && k + SWING_N < n ==> !IsPivot(history, e, k)
  }

  lemma AroundStep(history: seq<Bar>, e: Edge, c: int, n: nat)
    ensures n == 0 ==> NoneAround(history, e, c, c)
    ensures n > 0 ==>
      (NoneAround(history, e, c, c + n) <==>
       NoneAround(history, e, c, c + n - 1) && !(n - 1 < 2 * SWING_N && IsPivot(history, e, c + n - 1 - SWING_N)))
  {
    hide IsPivot;
  }

  /** Up to the restart's warm-up the seeded gate agrees with an uninterrupted one exactly as long as no pivot straddles
      the restart: the confirmed lists coincide if and only if none of the four days around it is a pivot. */
  lemma {:induction false} RestartAgrees(history: seq<Bar>, c: nat, n: nat, e: Edge)
    requires c + n <= |history|
    ensures Confirmations(history, e, c) + Shifted(Confirmations(history[c..], e, n), c) ==
            Confirmations(history, e, c + n) <==>
            NoneAround(history, e, c, c + n)
    ensures |Confirmations(history, e, c) + Shifted(Confirmations(history[c..], e, n), c)|
            <= |Confirmations(history, e, c + n)|
    decreases n
  {
    hide IsPivot, NoneAround;
    AroundStep(history, e, c, n);
    var before, suffix := Confirmations(history, e, c), history[c..];
    if n > 0 {
      RestartAgrees(history, c, n - 1, e);
      var k := c + n - 1 - SWING_N;
      hide LatestPivot, Shifted, Confirmations;
      var merged, full := before + Shifted(Confirmations(suffix, e, n - 1), c), Confirmations(history, e, c + n - 1);
      var merged', full' := before + Shifted(Confirmations(suffix, e, n), c), Confirmations(history, e, c + n);
      PivotShift(history, c, e, k);
      ShiftedStep(history, c, n, e);
      if !IsPivot(history, e, k) {
        assert merged' == merged && full' == full;
      } else if c + SWING_N <= k {
        var x: (nat, real) := (k, PriceAt(history[k], e));
        assert merged' == merged + [x] && full' == full + [x];
        assert merged == merged'[..|merged|] && full == full'[..|full|];
      } else {
        assert merged' == merged && |full'| == |full| + 1;
      }
    } else {
      assert before + Shifted(Confirmations(suffix, e, 0), c) == before;
    }
  }

  /** Only the prices of the confirmed swings matter. */
  lemma TrendFromPrices(highs: seq<(nat, real)>, lows: seq<(nat, real)>, c: nat, moreHighs: seq<(nat, real)>,
      moreLows: seq<(nat, real)>)
    ensures TrendFrom(highs + moreHighs, lows + moreLows) ==
            TrendFrom(highs + Shifted(moreHighs, c), lows + Shifted(moreLows, c))
  {
  }

  // ---------- the trend of a seeded gate ----------

  /** The confirmed swings a gate starts with. */
  datatype Seeds = Seeds(highs: seq<(nat, real)>, lows: seq<(nat, real)>)

  const NO_SEEDS: Seeds := Seeds([], [])

  /** The trend of a gate that started with these seeds and saw the first n days. */
  function SeededTrend(seeds: Seeds, days: seq<Bar>, n: nat): Option<Side>
    requires n <= |days|
  {
    TrendFrom(seeds.highs + Confirmations(days, Top, n), seeds.lows + Confirmations(days, Bottom, n))
  }

  lemma GateIsSeeded(gate: DaySelectionGate, seeds: Seeds, days: seq<Bar>)
    requires gate.Tracks(days, seeds.highs, seeds.lows)
    ensures gate.TrendForToday() == SeededTrend(seeds, days, |days|)
  {
  }

  lemma SeededCausal(seeds: Seeds, d: seq<Bar>, d': seq<Bar>, n: nat)
    requires Agree(d, d', n)
    ensures SeededTrend(seeds, d, n) == SeededTrend(seeds, d', n)
  {
    ConfirmationsCausal(d, d', n, Top);
    ConfirmationsCausal(d, d', n, Bottom);
  }

  /** Without seeds it is the batch model's trend. */
  lemma UnseededIsTrendAt(days: seq<Bar>, n: nat)
    requires n <= |days|
    ensures SeededTrend(NO_SEEDS, days, n) == TrendAt(days, n)
  {
    hide TrendFrom, TrendAt, Confirmations;
    TrendFromIsTrendAt(days, n);
    assert [] + Confirmations(days, Top, n) == Confirmations(days, Top, n);
    assert [] + Confirmations(days, Bottom, n) == Confirmations(days, Bottom, n);
  }

  /** The seeds a restart before day c recovers: the last two confirmed swings of each kind. */
  function RecoveredSeeds(history: seq<Bar>, c: nat): Seeds
    requires c <= |history|
  {
    Seeds(TailTwo(Confirmations(history, Top, c)), TailTwo(Confirmations(history, Bottom, c)))
  }

  /** Restarted before day c and fed the next n days, the trend is the batch model's for day c + n if none of the four
      days around the restart is a pivot. */
  lemma RestartedTrendAgrees(history: seq<Bar>, c: nat, n: nat)
    requires c + n <= |history| && NoneAround(history, Top, c, c + n) && NoneAround(history, Bottom, c, c + n)
    ensures SeededTrend(RecoveredSeeds(history, c), history[c..c + n], n) == TrendAt(history, c + n)
  {
    hide NoneAround, TrendFrom, TailTwo, TrendAt, Confirmations, Shifted;
    var highs, lows := Confirmations(history, Top, c), Confirmations(history, Bottom, c);
    var fed, rest := history[c..c + n], history[c..];
    ConfirmationsCausal(fed, rest, n, Top);
    ConfirmationsCausal(fed, rest, n, Bottom);
    var moreHighs, moreLows := Confirmations(rest, Top, n), Confirmations(rest, Bottom, n);
    SeedSuffices(highs, lows, moreHighs, moreLows);
    TrendFromPrices(highs, lows, c, moreHighs, moreLows);
    RestartAgrees(history, c, n, Top);
    RestartAgrees(history, c, n, Bottom);
    TrendFromIsTrendAt(history, c + n);
  }

  /** So is that of the gate itself. */
  lemma RestartedGateAgrees(gate: DaySelectionGate, history: seq<Bar>, c: nat, n: nat)
    requires c + n <= |history| && NoneAround(history, Top, c, c + n) && NoneAround(history, Bottom, c, c + n)
    requires gate.Tracks(history[c..c + n], RecoveredSeeds(history, c).highs, RecoveredSeeds(history, c).lows)
    ensures gate.TrendForToday() == TrendAt(history, c + n)
  {
    hide NoneAround, SeededTrend, TrendAt, DaySelectionGate.Tracks, DaySelectionGate.TrendForToday;
    RestartedTrendAgrees(history, c, n);
    GateIsSeeded(gate, RecoveredSeeds(history, c), history[c..c + n]);
  }

  /** For its first four days the restarted trend is frozen at that of the day of the restart, so it is the batch
      model's for day c + n exactly when that has not changed meanwhile. */
  lemma WarmUp(history: seq<Bar>, c: nat, n: nat)
    requires c + n <= |history| && n <= 2 * SWING_N
    ensures SeededTrend(RecoveredSeeds(history, c), history[c..c + n], n) == TrendAt(history, c)
  {
    hide TrendFrom, TailTwo, TrendAt, Confirmations;
    var highs, lows := Confirmations(history, Top, c), Confirmations(history, Bottom, c);
    NoneYet(history[c..c + n], Top, n);
    NoneYet(history[c..c + n], Bottom, n);
    SeedSuffices(highs, lows, [], []);
    assert highs + [] == highs && lows + [] == lows;
    TrendFromIsTrendAt(history, c);
  }

  lemma {:induction false} NoneYet(days: seq<Bar>, e: Edge, n: nat)
    requires n <= |days| && n <= 2 * SWING_N
    ensures Confirmations(days, e, n) == []
  {
    if n > 0 {
      NoneYet(days, e, n - 1);
      NotPivotEarly(days, e, n - 1 - SWING_N);
    }
  }

  /** Eleven days of which 2, 5 and 8 are swings both ways: first higher, then lower. */
  function TurningHistory(): (r: seq<Bar>)
    ensures |r| == 11
  {
    var flat := Bar(0, 10.0, 9.0, 9.5);
    [flat, flat, Bar(0, 12.0, 7.0, 9.5), flat, flat, Bar(0, 14.0, 8.0, 9.5), flat, flat, Bar(0, 13.0, 7.5, 9.5),
     flat, flat]
  }

  lemma TurningSwings(e: Edge)
    ensures LatestPivot(TurningHistory(), e, 9) == 8 && LatestPivot(TurningHistory(), e, 8) == 5
    ensures LatestPivot(TurningHistory(), e, 6) == 5 && LatestPivot(TurningHistory(), e, 5) == 2
  {
    hide LatestPivot;
    var h := TurningHistory();
    assert IsPivot(h, e, 8) && IsPivot(h, e, 5) && IsPivot(h, e, 2);
    assert !IsPivot(h, e, 7) && !IsPivot(h, e, 6) && !IsPivot(h, e, 4) && !IsPivot(h, e, 3);
  }

  lemma TurningTrends()
    ensures TrendAt(TurningHistory(), 8) == Some(Long) && TrendAt(TurningHistory(), 11) == Some(Short)
  {
    hide LatestPivot;
    TurningSwings(Top);
    TurningSwings(Bottom);
  }

  /** Such a change: a gate restarted before day 8, the day of a swing, still says long after day 10 when the batch
      model has turned short. */
  method RestartedGateDiffers() returns (gate: DaySelectionGate)
    ensures fresh(gate) && gate.TrendForToday() == Some(Long)
    ensures gate.Tracks(TurningHistory()[8..11], RecoveredSeeds(TurningHistory(), 8).highs,
                        RecoveredSeeds(TurningHistory(), 8).lows)
    ensures TrendAt(TurningHistory(), 11) == Some(Short)
  {
    hide DaySelectionGate.Tracks, DaySelectionGate.TrendForToday, TurningHistory, TrendAt, SeededTrend, RecoveredSeeds;
    var h := TurningHistory();
    var seeds := RecoveredSeeds(h, 8);
    gate := new DaySelectionGate();
    gate.SeedTrendHistory(seeds.highs, seeds.lows);
    assert h[8..8] == [] && h[8..8] + [h[8]] == h[8..9];
    assert h[8..9] + [h[9]] == h[8..10] && h[8..10] + [h[10]] == h[8..11];
    var events := gate.OnDayClosed(h[8], h[8..8], seeds.highs, seeds.lows);
    events := gate.OnDayClosed(h[9], h[8..9], seeds.highs, seeds.lows);
    events := gate.OnDayClosed(h[10], h[8..10], seeds.highs, seeds.lows);
    GateIsSeeded(gate, seeds, h[8..11]);
    WarmUp(h, 8, 3);
    TurningTrends();
  }
}
