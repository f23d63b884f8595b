/** The streaming journal in bars and prices: which events it holds, and what each of them says. */
module PlainJournal {
  import opened Market
  import opened FvgModel
  import opened Journal
  import opened LogInclusion
  import opened TradeStory
  import opened PlainDay

  // ---------- in plain terms ----------

  /** Bar i sweeps the latest swing against the trend: h and l are the latest swing high and low before it. */
  ghost predicate Swept(day: seq<Bar>, s: Session, i: nat, h: nat, l: nat) {
    && s.start <= i < s.end && i < |day| && LatestHigh(day, h, i) && LatestLow(day, l, i)
    && if s.side == Long then day[i].low < day[l].low else day[i].high > day[h].high
  }

  /** Bar j closes beyond the opposite swing, one to nine bars later. */
  ghost predicate Shifted(day: seq<Bar>, s: Session, i: nat, h: nat, l: nat, j: nat) {
    && Swept(day, s, i, h, l) && i < j <= i + 9 && j < |day|
    && if s.side == Long then day[j].close > day[h].high else day[j].close < day[l].low
  }

  /** The price of the latest swing on the side of the trend. */
  ghost function Opposite(day: seq<Bar>, s: Session, h: nat, l: nat): real
    requires h < |day| && l < |day|
  {
    if s.side == Long then day[h].high else day[l].low
  }

  /** The gap from bar j - 2 to bar j: its top and its bottom. */
  ghost predicate Gapped(day: seq<Bar>, s: Session, j: nat, top: real, bottom: real) {
    && 2 <= j < |day| && bottom < top
    && if s.side == Long then bottom == day[j - 2].high && top == day[j].low
       else bottom == day[j].high && top == day[j - 2].low
  }

  /** The stop of the gap at bar j: the far end of its first bar. */
  ghost function StopAt(day: seq<Bar>, s: Session, j: nat): real
    requires 2 <= j < |day|
  {
    if s.side == Long then day[j - 2].low else day[j - 2].high
  }

  /** The distance from entry to stop in pips. */
  ghost function RiskOf(s: Session, entry: real, stop: real): real {
    if s.side == Long then (entry - stop) / 0.0001 else (stop - entry) / 0.0001
  }

  /** Some search of the day fills at bar p, with this trade at the day's end. */
  ghost predicate FilledAt(day: seq<Bar>, s: Session, p: nat, t: Trade) {
    exists i: nat, j: nat, x: nat :: SearchFills(day, s, i, j, p, x, t)
  }

  ghost predicate SearchFills(day: seq<Bar>, s: Session, i: nat, j: nat, p: nat, x: nat, t: Trade) {
    if s.side == Long then LongPair(day, s.start, s.end, i, j) && LongTrade(day, j, p, x, t)
    else ShortPair(day, s.start, s.end, i, j) && ShortTrade(day, j, p, x, t)
  }

  /** Bar q is the one at which such a trade ends within the day. */
  ghost predicate EndsAt(day: seq<Bar>, s: Session, p: nat, t: Trade, q: nat) {
    && t.outcome != Scratch && q < |day|
    && if s.side == Long then
         LongQuiet(day, p, q, t) && (day[q].low <= t.stop || day[q].high >= t.target)
       else
         ShortQuiet(day, p, q, t) && (day[q].high >= t.stop || day[q].low <= t.target)
  }

  /** What an event of the journal says about the day. */
  ghost predicate Says(day: seq<Bar>, s: Session, e: Event) {
    match e
    case SwingHigh(time, price, k) => High(day, k) && time == day[k].time && price == day[k].high
    case SwingLow(time, price, k) => Low(day, k) && time == day[k].time && price == day[k].low
    case Raid(time, side, level, extreme, i, reference) =>
      side == s.side && exists h: nat, l: nat ::
        && Swept(day, s, i, h, l) && time == day[i].time && reference == Some(Opposite(day, s, h, l))
        && (if s.side == Long then level == day[l].low && extreme == day[i].low
            else level == day[h].high && extreme == day[i].high)
    case Mss(time, side, level, close, i, j) =>
      side == s.side && exists h: nat, l: nat ::
        && Shifted(day, s, i, h, l, j) && time == day[j].time && level == Opposite(day, s, h, l)
        && close == day[j].close
    case FvgFound(time, side, top, bottom, frame, j) =>
      && side == s.side && Gapped(day, s, j, top, bottom) && time == day[j].time && frame == j - 2
      && exists i: nat, h: nat, l: nat :: Shifted(day, s, i, h, l, j)
    case MinStopRejected(time, side, riskPips) =>
      side == s.side && riskPips < 5.0 && exists j: nat, top, bottom ::
        && Gapped(day, s, j, top, bottom) && time == day[j].time
        && riskPips == RiskOf(s, (top + bottom) / 2.0, StopAt(day, s, j))
        && exists i: nat, h: nat, l: nat :: Shifted(day, s, i, h, l, j)
    case CandidateReady(time, side, entry, stop, i, j) =>
      && side == s.side && (exists h: nat, l: nat :: Shifted(day, s, i, h, l, j))
      && exists top, bottom ::
           && Gapped(day, s, j, top, bottom) && time == day[j].time && entry == (top + bottom) / 2.0
           && stop == StopAt(day, s, j) && RiskOf(s, entry, stop) >= 5.0
    case OrderFilled(time, side, entry, stop, target, p) =>
      side == s.side && exists t ::
        FilledAt(day, s, p, t) && p < |day| && time == day[p].time && t.entry == entry && t.stop == stop
        && t.target == target
    case TradeClosed(time, side, outcome, exitPrice) =>
      side == s.side && exists t, p: nat, q: nat ::
        FilledAt(day, s, p, t) && EndsAt(day, s, p, t, q) && CloseAt(day, e, t, q)
  }

  ghost predicate CloseAt(day: seq<Bar>, e: Event, t: Trade, q: nat) {
    e.TradeClosed? && q < |day| && e.time == day[q].time && e.outcome == t.outcome && e.exitPrice == t.exitPrice
  }

  // ---------- where events come from ----------

  /** Events of raid i's watch at bar b. */
  ghost predicate Watched(day: seq<Bar>, s: Session, i: nat, b: nat, e: Event) {
    IsRaid(day, s, i) && i < b < |day| && e in WatchEvents(day, s, i, b)
  }

  /** Events at bar b of the search that raid i and bar j have started. */
  ghost predicate Attempted(day: seq<Bar>, s: Session, i: nat, j: nat, b: nat, e: Event) {
    && IsRaid(day, s, i) && j < b < |day| && IsMss(day, s.side, i, j) && Accepted(day, s.side, j)
    && e in AttemptEvents(day, s.side, j, b)
  }

  ghost predicate Emitted(day: seq<Bar>, s: Session, e: Event) {
    || (exists b: nat :: b < |day| && e in SwingEvents(day, b))
    || (exists b: nat :: b < |day| && e in RaidEvents(day, s, b))
    || (exists i: nat, b: nat :: Watched(day, s, i, b, e))
    || (exists i: nat, j: nat, b: nat :: Attempted(day, s, i, j, b, e))
  }

  lemma StreamEmits(day: seq<Bar>, s: Session, e: Event)
    ensures e in StreamLog(day, s, |day|) <==> Emitted(day, s, e)
  {
    hide StreamLog, SwingEvents, RaidEvents, WatchEvents, AttemptEvents, AllWatchEvents, AllAttemptEvents, Keys, Raids,
         IsRaid, IsMss, Accepted;
    if e in StreamLog(day, s, |day|) {
      var b := FromStream(day, s, |day|, e);
      if e in AllAttemptEvents(day, s, Keys(day, s, b), b) {
        var k := FromAllAttempts(day, s, Keys(day, s, b), b, e);
        assert Attempted(day, s, k.raid, k.mss, b, e);
      } else if e in AllWatchEvents(day, s, Raids(day, s, b), b) {
        var i := FromAllWatch(day, s, Raids(day, s, b), b, e);
        assert Watched(day, s, i, b, e);
      }
    }
    if b: nat :| b < |day| && (e in SwingEvents(day, b) || e in RaidEvents(day, s, b)) {
      InStream(day, s, b, |day|);
      assert e in BarEvents(day, s, b);
    }
    if i: nat, b: nat :| Watched(day, s, i, b, e) {
      WatchInStream(day, s, i, b);
    }
    if i: nat, j: nat, b: nat :| Attempted(day, s, i, j, b, e) {
      AttemptInStream(day, s, i, j, b);
    }
  }

  // ---------- the model means the same ----------

  lemma SweptIs(day: seq<Bar>, s: Session, i: nat, h: nat, l: nat)
    ensures Swept(day, s, i, h, l) <==>
            && IsRaid(day, s, i)
            && h == LatestPivot(day, Top, i - SWING_N) && l == LatestPivot(day, Bottom, i - SWING_N)
    ensures Swept(day, s, i, h, l) ==> h < |day| && l < |day|
  {
    hide LatestPivot, LatestHigh, LatestLow;
    if i <= |day| {
      LatestIs(day, h, i);
      LatestIs(day, l, i);
    }
  }

  lemma ShiftedIs(day: seq<Bar>, s: Session, i: nat, h: nat, l: nat, j: nat)
    ensures Shifted(day, s, i, h, l, j) <==>
            && IsRaid(day, s, i) && IsMss(day, s.side, i, j)
            && h == LatestPivot(day, Top, i - SWING_N) && l == LatestPivot(day, Bottom, i - SWING_N)
    ensures Shifted(day, s, i, h, l, j) ==>
              h < |day| && l < |day| && BothSwings(day, i) && Opposite(day, s, h, l) == Reference(day, s.side, i)
  {
    hide LatestPivot, Swept;
    SweptIs(day, s, i, h, l);
  }

  /** Which part of the engine emits an event is told by its kind. */
  lemma KindsOf(day: seq<Bar>, s: Session, e: Event)
    ensures (exists b: nat :: b < |day| && e in SwingEvents(day, b)) ==> e.SwingHigh? || e.SwingLow?
    ensures (exists b: nat :: b < |day| && e in RaidEvents(day, s, b)) ==> e.Raid?
    ensures (exists i: nat, b: nat :: Watched(day, s, i, b, e)) ==>
              e.Mss? || e.FvgFound? || e.MinStopRejected? || e.CandidateReady?
    ensures (exists i: nat, j: nat, b: nat :: Attempted(day, s, i, j, b, e)) ==> e.OrderFilled? || e.TradeClosed?
  {
    hide IsMss, FindFvg, Reference, AttemptAt, SetupAt, Accepted, IsRaid, IsPivot, RaidLevel;
  }

  lemma SwingSays(day: seq<Bar>, s: Session, e: Event)
    requires e.SwingHigh? || e.SwingLow?
    ensures Says(day, s, e) <==> exists b: nat :: b < |day| && e in SwingEvents(day, b)
  {
    hide IsPivot, High, Low;
    PivotIs(day, e.bar);
    HighRoom(day, e.bar);
    if Says(day, s, e) { assert e in SwingEvents(day, e.bar + 2); }
    if b: nat :| b < |day| && e in SwingEvents(day, b) {
      assert e.bar == b - 2;
    }
  }

  lemma HighRoom(day: seq<Bar>, k: int)
    ensures High(day, k) || Low(day, k) ==> 2 <= k && k + 2 < |day|
  {
  }

  lemma RaidSays(day: seq<Bar>, s: Session, e: Event)
    requires e.Raid?
    ensures Says(day, s, e) <==> exists b: nat :: b < |day| && e in RaidEvents(day, s, b)
  {
    hide LatestPivot, Swept, IsRaid;
    var i := e.bar;
    forall h: nat, l: nat
      ensures Swept(day, s, i, h, l) <==>
              && IsRaid(day, s, i)
              && h == LatestPivot(day, Top, i - SWING_N) && l == LatestPivot(day, Bottom, i - SWING_N)
      ensures Swept(day, s, i, h, l) ==> h < |day| && l < |day|
    {
      SweptIs(day, s, i, h, l);
    }
    if IsRaid(day, s, i) {
      RaidBounds(day, s, i);
      var h, l := LatestPivot(day, Top, i - SWING_N), LatestPivot(day, Bottom, i - SWING_N);
      assert Swept(day, s, i, h, l);
    }
    if Says(day, s, e) { assert e in RaidEvents(day, s, i); }
    if b: nat :| b < |day| && e in RaidEvents(day, s, b) {
      assert b == i;
    }
  }

  /** A raid and its shift, and the swings they are measured by. */
  lemma ShiftOf(day: seq<Bar>, s: Session, i: nat, j: nat)
    ensures (exists h: nat, l: nat :: Shifted(day, s, i, h, l, j)) <==> IsRaid(day, s, i) && IsMss(day, s.side, i, j)
    ensures IsRaid(day, s, i) && IsMss(day, s.side, i, j) ==> i < j < |day|
  {
    hide LatestPivot, Shifted;
    forall h: nat, l: nat
      ensures Shifted(day, s, i, h, l, j) <==>
              && IsRaid(day, s, i) && IsMss(day, s.side, i, j)
              && h == LatestPivot(day, Top, i - SWING_N) && l == LatestPivot(day, Bottom, i - SWING_N)
    {
      ShiftedIs(day, s, i, h, l, j);
    }
    if IsRaid(day, s, i) && IsMss(day, s.side, i, j) {
      var h, l := LatestPivot(day, Top, i - SWING_N), LatestPivot(day, Bottom, i - SWING_N);
      assert Shifted(day, s, i, h, l, j);
    }
  }

  lemma GapIs(day: seq<Bar>, s: Session, j: nat, top: real, bottom: real)
    ensures Gapped(day, s, j, top, bottom) <==>
            2 <= j < |day| && FindFvg(day, s.side, j) == Some(Gap(top, bottom, j - 2))
  {
  }

  lemma MssSays(day: seq<Bar>, s: Session, e: Event)
    requires e.Mss?
    ensures Says(day, s, e) <==> exists i: nat, b: nat :: Watched(day, s, i, b, e)
  {
    hide LatestPivot, Shifted, IsRaid, IsMss, Reference, FindFvg, Accepted, SetupAt;
    var i, j := e.raidBar, e.mssBar;
    forall h: nat, l: nat
      ensures Shifted(day, s, i, h, l, j) ==>
                h < |day| && l < |day| && BothSwings(day, i) && Opposite(day, s, h, l) == Reference(day, s.side, i)
    {
      ShiftedIs(day, s, i, h, l, j);
    }
    ShiftOf(day, s, i, j);
    if Says(day, s, e) { assert Watched(day, s, i, j, e); }
    if i': nat, b: nat :| Watched(day, s, i', b, e) {
      assert i' == i && b == j;
    }
  }

  lemma FvgSays(day: seq<Bar>, s: Session, e: Event)
    requires e.FvgFound?
    ensures Says(day, s, e) <==> exists i: nat, b: nat :: Watched(day, s, i, b, e)
  {
    hide Shifted, IsRaid, IsMss, Reference, FindFvg, Accepted, SetupAt, Gapped;
    var j := e.mssBar;
    if Says(day, s, e) {
      GapIs(day, s, j, e.top, e.bottom);
      var i: nat, h: nat, l: nat :| Shifted(day, s, i, h, l, j);
      ShiftOf(day, s, i, j);
      assert Watched(day, s, i, j, e);
    }
    if i: nat, b: nat :| Watched(day, s, i, b, e) {
      FvgWatched(day, s, i, b, e);
    }
  }

  lemma FvgWatched(day: seq<Bar>, s: Session, i: nat, b: nat, e: Event)
    requires e.FvgFound? && Watched(day, s, i, b, e)
    ensures Says(day, s, e)
  {
    hide Shifted, IsRaid, IsMss, Reference, FindFvg, Accepted, SetupAt, Gapped;
    ShiftOf(day, s, i, b);
    GapRoom(day, s.side, b);
    GapIs(day, s, b, e.top, e.bottom);
  }

  lemma GapRoom(day: seq<Bar>, side: Side, j: nat)
    requires j < |day| && FindFvg(day, side, j).Some?
    ensures 2 <= j && FindFvg(day, side, j).value.frame == j - 2
  {
  }

  /** Entry, stop and risk of the gap at bar j. */
  lemma SetupIs(day: seq<Bar>, s: Session, j: nat, top: real, bottom: real)
    requires Gapped(day, s, j, top, bottom)
    ensures 2 <= j < |day|
    ensures var entry, stop := (top + bottom) / 2.0, StopAt(day, s, j);
            SetupAt(day, s.side, j) == Some(Setup(entry, stop, RiskOf(s, entry, stop)))
  {
  }

  lemma MinStopSays(day: seq<Bar>, s: Session, e: Event)
    requires e.MinStopRejected?
    ensures Says(day, s, e) <==> exists i: nat, b: nat :: Watched(day, s, i, b, e)
  {
    hide Shifted, IsRaid, IsMss, Reference, FindFvg, SetupAt, StopAt, RiskOf;
    if Says(day, s, e) {
      var j: nat, top, bottom :| && Gapped(day, s, j, top, bottom) && e.time == day[j].time
        && e.riskPips == RiskOf(s, (top + bottom) / 2.0, StopAt(day, s, j))
        && exists i: nat, h: nat, l: nat :: Shifted(day, s, i, h, l, j);
      var i: nat, h: nat, l: nat :| Shifted(day, s, i, h, l, j);
      ShiftOf(day, s, i, j);
      GapIs(day, s, j, top, bottom);
      SetupIs(day, s, j, top, bottom);
      assert Watched(day, s, i, j, e);
    }
    if i: nat, b: nat :| Watched(day, s, i, b, e) {
      ShiftOf(day, s, i, b);
      GapRoom(day, s.side, b);
      var g := FindFvg(day, s.side, b).value;
      GapIs(day, s, b, g.top, g.bottom);
      SetupIs(day, s, b, g.top, g.bottom);
    }
  }

  lemma CandidateSays(day: seq<Bar>, s: Session, e: Event)
    requires e.CandidateReady?
    ensures Says(day, s, e) <==> exists i: nat, b: nat :: Watched(day, s, i, b, e)
  {
    hide Shifted, IsRaid, IsMss, Reference, FindFvg, SetupAt, StopAt, RiskOf;
    var i, j := e.raidBar, e.mssBar;
    ShiftOf(day, s, i, j);
    if Says(day, s, e) {
      var top, bottom :| && Gapped(day, s, j, top, bottom) && e.time == day[j].time
        && e.entry == (top + bottom) / 2.0 && e.stop == StopAt(day, s, j) && RiskOf(s, e.entry, e.stop) >= 5.0;
      GapIs(day, s, j, top, bottom);
      SetupIs(day, s, j, top, bottom);
      assert Watched(day, s, i, j, e);
    }
    if i': nat, b: nat :| Watched(day, s, i', b, e) {
      GapRoom(day, s.side, b);
      var g := FindFvg(day, s.side, b).value;
      GapIs(day, s, b, g.top, g.bottom);
      SetupIs(day, s, b, g.top, g.bottom);
    }
  }

  /** A search that fills, with its trade, is one of the model. */
  lemma SearchIs(day: seq<Bar>, s: Session, i: nat, j: nat, p: nat, x: nat, t: Trade)
    requires SearchFills(day, s, i, j, p, x, t)
    ensures Fills(day, s, i, j) && j < p < |day| && SetupAt(day, s.side, j).Some?
    ensures AttemptAt(day, s.side, j, |day|).fillBar == p && t == TradeOf(day, s.side, j)
  {
    hide LongPair, ShortPair, LongTrade, ShortTrade, IsRaid, IsMss, AttemptAt, TradeOf, SetupAt;
    TradeIs(day, s, i, j, t);
    assert TradeAt(day, s, i, j, t);
    FilledPair(day, s, i, j);
    if s.side == Long { LongFillBar(day, j, p, x, t); } else { ShortFillBar(day, j, p, x, t); }
  }

  lemma LongFillBar(day: seq<Bar>, j: nat, p: nat, x: nat, t: Trade)
    requires 2 <= j < |day| && Accepted(day, Long, j) && AttemptAt(day, Long, j, |day|).HasFilled()
    requires LongTrade(day, j, p, x, t) && t == TradeOf(day, Long, j)
    ensures AttemptAt(day, Long, j, |day|).fillBar == p && p < |day|
  {
    hide FirstTouch, FirstExit, ExtremeBar, LongEnd;
    var f := FirstTouch(day, Long, t.entry, j + 1, |day|);
    assert !(f < p) && Touched(day[p], Long, t.entry);
  }

  lemma ShortFillBar(day: seq<Bar>, j: nat, p: nat, x: nat, t: Trade)
    requires 2 <= j < |day| && Accepted(day, Short, j) && AttemptAt(day, Short, j, |day|).HasFilled()
    requires ShortTrade(day, j, p, x, t) && t == TradeOf(day, Short, j)
    ensures AttemptAt(day, Short, j, |day|).fillBar == p && p < |day|
  {
    hide FirstTouch, FirstExit, ExtremeBar, ShortEnd;
    var f := FirstTouch(day, Short, t.entry, j + 1, |day|);
    assert !(f < p) && Touched(day[p], Short, t.entry);
  }

  /** And the other way round. */
  lemma SearchOf(day: seq<Bar>, s: Session, i: nat, j: nat)
    requires Fills(day, s, i, j)
    ensures SetupAt(day, s.side, j).Some? && AttemptAt(day, s.side, j, |day|).fillBar < |day|
    ensures FilledAt(day, s, AttemptAt(day, s.side, j, |day|).fillBar, TradeOf(day, s.side, j))
  {
    hide LongPair, ShortPair, LongTrade, ShortTrade, IsRaid, IsMss, AttemptAt, TradeOf, SetupAt;
    var p, t := AttemptAt(day, s.side, j, |day|).fillBar, TradeOf(day, s.side, j);
    FilledPair(day, s, i, j);
    PairIs(day, s, i, j);
    AcceptedIsSetup(day, s.side, j);
    if s.side == Long { LongFillIs(day, j); } else { ShortFillIs(day, j); }
    var x := ExtremeBar(day, s.side, p - 6, p);
    assert SearchFills(day, s, i, j, p, x, t);
  }

  /** The trade's end in the day is the search's exit. */
  lemma EndIs(day: seq<Bar>, s: Session, j: nat, q: nat)
    requires j < |day| && Accepted(day, s.side, j) && AttemptAt(day, s.side, j, |day|).HasFilled()
    ensures SetupAt(day, s.side, j).Some?
    ensures var a, t := AttemptAt(day, s.side, j, |day|), TradeOf(day, s.side, j);
            && (a.Closed? <==> t.outcome != Scratch)
            && (EndsAt(day, s, a.fillBar, t, q) <==> a.Closed? && q == a.exitBar)
            && (a.Closed? ==> a.outcome == t.outcome && a.exitPrice == t.exitPrice)
  {
    hide FirstTouch, FirstExit, Target, SetupAt;
    AcceptedIsSetup(day, s.side, j);
    var a, t := AttemptAt(day, s.side, j, |day|), TradeOf(day, s.side, j);
    var f := FirstExit(day, s.side, t.stop, t.target, a.fillBar, |day|);
    if EndsAt(day, s, a.fillBar, t, q) {
      assert StopHit(day[q], s.side, t.stop) || TargetHit(day[q], s.side, t.target);
      assert !(f < q) && !(q < f);
    }
  }

  lemma FilledTrade(day: seq<Bar>, side: Side, j: nat)
    requires j < |day| && SetupAt(day, side, j).Some? && AttemptAt(day, side, j, |day|).HasFilled()
    ensures var a, t := AttemptAt(day, side, j, |day|), TradeOf(day, side, j);
            && a.fillBar < |day|
            && FillEvent(day, side, j, a) ==
               OrderFilled(day[a.fillBar].time, side, t.entry, t.stop, t.target, a.fillBar)
  {
    hide SetupAt, AttemptAt;
  }

  lemma FillSays(day: seq<Bar>, s: Session, e: Event)
    requires e.OrderFilled?
    ensures Says(day, s, e) <==> exists i: nat, j: nat, b: nat :: Attempted(day, s, i, j, b, e)
  {
    hide SearchFills, IsRaid, IsMss, Accepted, AttemptAt, TradeOf, SetupAt, AttemptEvents, FillEvent;
    if Says(day, s, e) {
      var t :| FilledAt(day, s, e.fillBar, t) && e.fillBar < |day| && e.time == day[e.fillBar].time
               && t.entry == e.entry && t.stop == e.stop && t.target == e.target;
      var i: nat, j: nat, x: nat :| SearchFills(day, s, i, j, e.fillBar, x, t);
      SearchIs(day, s, i, j, e.fillBar, x, t);
      FilledTrade(day, s.side, j);
      AttemptEventsAre(day, s.side, j, e.fillBar);
      assert Attempted(day, s, i, j, e.fillBar, e);
    }
    if i: nat, j: nat, b: nat :| Attempted(day, s, i, j, b, e) {
      AcceptedIsSetup(day, s.side, j);
      AttemptEventsAre(day, s.side, j, b);
      FilledTrade(day, s.side, j);
      SearchOf(day, s, i, j);
    }
  }

  lemma CloseSays(day: seq<Bar>, s: Session, e: Event)
    requires e.TradeClosed?
    ensures Says(day, s, e) <==> exists i: nat, j: nat, b: nat :: Attempted(day, s, i, j, b, e)
  {
    hide SearchFills, IsRaid, IsMss, Accepted, AttemptAt, TradeOf, SetupAt, AttemptEvents, EndsAt;
    if Says(day, s, e) {
      var t, p: nat, q: nat :| FilledAt(day, s, p, t) && EndsAt(day, s, p, t, q) && CloseAt(day, e, t, q);
      var i: nat, j: nat, x: nat :| SearchFills(day, s, i, j, p, x, t);
      SearchIs(day, s, i, j, p, x, t);
      EndIs(day, s, j, q);
      AttemptEventsAre(day, s.side, j, q);
      assert Attempted(day, s, i, j, q, e);
    }
    if i: nat, j: nat, b: nat :| Attempted(day, s, i, j, b, e) {
      AcceptedIsSetup(day, s.side, j);
      AttemptEventsAre(day, s.side, j, b);
      EndIs(day, s, j, b);
      SearchOf(day, s, i, j);
      assert CloseAt(day, e, TradeOf(day, s.side, j), b);
    }
  }

  /** The streaming journal before the day is finalized holds exactly the events that are true of the day. */
  lemma JournalMeans(day: seq<Bar>, s: Session, e: Event)
    ensures e in StreamLog(day, s, |day|) <==> Says(day, s, e)
  {
    hide StreamLog, Says, SwingEvents, RaidEvents, Watched, Attempted;
    StreamEmits(day, s, e);
    KindsOf(day, s, e);
    match e
    case SwingHigh(_, _, _) => SwingSays(day, s, e);
    case SwingLow(_, _, _) => SwingSays(day, s, e);
    case Raid(_, _, _, _, _, _) => RaidSays(day, s, e);
    case Mss(_, _, _, _, _, _) => MssSays(day, s, e);
    case FvgFound(_, _, _, _, _, _) => FvgSays(day, s, e);
    case MinStopRejected(_, _, _) => MinStopSays(day, s, e);
    case CandidateReady(_, _, _, _, _, _) => CandidateSays(day, s, e);
    case OrderFilled(_, _, _, _, _, _) => FillSays(day, s, e);
    case TradeClosed(_, _, _, _) => CloseSays(day, s, e);
  }

  /** Finalizing adds one close, of a trade still open at the last bar, at its close. */
  lemma ScratchMeans(day: seq<Bar>, s: Session, w: Option<Key>, e: Event)
    requires Verdict(day, s, w)
    ensures WellPlaced(day, s, w)
    ensures e in ScratchEvents(day, s, w) <==>
            && w.Some? && TradeFor(day, s, w).value.outcome == Scratch && day != []
            && e == TradeClosed(day[|day| - 1].time, s.side, Scratch, day[|day| - 1].close)
  {
    hide AttemptAt, SetupAt, IsRaid, IsMss;
    WinnerShape(day, s, w);
    if w.Some? { EndIs(day, s, w.value.mss, 0); }
  }
}
