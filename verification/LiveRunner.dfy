/** The live pipeline: polling, day rollover, the 10:00 decision with its backfill, journal flushing and finalize. */
module LiveRunner {
  import opened Market
  import opened FvgModel
  import opened Journal
  import opened Calendar
  import opened Orchestrator
  import opened DailyTrend
  import opened LogInclusion

  // Times are New York wall-clock minutes.

  const BAR_DURATION: int := 5
  const SESSION_WINDOW_START: int := 300
  const KILL_ZONE_START: int := 420
  const DECISION_READY: int := 600
  const SESSION_WINDOW_END: int := 1020
  const MIN_SESSION_BARS: nat := 12

  predicate IsSessionBar(b: Bar) {
    SESSION_WINDOW_START <= ClockOf(b) < SESSION_WINDOW_END
  }

  // ---------- the day's decision ----------

  datatype SkipReason = Fomc | NoTrend | InsufficientBars | NoSessionStart

  datatype Decision = Skip(reason: SkipReason) | Tradeable(session: Session)

  /** The first bar at or after a time of the day, or |bars|. */
  function FirstAt(bars: seq<Bar>, time: int): (k: nat)
    ensures k <= |bars|
    ensures k < |bars| ==> bars[k].time >= time
    ensures forall x :: 0 <= x < k ==> bars[x].time < time
  {
    if bars == [] || bars[0].time >= time then 0
    else
      var k := FirstAt(bars[1..], time);
      assert forall x :: 0 < x < |bars| ==> bars[x] == bars[1..][x - 1];
      k + 1
  }

  /** The rules a tradeable day passes, applied to a list of session bars: the whole window in the batch model, the bars
      so far in the live gate. */
  function Decide(fomc: bool, trend: Option<Side>, date: int, bars: seq<Bar>): Decision {
    if fomc then Skip(Fomc)
    else if trend.None? then Skip(NoTrend)
    else if |bars| < MIN_SESSION_BARS then Skip(InsufficientBars)
    else
      var start := FirstAt(bars, date * 1440 + KILL_ZONE_START);
      if start == |bars| then Skip(NoSessionStart)
      else Tradeable(Session(trend.value, start, FirstAt(bars, date * 1440 + DECISION_READY)))
  }

  method GateForDay(fomc: bool, trend: Option<Side>, date: int, bars: seq<Bar>) returns (decision: Decision)
    ensures decision == Decide(fomc, trend, date, bars)
  {
    if fomc {
      return Skip(Fomc);
    }
    if trend.None? {
      return Skip(NoTrend);
    }
    if |bars| < MIN_SESSION_BARS {
      return Skip(InsufficientBars);
    }
    var start := FindFirst(bars, date * 1440 + KILL_ZONE_START);
    if start == |bars| {
      return Skip(NoSessionStart);
    }
    var end := FindFirst(bars, date * 1440 + DECISION_READY);
    return Tradeable(Session(trend.value, start, end));
  }

  method FindFirst(bars: seq<Bar>, time: int) returns (k: nat)
    ensures k == FirstAt(bars, time)
  {
    k := 0;
    while k < |bars|
      invariant 0 <= k <= |bars|
      invariant forall x :: 0 <= x < k ==> bars[x].time < time
    {
      if bars[k].time >= time {
        FirstAtIs(bars, time, k);
        return;
      }
      k := k + 1;
    }
    FirstAtIs(bars, time, k);
  }

  lemma FirstAtIs(bars: seq<Bar>, time: int, k: nat)
    requires k <= |bars| && (k < |bars| ==> bars[k].time >= time) && forall x :: 0 <= x < k ==> bars[x].time < time
    ensures FirstAt(bars, time) == k
  {
    var m := FirstAt(bars, time);
    var x, y := if m < |bars| then bars[m].time else 0, if k < |bars| then bars[k].time else 0;
  }

  /** A bar list that has just reached 10:00. */
  ghost predicate JustReady(bars: seq<Bar>, date: int) {
    && bars != []
    && bars[|bars| - 1].time >= date * 1440 + DECISION_READY
    && forall x :: 0 <= x < |bars| - 1 ==> bars[x].time < date * 1440 + DECISION_READY
  }

  /** The 10:00 decision against the batch model's, taken on any longer list: an accepted day gets the very same
      session, a day rejected for its trend or the FOMC calendar is rejected either way, a session start is always
      found, and the two differ exactly when fewer than twelve bars had arrived by 10:00 but twelve did by the end. */
  lemma DecisionIsFinal(fomc: bool, trend: Option<Side>, date: int, prefix: seq<Bar>, full: seq<Bar>)
    requires JustReady(prefix, date) && prefix <= full
    ensures Decide(fomc, trend, date, prefix).Tradeable? ==>
              Decide(fomc, trend, date, full) == Decide(fomc, trend, date, prefix)
    ensures Decide(fomc, trend, date, prefix) != Skip(NoSessionStart)
    ensures Decide(fomc, trend, date, full) != Decide(fomc, trend, date, prefix) <==>
              !fomc && trend.Some? && |prefix| < MIN_SESSION_BARS <= |full|
    ensures var s := Decide(fomc, trend, date, prefix);
            s.Tradeable? ==> 0 <= s.session.start <= s.session.end == |prefix| - 1 < |full|
  {
    FirstAtPrefix(prefix, full, date * 1440 + KILL_ZONE_START);
    FirstAtPrefix(prefix, full, date * 1440 + DECISION_READY);
    FirstAtIs(prefix, date * 1440 + DECISION_READY, |prefix| - 1);
    var start := FirstAt(prefix, date * 1440 + KILL_ZONE_START);
  }

  lemma FirstAtPrefix(prefix: seq<Bar>, full: seq<Bar>, time: int)
    requires prefix <= full && prefix != [] && prefix[|prefix| - 1].time >= time
    ensures FirstAt(prefix, time) < |prefix| && FirstAt(full, time) == FirstAt(prefix, time)
  {
    var k := FirstAt(prefix, time);
    assert prefix[k] == full[k];
    FirstAtIs(full, time, k);
  }

  // ---------- one day in progress ----------

  /** The bars a day has seen up to and including the first at or after 10:00, if there is one. */
  function DecisionBars(bars: seq<Bar>, date: int): Option<seq<Bar>> {
    var k := FirstAt(bars, date * 1440 + DECISION_READY);
    if k < |bars| then Some(bars[..k + 1]) else None
  }

  /** What the live pipeline decides about a day with these session bars: nothing before 10:00. */
  function LiveDecision(fomc: bool, trend: Option<Side>, date: int, bars: seq<Bar>): Option<Decision> {
    match DecisionBars(bars, date)
    case None => None
    case Some(prefix) => Some(Decide(fomc, trend, date, prefix))
  }

  class CurrentDay {
    const date: int
    var bars: seq<Bar>
    var dayHigh: Option<real>
    var dayLow: Option<real>
    var decided: bool
    var engine: DayOrchestrator?
    var flushed: nat
    var written: seq<Event>   // the engine's events stored so far

    ghost function Repr(): set<object>
      reads this, engine
    {
      {this} + if engine == null then {} else engine.Repr()
    }

    lemma InRepr()
      ensures this in Repr() && (engine != null ==> engine in Repr() && engine.Repr() <= Repr())
    {
    }

    /** All fields are what the session bars so far determine; the engine has been fed exactly those bars and everything
        it emitted has been stored once, in order. */
    ghost predicate Valid(fomc: bool, trend: Option<Side>)
      reads this, engine, if engine == null then {} else engine.Repr()
    {
      && OfDate(bars, date) && Increasing(bars)
      && (decided <==> DecisionBars(bars, date).Some?)
      && (engine != null <==> decided && LiveDecision(fomc, trend, date, bars).value.Tradeable?)
      && (engine == null ==> written == [])
      && (engine != null ==>
        && this !in engine.Repr()
        && engine.Valid() && engine.day == bars
        && engine.s == LiveDecision(fomc, trend, date, bars).value.session
        && flushed == |engine.log| && written == engine.log)
    }

    constructor (date: int, ghost fomc: bool, ghost trend: Option<Side>)
      ensures Valid(fomc, trend) && this.date == date && bars == [] && dayHigh.None? && dayLow.None?
      ensures fresh(Repr())
    {
      this.date, bars, dayHigh, dayLow, decided, engine, flushed, written := date, [], None, None, false, null, 0, [];
    }

    method UpdateDailyRange(bar: Bar, ghost fomc: bool, ghost trend: Option<Side>)
      requires Valid(fomc, trend)
      modifies this`dayHigh, this`dayLow
      ensures Valid(fomc, trend)
      ensures dayHigh ==
              Some(if old(dayHigh).None? || old(dayHigh).value < bar.high then bar.high else old(dayHigh).value)
      ensures dayLow == Some(if old(dayLow).None? || bar.low < old(dayLow).value then bar.low else old(dayLow).value)
    {
      hide Decide, DecisionBars, Increasing, OfDate, LiveDecision, DayOrchestrator.Valid, DayOrchestrator.Repr;
      dayHigh := Some(if dayHigh.None? || dayHigh.value < bar.high then bar.high else dayHigh.value);
      dayLow := Some(if dayLow.None? || bar.low < dayLow.value then bar.low else dayLow.value);
    }

    /** Appends a session bar; decides at the first one at or after 10:00 and backfills; feeds the engine afterwards. */
    method AddBar(bar: Bar, fomc: bool, trend: Option<Side>)
      requires Valid(fomc, trend)
      requires DateOf(bar) == date && (bars != [] ==> bars[|bars| - 1].time < bar.time)
      modifies Repr()
      ensures Valid(fomc, trend) && bars == old(bars) + [bar] && dayHigh == old(dayHigh) && dayLow == old(dayLow)
      ensures fresh(Repr() - old(Repr()))
    {
      hide DayOrchestrator.Valid, Decide, DecisionBars, LiveDecision, Increasing, OfDate;
      LiveStep(fomc, trend, bars, bar, date);
      bars := bars + [bar];
      if !decided {
        if ClockOf(bar) >= DECISION_READY {
          decided := true;
          var decision := GateForDay(fomc, trend, date, bars);
          if decision.Tradeable? {
            Backfill(decision.session);
          }
        }
        return;
      }
      if engine != null {
        engine.OnNewBar(bar, |bars| - 1);
        Flush();
      }
    }

    /** Any bar of the day moves the range; only a session bar is appended. */
    method TakeBar(bar: Bar, fomc: bool, trend: Option<Side>)
      requires Valid(fomc, trend) && DateOf(bar) == date && After(bars, bar)
      modifies Repr()
      ensures Valid(fomc, trend) && bars == if IsSessionBar(bar) then old(bars) + [bar] else old(bars)
      ensures dayHigh ==
              Some(if old(dayHigh).None? || old(dayHigh).value < bar.high then bar.high else old(dayHigh).value)
      ensures dayLow == Some(if old(dayLow).None? || bar.low < old(dayLow).value then bar.low else old(dayLow).value)
      ensures fresh(Repr() - old(Repr()))
    {
      hide CurrentDay.Valid;
      UpdateDailyRange(bar, fomc, trend);
      if IsSessionBar(bar) {
        AddBar(bar, fomc, trend);
      }
    }

    method Backfill(s: Session)
      requires engine == null && written == []
      modifies this`engine, this`flushed, this`written
      ensures engine != null && fresh(engine.Repr()) && this !in engine.Repr()
      ensures engine.Valid() && engine.day == bars && engine.s == s
      ensures flushed == |engine.log| && written == engine.log
    {
      hide DayOrchestrator.Valid;
      var e := new DayOrchestrator(s);
      var k := 0;
      while k < |bars|
        invariant 0 <= k <= |bars|
        invariant e.Valid() && e.day == bars[..k] && e.s == s
        invariant fresh(e) && fresh(e.Repr()) && this !in e.Repr()
        invariant engine == null && written == []
      {
        assert bars[..k] + [bars[k]] == bars[..k + 1];
        e.OnNewBar(bars[k], k);
        k := k + 1;
      }
      assert bars[..k] == bars;
      engine, flushed := e, 0;
      Flush();
    }

    /** Stores what was emitted since the last flush. */
    method Flush()
      requires engine != null && flushed <= |engine.log| && written == engine.log[..flushed]
      modifies this`flushed, this`written
      ensures flushed == |engine.log| && written == engine.log
    {
      written := written + engine.log[flushed..];
      flushed := |engine.log|;
    }

    /** The day's trade: none unless it was accepted at 10:00, otherwise the batch model's trade on the day's bars. */
    method Finalize(fomc: bool, trend: Option<Side>) returns (trade: Option<Trade>, winner: Option<Key>)
      requires Valid(fomc, trend)
      modifies Repr()
      ensures bars == old(bars) && dayHigh == old(dayHigh) && dayLow == old(dayLow)
      ensures DayResult(fomc, trend, date, bars, trade, winner)
      ensures written == DayJournal(fomc, trend, date, bars, winner)
    {
      hide Decide, DecisionBars, Increasing, OfDate, StreamLog, Verdict, DayOrchestrator.Valid;
      LiveStart(fomc, trend, date);
      if engine == null || bars == [] {
        return None, None;
      }
      var last := bars[|bars| - 1];
      trade, winner := engine.Finalize(last.time, last.close);
      VerdictPlaced(bars, engine.s, winner);
      Flush();
    }
  }

  lemma DecisionStep(bars: seq<Bar>, bar: Bar, date: int)
    requires OfDate(bars, date) && DateOf(bar) == date
    ensures DecisionBars(bars, date).Some? ==> DecisionBars(bars + [bar], date) == DecisionBars(bars, date)
    ensures DecisionBars(bars, date).None? ==>
              DecisionBars(bars + [bar], date) == if ClockOf(bar) >= DECISION_READY then Some(bars + [bar]) else None
  {
    hide FirstAt, DateOf, ClockOf, OfDate;
    var time := date * 1440 + DECISION_READY;
    var k := FirstAt(bars, time);
    var bars' := bars + [bar];
    AfterReady(bar, date);
    assert forall x :: 0 <= x < |bars| ==> bars'[x] == bars[x];
    if k < |bars| {
      FirstAtIs(bars', time, k);
      assert bars'[..k + 1] == bars[..k + 1];
    } else if ClockOf(bar) >= DECISION_READY {
      FirstAtIs(bars', time, |bars|);
      assert bars'[..|bars| + 1] == bars';
    } else {
      FirstAtIs(bars', time, |bars| + 1);
    }
  }

  lemma AfterReady(bar: Bar, date: int)
    requires DateOf(bar) == date
    ensures ClockOf(bar) >= DECISION_READY <==> bar.time >= date * 1440 + DECISION_READY
  {
  }

  lemma VerdictPlaced(bars: seq<Bar>, s: Session, w: Option<Key>)
    requires Verdict(bars, s, w)
    ensures WellPlaced(bars, s, w)
  {
    WinnerShape(bars, s, w);
  }

  lemma LiveStart(fomc: bool, trend: Option<Side>, date: int)
    ensures DecisionBars([], date).None? && LiveDecision(fomc, trend, date, []).None?
  {
  }

  lemma LiveStep(fomc: bool, trend: Option<Side>, bars: seq<Bar>, bar: Bar, date: int)
    requires OfDate(bars, date) && Increasing(bars) && DateOf(bar) == date
             && (bars != [] ==> bars[|bars| - 1].time < bar.time)
    ensures OfDate(bars + [bar], date) && Increasing(bars + [bar])
    ensures DecisionBars(bars, date).Some? <==> LiveDecision(fomc, trend, date, bars).Some?
    ensures DecisionBars(bars + [bar], date).Some? <==> LiveDecision(fomc, trend, date, bars + [bar]).Some?
    ensures DecisionBars(bars, date).Some? ==>
              LiveDecision(fomc, trend, date, bars + [bar]) == LiveDecision(fomc, trend, date, bars)
    ensures DecisionBars(bars, date).None? ==>
              LiveDecision(fomc, trend, date, bars + [bar]) ==
              if ClockOf(bar) >= DECISION_READY then Some(Decide(fomc, trend, date, bars + [bar])) else None
  {
    hide Decide;
    DecisionStep(bars, bar, date);
  }

  /** The simulated trade of a finished day, stated on its session bars alone. */
  ghost predicate DayResult(fomc: bool, trend: Option<Side>, date: int, bars: seq<Bar>, trade: Option<Trade>,
                              w: Option<Key>)
  {
    match LiveDecision(fomc, trend, date, bars)
    case Some(Tradeable(s)) => Verdict(bars, s, w) && trade == TradeFor(bars, s, w)
    case _ => trade.None? && w.None?
  }

  /** The engine events stored for a finished day. */
  ghost function DayJournal(fomc: bool, trend: Option<Side>, date: int, bars: seq<Bar>, w: Option<Key>): seq<Event> {
    match LiveDecision(fomc, trend, date, bars)
    case Some(Tradeable(s)) =>
      if WellPlaced(bars, s, w) then StreamLog(bars, s, |bars|) + ScratchEvents(bars, s, w) else []
    case _ => []
  }

  /** The session the live pipeline trades a day in, if any. */
  function LiveSession(fomc: bool, trend: Option<Side>, date: int, bars: seq<Bar>): Option<Session> {
    match LiveDecision(fomc, trend, date, bars)
    case Some(Tradeable(s)) => Some(s)
    case _ => None
  }

  /** The session the batch model trades it in, if any. */
  function BatchSession(fomc: bool, trend: Option<Side>, date: int, bars: seq<Bar>): Option<Session> {
    match Decide(fomc, trend, date, bars)
    case Tradeable(s) => Some(s)
    case Skip(_) => None
  }

  /** A day that the batch model trades and the live pipeline does not: it never reaches 10:00, or reached it with fewer
      than twelve bars. */
  predicate MissedLive(fomc: bool, trend: Option<Side>, date: int, bars: seq<Bar>) {
    && !fomc && trend.Some? && |bars| >= MIN_SESSION_BARS
    && FirstAt(bars, date * 1440 + KILL_ZONE_START) < |bars|
    && match DecisionBars(bars, date)
       case None => true
       case Some(prefix) => |prefix| < MIN_SESSION_BARS
  }

  /** Over every list of a day's bars, live and batch choose the same session exactly when the day is not missed; a
      missed day is traded by the batch model and skipped live. */
  lemma SessionsAgree(fomc: bool, trend: Option<Side>, date: int, bars: seq<Bar>)
    ensures LiveSession(fomc, trend, date, bars) == BatchSession(fomc, trend, date, bars) <==>
            !MissedLive(fomc, trend, date, bars)
    ensures MissedLive(fomc, trend, date, bars) ==>
              LiveSession(fomc, trend, date, bars).None? && BatchSession(fomc, trend, date, bars).Some?
    ensures LiveSession(fomc, trend, date, bars).Some? ==>
              var s := LiveSession(fomc, trend, date, bars).value;
              0 <= s.start <= s.end <= |bars|
  {
    hide FirstAt;
    if DecisionBars(bars, date).Some? {
      var prefix := DecisionBars(bars, date).value;
      PrefixReady(bars, date);
      ShortPrefix(fomc, trend, date, prefix);
      DecisionIsFinal(fomc, trend, date, prefix, bars);
      FirstAtPrefix(prefix, bars, date * 1440 + KILL_ZONE_START);
    }
  }

  /** On every list of a day's bars that is not missed, the live trade is the one the batch model finds on the same
      bars, or neither trades; on a missed day the live trade is none whatever the batch model finds. */
  lemma LiveMatchesBatch(fomc: bool, trend: Option<Side>, date: int, bars: seq<Bar>, trade: Option<Trade>,
      w: Option<Key>)
    requires DayResult(fomc, trend, date, bars, trade, w)
    ensures !MissedLive(fomc, trend, date, bars) ==>
              match BatchSession(fomc, trend, date, bars)
              case None => trade.None?
              case Some(s) => 0 <= s.start && s.end <= |bars| && Verdict(bars, s, w) && trade == TradeFor(bars, s, w)
    ensures MissedLive(fomc, trend, date, bars) ==> trade.None?
  {
    hide Verdict, FirstAt, Decide, MissedLive, DecisionBars;
    SessionsAgree(fomc, trend, date, bars);
  }

  /** The trade the batch model finds on a list of bars. */
  ghost predicate BatchResult(fomc: bool, trend: Option<Side>, date: int, bars: seq<Bar>, trade: Option<Trade>,
                              w: Option<Key>)
  {
    match BatchSession(fomc, trend, date, bars)
    case Some(s) => Verdict(bars, s, w) && trade == TradeFor(bars, s, w)
    case None => trade.None? && w.None?
  }

  /** Over every list of a day's bars the live and the batch trade differ exactly when the day is missed and the batch
      model has a winner on it; then live has no trade. */
  lemma TradesAgree(fomc: bool, trend: Option<Side>, date: int, bars: seq<Bar>, live: Option<Trade>, lw: Option<Key>,
                    batch: Option<Trade>, bw: Option<Key>)
    requires DayResult(fomc, trend, date, bars, live, lw) && BatchResult(fomc, trend, date, bars, batch, bw)
    ensures live != batch <==> MissedLive(fomc, trend, date, bars) && bw.Some?
    ensures live != batch ==> live.None? && batch.Some?
  {
    hide Verdict, FirstAt, Decide, MissedLive, DecisionBars, TradeOf;
    SessionsAgree(fomc, trend, date, bars);
    LiveMatchesBatch(fomc, trend, date, bars, live, lw);
    if BatchSession(fomc, trend, date, bars).Some? && !MissedLive(fomc, trend, date, bars) {
      VerdictUnique(bars, BatchSession(fomc, trend, date, bars).value, lw, bw);
    }
  }

  /** Twelve bars, five minutes apart: bar 2 is a swing high and low, bar 5 sweeps the low, bar 7 closes above the high
      behind a gap, bar 8 comes back to the gap. */
  function RaidedDay(from: int): (r: seq<Bar>)
    ensures |r| == 12 && forall k :: 0 <= k < 12 ==> r[k].time == from + 5 * k
  {
    [Bar(from, 1.005, 1.000, 1.003), Bar(from + 5, 1.005, 1.000, 1.003), Bar(from + 10, 1.010, 0.995, 1.003),
     Bar(from + 15, 1.005, 1.000, 1.003), Bar(from + 20, 1.005, 1.000, 1.003), Bar(from + 25, 1.005, 0.990, 1.001),
     Bar(from + 30, 1.008, 0.998, 1.007), Bar(from + 35, 1.020, 1.009, 1.015), Bar(from + 40, 1.016, 1.006, 1.012),
     Bar(from + 45, 1.014, 1.008, 1.012), Bar(from + 50, 1.014, 1.008, 1.012), Bar(from + 55, 1.014, 1.008, 1.012)]
  }

  lemma RaidedDayFills(from: int, end: int)
    requires 5 < end <= 12
    ensures Fills(RaidedDay(from), Session(Long, 0, end), 5, 7)
  {
    var day := RaidedDay(from);
    assert IsPivot(day, Top, 2) && IsPivot(day, Bottom, 2);
    assert LatestPivot(day, Top, 3) == 2 && LatestPivot(day, Bottom, 3) == 2;
    assert IsRaid(day, Session(Long, 0, end), 5) && IsMss(day, Long, 5, 7);
    assert FindFvg(day, Long, 7) == Some(Gap(1.009, 1.005, 5));
    assert SetupAt(day, Long, 7) == Some(Setup(1.007, 0.990, 170.0));
    assert FirstTouch(day, Long, 1.007, 8, 12) == 8;
    assert ExtremeBar(day, Long, 2, 8) == 7;
    assert Target(day, Long, 8) == 1.0145;
  }

  /** The live pipeline skips the day; the batch model trades it. */
  ghost predicate LosesTrade(date: int, bars: seq<Bar>) {
    && (forall trade, w :: DayResult(false, Some(Long), date, bars, trade, w) ==> trade.None?)
    && (forall trade, w :: BatchResult(false, Some(Long), date, bars, trade, w) ==> trade.Some?)
    && exists trade, w :: BatchResult(false, Some(Long), date, bars, trade, w)
  }

  lemma RaidedDayLost(from: int, end: int)
    requires MissedLive(false, Some(Long), 0, RaidedDay(from)) && 5 < end <= 12
    requires BatchSession(false, Some(Long), 0, RaidedDay(from)) == Some(Session(Long, 0, end))
    ensures LosesTrade(0, RaidedDay(from))
  {
    hide Fills, RaidedDay, MissedLive, TradeOf;
    var bars, s := RaidedDay(from), Session(Long, 0, end);
    RaidedDayFills(from, end);
    SessionsAgree(false, Some(Long), 0, bars);
    VerdictExists(bars, s);
    var w :| Verdict(bars, s, w);
    assert BatchResult(false, Some(Long), 0, bars, TradeFor(bars, s, w), w);
  }

  /** A day of twelve bars that are too late for 10:00. */
  lemma TooFewByTen(bars: seq<Bar>, end: nat)
    requires |bars| == 12 && end <= 12 && end != 11
    requires FirstAt(bars, KILL_ZONE_START) == 0 && FirstAt(bars, DECISION_READY) == end
    ensures MissedLive(false, Some(Long), 0, bars)
    ensures BatchSession(false, Some(Long), 0, bars) == Some(Session(Long, 0, end))
    ensures DecisionBars(bars, 0) == if end == 12 then None else Some(bars[..end + 1])
  {
    hide FirstAt;
  }

  lemma EveryFive(bars: seq<Bar>, from: int, n: nat)
    requires |bars| == n && 0 <= from && from + 5 * n <= 1440 && forall k :: 0 <= k < n ==> bars[k].time == from + 5 * k
    ensures OfDate(bars, 0) && Increasing(bars)
  {
  }

  /** From 7:00 to 7:55 and no more: the day never reaches 10:00. */
  lemma MissedBeforeTen()
    ensures var bars := RaidedDay(420);
            && OfDate(bars, 0) && Increasing(bars) && MissedLive(false, Some(Long), 0, bars)
            && DecisionBars(bars, 0).None? && LosesTrade(0, bars)
  {
    hide RaidedDay, FirstAt, LosesTrade, MissedLive, BatchSession, DecisionBars, Increasing, OfDate;
    var bars := RaidedDay(420);
    EveryFive(bars, 420, 12);
    FirstAtIs(bars, KILL_ZONE_START, 0);
    FirstAtIs(bars, DECISION_READY, 12);
    TooFewByTen(bars, 12);
    RaidedDayLost(420, 12);
  }

  /** From 9:10 to 10:05: eleven bars had arrived by 10:00. */
  lemma MissedShort()
    ensures var bars := RaidedDay(550);
            && OfDate(bars, 0) && Increasing(bars) && MissedLive(false, Some(Long), 0, bars)
            && DecisionBars(bars, 0).Some? && |DecisionBars(bars, 0).value| == 11 && LosesTrade(0, bars)
  {
    hide RaidedDay, FirstAt, LosesTrade, MissedLive, BatchSession, DecisionBars, Increasing, OfDate;
    var bars := RaidedDay(550);
    EveryFive(bars, 550, 12);
    FirstAtIs(bars, KILL_ZONE_START, 0);
    FirstAtIs(bars, DECISION_READY, 10);
    TooFewByTen(bars, 10);
    RaidedDayLost(550, 10);
  }

  lemma PrefixReady(bars: seq<Bar>, date: int)
    requires DecisionBars(bars, date).Some?
    ensures JustReady(DecisionBars(bars, date).value, date) && DecisionBars(bars, date).value <= bars
  {
  }

  lemma ShortPrefix(fomc: bool, trend: Option<Side>, date: int, bars: seq<Bar>)
    ensures |bars| < MIN_SESSION_BARS ==> Decide(fomc, trend, date, bars).Skip?
  {
  }

  // ---------- polling ----------

  predicate IsClosed(b: Bar, now: int) {
    b.time + BAR_DURATION <= now
  }

  predicate IsNew(b: Bar, last: Option<int>) {
    last.None? || b.time > last.value
  }

  /** The candles that are closed and not yet processed, in order. */
  function NewClosed(candles: seq<Bar>, last: Option<int>, now: int): seq<Bar> {
    if candles == [] then []
    else
      var init := NewClosed(candles[..|candles| - 1], last, now);
      var c := candles[|candles| - 1];
      if IsClosed(c, now) && IsNew(c, last) then init + [c] else init
  }

  /** How many bars of the feed have closed by `now`. */
  function ClosedCount(feed: seq<Bar>, now: int): nat {
    if feed == [] || !IsClosed(feed[0], now) then 0 else 1 + ClosedCount(feed[1..], now)
  }

  lemma {:induction false} ClosedCountIs(feed: seq<Bar>, now: int)
    requires Increasing(feed)
    ensures var n := ClosedCount(feed, now);
            && n <= |feed|
            && (forall x :: 0 <= x < n ==> IsClosed(feed[x], now))
            && (forall x :: n <= x < |feed| ==> !IsClosed(feed[x], now))
  {
    if feed != [] && IsClosed(feed[0], now) {
      var rest := feed[1..];
      assert forall x :: 0 < x < |feed| ==> feed[x] == rest[x - 1];
      ClosedCountIs(rest, now);
    }
  }

  /** A fetch that reaches back to the last processed bar and forward past the last closed one yields exactly the closed
      bars not yet processed. */
  lemma {:induction false} CoveringFetch(feed: seq<Bar>, a: nat, b: nat, done: nat, last: Option<int>, now: int)
    requires Increasing(feed) && a <= done <= b <= |feed| && b <= ClosedCount(feed, now)
    requires last.None? ==> a == done
    requires last.Some? ==> done > 0 && last.value == feed[done - 1].time
    ensures NewClosed(feed[a..b], last, now) == feed[done..b]
  {
    hide ClosedCount, Increasing, IsNew, IsClosed, NewClosed;
    if done < b {
      CoveringFetch(feed, a, b - 1, done, last, now);
      ClosedAndNew(feed, b, done, last, now);
      SliceSnoc(feed, a, b);
      SliceSnoc(feed, done, b);
      NewClosedSnoc(feed[a..b - 1], feed[b - 1], last, now);
    } else {
      SliceIsOld(feed, a, b, last);
      NothingNew(feed[a..b], last, now);
    }
  }

  lemma NewClosedSnoc(candles: seq<Bar>, c: Bar, last: Option<int>, now: int)
    requires IsClosed(c, now) && IsNew(c, last)
    ensures NewClosed(candles + [c], last, now) == NewClosed(candles, last, now) + [c]
  {
    assert (candles + [c])[..|candles|] == candles;
  }

  lemma ClosedAndNew(feed: seq<Bar>, b: nat, done: nat, last: Option<int>, now: int)
    requires Increasing(feed) && done < b <= |feed| && b <= ClosedCount(feed, now)
    requires last.Some? ==> done > 0 && last.value == feed[done - 1].time
    ensures IsNew(feed[b - 1], last) && IsClosed(feed[b - 1], now)
  {
    ClosedCountIs(feed, now);
  }

  lemma SliceIsOld(feed: seq<Bar>, a: nat, b: nat, last: Option<int>)
    requires Increasing(feed) && a <= b <= |feed|
    requires last.None? ==> a == b
    requires last.Some? ==> b > 0 && last.value == feed[b - 1].time
    ensures forall x :: 0 <= x < |feed[a..b]| ==> !IsNew(feed[a..b][x], last)
  {
  }

  lemma SliceSnoc(feed: seq<Bar>, a: nat, b: nat)
    requires a < b <= |feed|
    ensures feed[a..b] != [] && feed[a..b][..b - a - 1] == feed[a..b - 1] && feed[a..b][b - a - 1] == feed[b - 1]
    ensures feed[a..b - 1] + [feed[b - 1]] == feed[a..b]
  {
  }

  lemma {:induction false} NothingNew(candles: seq<Bar>, last: Option<int>, now: int)
    requires forall x :: 0 <= x < |candles| ==> !IsNew(candles[x], last) || !IsClosed(candles[x], now)
    ensures NewClosed(candles, last, now) == []
  {
    if candles != [] { NothingNew(candles[..|candles| - 1], last, now); }
  }

  lemma {:induction false} UnclosedTail(candles: seq<Bar>, tail: seq<Bar>, last: Option<int>, now: int)
    requires forall x :: 0 <= x < |tail| ==> !IsClosed(tail[x], now)
    ensures NewClosed(candles + tail, last, now) == NewClosed(candles, last, now)
  {
    if tail == [] {
      assert candles + tail == candles;
    } else {
      var all := candles + tail;
      assert all[..|all| - 1] == candles + tail[..|tail| - 1];
      UnclosedTail(candles, tail[..|tail| - 1], last, now);
    }
  }

  // ---------- the runner ----------

  function SessionBars(bars: seq<Bar>): seq<Bar> {
    if bars == [] then []
    else
      var rest := SessionBars(bars[..|bars| - 1]);
      var b := bars[|bars| - 1];
      if IsSessionBar(b) then rest + [b] else rest
  }

  lemma {:induction false} SessionBarsOf(bars: seq<Bar>, date: int)
    requires OfDate(bars, date) && Increasing(bars)
    ensures OfDate(SessionBars(bars), date) && Increasing(SessionBars(bars))
    ensures bars == [] ==> SessionBars(bars) == []
    ensures SessionBars(bars) != [] ==> SessionBars(bars)[|SessionBars(bars)| - 1].time <= bars[|bars| - 1].time
  {
    if bars != [] { SessionBarsOf(bars[..|bars| - 1], date); }
  }

  /** A closed day as the trend filter sees it: the extremes of all its bars, whatever their hour. */
  function RangeOf(bars: seq<Bar>): Bar
    requires bars != []
  {
    var b := bars[|bars| - 1];
    if |bars| == 1 then Bar(DateOf(b), b.high, b.low, 0.0)
    else
      var r := RangeOf(bars[..|bars| - 1]);
      Bar(DateOf(b), if r.high < b.high then b.high else r.high, if b.low < r.low then b.low else r.low, 0.0)
  }

  ghost function Ranges(days: seq<seq<Bar>>): (r: seq<Bar>)
    requires NonEmpty(days)
    ensures |r| == |days| && forall k :: 0 <= k < |days| ==> r[k] == RangeOf(days[k])
  {
    seq(|days|, k requires 0 <= k < |days| => RangeOf(days[k]))
  }

  /** The finished days: all bars of each, the simulated trade recorded for it, the search that won and the stored
      events; and the swings the trend filter started with. */
  datatype History = History(seeds: Seeds, days: seq<seq<Bar>>, trades: seq<Option<Trade>>, winners: seq<Option<Key>>,
                             journals: seq<seq<Event>>)

  function NoDays(seeds: Seeds): History {
    History(seeds, [], [], [], [])
  }

  /** Finished day k and what was recorded for it: the engine's verdict on its session bars under the trend of the days
      before it, and its whole journal. */
  ghost predicate Recorded(fomcDates: set<int>, h: History, k: nat)
    requires k < |h.days| == |h.trades| == |h.winners| == |h.journals| && NonEmpty(h.days)
  {
    var date := DateOf(h.days[k][0]);
    && OfDate(h.days[k], date) && Increasing(h.days[k])
    && var trend := SeededTrend(h.seeds, Ranges(h.days), k);
       && DayResult(date in fomcDates, trend, date, SessionBars(h.days[k]), h.trades[k], h.winners[k])
       && h.journals[k] == DayJournal(date in fomcDates, trend, date, SessionBars(h.days[k]), h.winners[k])
  }

  ghost predicate HistoryValid(fomcDates: set<int>, h: History) {
    && |h.days| == |h.trades| == |h.winners| == |h.journals| && NonEmpty(h.days)
    && forall k :: 0 <= k < |h.days| ==> Recorded(fomcDates, h, k)
  }

  ghost function TrendNow(h: History): Option<Side> {
    if NonEmpty(h.days) then SeededTrend(h.seeds, Ranges(h.days), |h.days|) else None
  }

  ghost function RangesNow(h: History): seq<Bar> {
    if NonEmpty(h.days) then Ranges(h.days) else []
  }

  ghost function Extended(h: History, day: seq<Bar>, trade: Option<Trade>, winner: Option<Key>,
                          journal: seq<Event>): History
  {
    History(h.seeds, h.days + [day], h.trades + [trade], h.winners + [winner], h.journals + [journal])
  }

  lemma HistoryStep(fomcDates: set<int>, h: History, day: seq<Bar>, trade: Option<Trade>, winner: Option<Key>,
                    journal: seq<Event>, date: int)
    requires HistoryValid(fomcDates, h) && day != [] && OfDate(day, date) && Increasing(day)
    requires DayResult(date in fomcDates, TrendNow(h), date, SessionBars(day), trade, winner)
    requires journal == DayJournal(date in fomcDates, TrendNow(h), date, SessionBars(day), winner)
    ensures HistoryValid(fomcDates, Extended(h, day, trade, winner, journal))
    ensures RangesNow(Extended(h, day, trade, winner, journal)) == RangesNow(h) + [RangeOf(day)]
  {
    hide DayResult, DayJournal, SeededTrend, OfDate, Increasing, RangeOf, SessionBars;
    var h' := Extended(h, day, trade, winner, journal);
    assert Ranges(h'.days) == Ranges(h.days) + [RangeOf(day)];
    FirstDate(day, date);
    forall k | 0 <= k < |h'.days| ensures Recorded(fomcDates, h', k) {
      SeededCausal(h.seeds, Ranges(h.days), Ranges(h'.days), if k < |h.days| then k else |h.days|);
      if k < |h.days| { assert Recorded(fomcDates, h, k); }
    }
  }

  lemma FirstDate(day: seq<Bar>, date: int)
    requires day != [] && OfDate(day, date)
    ensures DateOf(day[0]) == date
  {
  }

  lemma {:induction false} RangeDate(bars: seq<Bar>, date: int)
    requires bars != [] && OfDate(bars, date)
    ensures RangeOf(bars).time == date && RangeOf(bars).close == 0.0
  {
  }

  /** The day in progress as values: its session bars and the extremes of all its bars. */
  ghost predicate Accumulates(date: int, bars: seq<Bar>, high: Option<real>, low: Option<real>, today: seq<Bar>) {
    && today != [] && OfDate(today, date) && Increasing(today)
    && bars == SessionBars(today)
    && high == Some(RangeOf(today).high) && low == Some(RangeOf(today).low)
  }

  /** A day object that has just been created, or one that accumulates `today`. */
  ghost predicate SoFar(date: int, bars: seq<Bar>, high: Option<real>, low: Option<real>, today: seq<Bar>) {
    if today == [] then bars == [] && high.None? && low.None? else Accumulates(date, bars, high, low, today)
  }

  predicate After(today: seq<Bar>, bar: Bar) {
    today != [] ==> today[|today| - 1].time < bar.time
  }

  /** One more bar of the day: the range always moves on, the session bars only for a session bar. */
  lemma SoFarStep(date: int, bars: seq<Bar>, high: Option<real>, low: Option<real>, today: seq<Bar>, bar: Bar)
    requires SoFar(date, bars, high, low, today) && DateOf(bar) == date && After(today, bar)
    ensures After(bars, bar) && today + [bar] != []
    ensures SoFar(date, if IsSessionBar(bar) then bars + [bar] else bars,
                        Some(if high.None? || high.value < bar.high then bar.high else high.value),
                        Some(if low.None? || bar.low < low.value then bar.low else low.value),
                        today + [bar])
  {
    var today' := today + [bar];
    assert today'[..|today|] == today;
    if today != [] {
      assert forall x :: 0 <= x < |today| ==> today[x].time <= today[|today| - 1].time;
      SessionBarsOf(today, date);
    }
  }

  lemma RangeShape(date: int, bars: seq<Bar>, high: Option<real>, low: Option<real>, today: seq<Bar>)
    requires Accumulates(date, bars, high, low, today)
    ensures high.Some? && low.Some? && Bar(date, high.value, low.value, 0.0) == RangeOf(today)
    ensures today != [] && OfDate(today, date) && Increasing(today) && bars == SessionBars(today)
  {
    RangeDate(today, date);
  }

  /** The first n bars, and no more, were already over by the wall-clock date of the poll that took them. */
  ghost predicate StaleStart(bars: seq<Bar>, wallDates: seq<int>, n: nat) {
    && n <= |bars| == |wallDates|
    && (forall k :: 0 <= k < n ==> DateOf(bars[k]) < wallDates[k])
    && (n < |bars| ==> DateOf(bars[n]) >= wallDates[n])
  }

  class ShadowRunner {
    const gate: DaySelectionGate
    const fomcDates: set<int>
    ghost const seeds: Seeds         // the swings the trend filter was given at start-up
    var current: CurrentDay?
    var last: Option<int>
    var trades: seq<Option<Trade>>   // the simulated result of each finished day
    var journals: seq<seq<Event>>    // the engine events stored for each finished day
    ghost var history: History
    ghost var today: seq<Bar>        // all bars of the day in progress
    ghost var stale: seq<Bar>        // bars ignored on a cold start because their day was already over
    ghost var wallDates: seq<int>    // for each bar taken, the wall-clock date of the poll that took it

    ghost var Repr: set<object>      // the objects the runner owns

    ghost predicate Owns()
      reads this, Repr
    {
      && this in Repr && gate in Repr && gate.detector in Repr
      && (current != null ==>
        && current in Repr
        && (current.engine != null ==> current.engine in Repr)
        && current.Repr() <= Repr
        && {this, gate, gate.detector} !! current.Repr())
    }

    ghost predicate DayValid()
      reads this, Repr
      requires Owns()
    {
      if current == null then today == []
      else
        && SoFar(current.date, current.bars, current.dayHigh, current.dayLow, today)
        && current.Valid(current.date in fomcDates, TrendNow(history))
    }

    ghost predicate Valid()
      reads this, Repr
    {
      && Owns()
      && HistoryValid(fomcDates, history) && history.seeds == seeds
      && trades == history.trades && journals == history.journals
      && gate.Tracks(RangesNow(history), history.seeds.highs, history.seeds.lows)
      && DayValid()
    }

    /** A new runner whose trend filter has been given these swings at start-up. */
    constructor (fomcDates: set<int>, seeds: Seeds)
      ensures Valid() && fresh(Repr) && this.fomcDates == fomcDates && this.seeds == seeds
      ensures current == null && last.None? && history == NoDays(seeds) && today == [] && stale == []
      ensures wallDates == []
    {
      gate := new DaySelectionGate();
      this.fomcDates, this.seeds, current, last, trades, journals := fomcDates, seeds, null, None, [], [];
      history, today, stale, wallDates := NoDays(seeds), [], [], [];
      new;
      gate.SeedTrendHistory(seeds.highs, seeds.lows);
      Repr := {this, gate, gate.detector};
    }

    /** The gate's own trend is the trend of the finished days. */
    lemma GateTrend()
      requires gate.Tracks(RangesNow(history), history.seeds.highs, history.seeds.lows)
      requires HistoryValid(fomcDates, history)
      ensures gate.TrendForToday() == TrendNow(history)
    {
      hide Recorded, DaySelectionGate.Tracks;
      GateIsSeeded(gate, history.seeds, RangesNow(history));
    }

    /** Rollover: records the day's trade and journal and hands the day's range to the trend filter. */
    method FinalizeDay()
      requires Valid() && current != null && today != []
      modifies Repr
      ensures Valid() && current == null && today == [] && last == old(last) && stale == old(stale)
      ensures wallDates == old(wallDates)
      ensures fresh(Repr - old(Repr))
      ensures history.days == old(history.days) + [old(today)] && Processed() == old(Processed())
    {
      FlattenStep(stale, history.days, today);
      hide Flatten, HistoryValid, DaySelectionGate.Tracks, CurrentDay.Valid, DayResult, DayJournal, Accumulates,
           Extended, TrendNow, RangesNow, SessionBars, RangeOf, OfDate, Increasing, TrendFrom;
      GateTrend();
      var cd := current;
      RangeShape(cd.date, cd.bars, cd.dayHigh, cd.dayLow, today);
      var trade;
      ghost var winner;
      trade, winner := cd.Finalize(cd.date in fomcDates, gate.TrendForToday());
      var events := gate.OnDayClosed(Bar(cd.date, cd.dayHigh.value, cd.dayLow.value, 0.0), RangesNow(history),
                                    history.seeds.highs, history.seeds.lows);
      HistoryStep(fomcDates, history, today, trade, winner, cd.written, cd.date);
      Append(history, today, trade, winner, cd.written);
      trades, journals := trades + [trade], journals + [cd.written];
      history := Extended(history, today, trade, winner, cd.written);
      current, today := null, [];
    }

    lemma Append(h: History, day: seq<Bar>, trade: Option<Trade>, winner: Option<Key>, journal: seq<Event>)
      ensures Extended(h, day, trade, winner, journal).trades == h.trades + [trade]
      ensures Extended(h, day, trade, winner, journal).journals == h.journals + [journal]
      ensures Extended(h, day, trade, winner, journal).days == h.days + [day]
      ensures Extended(h, day, trade, winner, journal).seeds == h.seeds
    {
    }

    /** Every bar taken from the feed so far, in order: stale ones, those of finished days, those of today. */
    ghost function Processed(): seq<Bar>
      reads this
    {
      stale + Flatten(history.days) + today
    }

    method StartDay(date: int)
      requires Valid() && current == null
      modifies Repr
      ensures Valid() && current != null && current.date == date && fresh(Repr - old(Repr))
      ensures today == old(today) && last == old(last) && stale == old(stale) && history == old(history)
      ensures wallDates == old(wallDates) && Processed() == old(Processed())
    {
      hide HistoryValid, DaySelectionGate.Tracks, TrendNow, RangesNow, Accumulates, CurrentDay.Valid;
      current := new CurrentDay(date, date in fomcDates, TrendNow(history));
      Repr := Repr + current.Repr();
    }

    /** The day in progress takes a bar. */
    method FeedCurrent(bar: Bar)
      requires Valid() && current != null && current.date == DateOf(bar) && After(today, bar)
      modifies current.Repr()
      ensures {this, gate, gate.detector} !! current.Repr() && fresh(current.Repr() - old(current.Repr()))
      ensures current.date == old(current.date)
      ensures SoFar(current.date, current.bars, current.dayHigh, current.dayLow, today + [bar])
      ensures current.Valid(current.date in fomcDates, TrendNow(history))
    {
      hide HistoryValid, DaySelectionGate.Tracks, CurrentDay.Valid, Accumulates, SoFar, TrendNow, RangesNow,
           IsSessionBar, TrendFrom, After, DateOf;
      GateTrend();
      var cd := current;
      SoFarStep(cd.date, cd.bars, cd.dayHigh, cd.dayLow, today, bar);
      cd.TakeBar(bar, cd.date in fomcDates, gate.TrendForToday());
    }

    /** A bar of the day in progress. */
    method FeedDay(bar: Bar, ghost wallDate: int)
      requires Valid() && current != null && current.date == DateOf(bar) && After(today, bar)
      modifies Repr
      ensures Valid() && current == old(current) && today == old(today) + [bar] && last == Some(bar.time)
      ensures stale == old(stale) && history == old(history) && wallDates == old(wallDates) + [wallDate]
      ensures fresh(Repr - old(Repr))
    {
      hide HistoryValid, DaySelectionGate.Tracks, CurrentDay.Valid, SoFar, TrendNow, RangesNow, After, DateOf,
           CurrentDay.Repr;
      FeedCurrent(bar);
      current.InRepr();
      today, last, wallDates := today + [bar], Some(bar.time), wallDates + [wallDate];
      Repr := Repr + current.Repr();
    }

    /** The bars taken so far are in increasing time order and `last` is the newest; the stale ones are exactly the
        initial bars whose date was over when they were taken; and the days are the others, split by date. */
    ghost predicate Ordered()
      reads this
    {
      && Increasing(Processed())
      && last == LastTime(Processed())
      && StaleStart(Processed(), wallDates, |stale|)
      && (current == null ==> history.days == [] && today == [])
      && (current != null ==> history.days + [today] == ByDate(Processed()[|stale|..]))
    }

    /** The day of `bar` is in progress: a day of another date is finished first. */
    method OpenDay(bar: Bar)
      requires Valid() && (current != null ==> today != []) && After(today, bar)
      modifies Repr
      ensures Valid() && current != null && current.date == DateOf(bar) && fresh(Repr - old(Repr))
      ensures stale == old(stale) && last == old(last) && wallDates == old(wallDates)
      ensures Processed() == old(Processed()) && After(today, bar)
      ensures history.days + [today + [bar]] == old(WithBar(bar))
    {
      hide ShadowRunner.Valid, Processed, DateOf;
      Today();
      assert [] + [bar] == [bar];
      if current != null && DateOf(bar) != current.date {
        FinalizeDay();
      }
      if current == null {
        StartDay(DateOf(bar));
      }
    }

    /** The finished days and the one in progress once `bar` has been added. */
    ghost function WithBar(bar: Bar): seq<seq<Bar>>
      reads this, current
    {
      if current == null then history.days + [[bar]]
      else if DateOf(bar) == current.date then history.days + [today + [bar]]
      else history.days + [today] + [[bar]]
    }

    /** One closed bar: rollover first, then the day's range, then the session. */
    method ProcessBar(bar: Bar, wallDate: int)
      requires Valid() && Ordered() && IsNew(bar, last)
      modifies Repr
      ensures Valid() && Ordered() && fresh(Repr - old(Repr))
      ensures Processed() == old(Processed()) + [bar] && wallDates == old(wallDates) + [wallDate]
    {
      hide ShadowRunner.Valid, Increasing, DateOf, StaleStart, ByDate, WithBar, After;
      ghost var before := Processed();
      OrderStep(before, bar, last);
      AfterLast(bar);
      Layout();
      SplitsAt(bar);
      if current == null && DateOf(bar) < wallDate {
        Ignore(bar, wallDate);
        return;
      }
      OpenDay(bar);
      FeedDay(bar, wallDate);
      Taken(before, old(wallDates), bar, wallDate);
    }

    /** How the next bar changes the split into days. */
    lemma SplitsAt(bar: Bar)
      requires Valid() && Ordered()
      ensures ByDate(Processed()[|stale|..] + [bar]) == WithBar(bar)
    {
      hide ByDate, HistoryValid, DayValid, Increasing, StaleStart, DateOf;
      Layout();
      if current == null {
        assert Processed()[|stale|..] + [bar] == [bar];
        ByDateOne(bar);
      } else {
        Today();
        ByDateSplit(Processed()[|stale|..], history.days, today, bar);
      }
    }

    /** The bar just fed to the day in progress has been taken in order. */
    lemma Taken(before: seq<Bar>, walls: seq<int>, bar: Bar, wallDate: int)
      requires current != null && last == Some(bar.time) && Processed() == before + [bar] && Increasing(before + [bar])
      requires |stale| <= |before| == |walls| && wallDates == walls + [wallDate] && StaleStart(before, walls, |stale|)
      requires history.days + [today] == ByDate(before[|stale|..] + [bar])
      requires |stale| < |before| || wallDate <= DateOf(bar)
      ensures Ordered()
    {
      hide Increasing, DateOf, StaleStart, ByDate;
      StaleMore(before, walls, |stale|, bar, wallDate);
      assert (before + [bar])[|stale|..] == before[|stale|..] + [bar];
    }

    /** The date of the day in progress is that of its bars. */
    lemma Today()
      requires Valid()
      ensures current != null && today != [] ==> DateOf(today[0]) == current.date
      ensures current == null ==> today == []
    {
    }

    /** The finished days and the one in progress are whole days: each is all bars of its date that were not stale. */
    lemma DaysAreWhole(k: nat, b: Bar)
      requires Ordered() && current != null && k < |history.days + [today]|
      ensures AreDays(Processed()[|stale|..], history.days + [today])
      ensures b in (history.days + [today])[k] <==>
                b in Processed()[|stale|..] && DateOf(b) == DateOfDay(history.days + [today], k)
    {
      hide ByDate;
      var bars := Processed()[|stale|..];
      assert Increasing(bars);
      ByDateIsDays(bars);
      WholeDay(bars, history.days + [today], k, b);
    }

    lemma Layout()
      requires Ordered()
      ensures |Processed()| == |wallDates| && |stale| <= |Processed()| && stale == Processed()[..|stale|]
      ensures current == null ==> Processed() == stale && Processed()[|stale|..] == []
      ensures current != null ==> today != []
    {
      if current != null {
        var days := history.days + [today];
        assert days[|history.days|] == today;
      }
    }

    method Ignore(bar: Bar, wallDate: int)
      requires Valid() && Ordered() && current == null && Increasing(Processed() + [bar]) && DateOf(bar) < wallDate
      modifies Repr
      ensures Valid() && Ordered() && fresh(Repr - old(Repr)) && Processed() == old(Processed()) + [bar]
      ensures wallDates == old(wallDates) + [wallDate]
    {
      hide HistoryValid, DaySelectionGate.Tracks, TrendNow, RangesNow, Increasing, DateOf, ByDate;
      Layout();
      StaleAll(stale, wallDates, bar, wallDate);
      stale, last, wallDates := stale + [bar], Some(bar.time), wallDates + [wallDate];
      assert stale + Flatten([]) + [] == stale;
      assert old(stale) + Flatten([]) + [] == old(stale);
    }

    lemma AfterLast(bar: Bar)
      requires Ordered() && IsNew(bar, last)
      ensures After(today, bar)
    {
      if today != [] {
        var p := Processed();
        assert p[|p| - 1] == today[|today| - 1];
      }
    }

    /** One poll: the closed candles newer than the last processed one, each exactly once, oldest first. */
    method Poll(candles: seq<Bar>, now: int, wallDate: int)
      requires Valid() && Ordered() && Increasing(candles)
      modifies Repr
      ensures Valid() && Ordered() && fresh(Repr - old(Repr))
      ensures Processed() == old(Processed()) + NewClosed(candles, old(last), now)
      ensures wallDates == old(wallDates) + Repeat(wallDate, |NewClosed(candles, old(last), now)|)
      ensures last == LastTime(Processed())
    {
      hide ShadowRunner.Valid, ShadowRunner.Processed, Increasing, NewClosed, IsNew, IsClosed, StaleStart, ByDate;
      var fresh0 := FilterNewClosed(candles, last, now);
      NewClosedSorted(candles, last, now);
      ghost var before, last0, walls := Processed(), last, wallDates;
      var k := 0;
      assert before + fresh0[..0] == before;
      while k < |fresh0|
        invariant 0 <= k <= |fresh0|
        invariant Valid() && Ordered() && fresh(Repr - old(Repr))
        invariant Processed() == before + fresh0[..k] && wallDates == walls + Repeat(wallDate, k)
      {
        StillNew(before, fresh0, k, last0);
        assert fresh0[..k + 1] == fresh0[..k] + [fresh0[k]];
        ProcessBar(fresh0[k], wallDate);
        k := k + 1;
      }
      assert fresh0[..k] == fresh0;
    }

    lemma Unstarted()
      requires current == null && last.None? && history == NoDays(history.seeds) && today == [] && stale == []
      requires wallDates == []
      ensures Ordered() && Processed() == [] && last == LastTime(Processed())
    {
    }

    lemma HistoryOf()
      requires Valid()
      ensures HistoryValid(fomcDates, history) && history.seeds == seeds
      ensures trades == history.trades && journals == history.journals
    {
    }

    lemma StillNew(before: seq<Bar>, bars: seq<Bar>, k: nat, last0: Option<int>)
      requires Ordered() && k < |bars| && Processed() == before + bars[..k] && last0 == LastTime(before)
      requires Increasing(bars) && forall x :: 0 <= x < |bars| ==> IsNew(bars[x], last0)
      ensures IsNew(bars[k], last)
    {
    }
  }

  function Repeat(x: int, n: nat): (r: seq<int>)
    ensures |r| == n && forall k :: 0 <= k < n ==> r[k] == x
  {
    seq(n, k => x)
  }

  lemma StaleMore(bars: seq<Bar>, wallDates: seq<int>, n: nat, bar: Bar, wallDate: int)
    requires StaleStart(bars, wallDates, n) && (n < |bars| || DateOf(bar) >= wallDate)
    ensures StaleStart(bars + [bar], wallDates + [wallDate], n)
  {
  }

  lemma StaleAll(bars: seq<Bar>, wallDates: seq<int>, bar: Bar, wallDate: int)
    requires StaleStart(bars, wallDates, |bars|) && DateOf(bar) < wallDate
    ensures StaleStart(bars + [bar], wallDates + [wallDate], |bars| + 1)
  {
  }

  function LastTime(bars: seq<Bar>): Option<int> {
    if bars == [] then None else Some(bars[|bars| - 1].time)
  }

  lemma OrderStep(bars: seq<Bar>, bar: Bar, last: Option<int>)
    requires Increasing(bars) && last == LastTime(bars) && IsNew(bar, last)
    ensures Increasing(bars + [bar]) && LastTime(bars + [bar]) == Some(bar.time)
  {
  }

  lemma FlattenStep(stale: seq<Bar>, days: seq<seq<Bar>>, today: seq<Bar>)
    ensures stale + Flatten(days + [today]) + [] == stale + Flatten(days) + today
  {
    var days' := days + [today];
    assert days'[..|days|] == days;
  }

  method FilterNewClosed(candles: seq<Bar>, last: Option<int>, now: int) returns (out: seq<Bar>)
    ensures out == NewClosed(candles, last, now)
  {
    out := [];
    var k := 0;
    while k < |candles|
      invariant 0 <= k <= |candles| && out == NewClosed(candles[..k], last, now)
    {
      assert candles[..k + 1][..k] == candles[..k];
      if IsClosed(candles[k], now) && IsNew(candles[k], last) {
        out := out + [candles[k]];
      }
      k := k + 1;
    }
    assert candles[..k] == candles;
  }

  /** Filtering keeps the order, so sorting the result again changes nothing. */
  lemma {:induction false} NewClosedSorted(candles: seq<Bar>, last: Option<int>, now: int)
    requires Increasing(candles)
    ensures var r := NewClosed(candles, last, now);
            && Increasing(r)
            && (forall x :: 0 <= x < |r| ==> IsNew(r[x], last) && IsClosed(r[x], now))
            && (r != [] ==> r[|r| - 1].time <= candles[|candles| - 1].time)
  {
    if candles != [] { NewClosedSorted(candles[..|candles| - 1], last, now); }
  }

  // ---------- a whole run ----------

  /** One poll of a run: bars a..b of the feed are fetched at wall-clock minute `now`. */
  datatype Fetch = Fetch(a: nat, b: nat, now: int, wallDate: int)

  /** How many bars of the feed had closed at poll k. */
  function ClosedAt(feed: seq<Bar>, fetches: seq<Fetch>, k: nat): nat
    requires k < |fetches|
  {
    ClosedCount(feed, fetches[k].now)
  }

  /** The first poll, from k on, whose fetch holds a closed bar; the number of polls if there is none. */
  function FirstTaking(feed: seq<Bar>, fetches: seq<Fetch>, k: nat): (m: nat)
    requires k <= |fetches|
    ensures k <= m <= |fetches| && (m < |fetches| ==> fetches[m].a < ClosedAt(feed, fetches, m))
    ensures forall j :: k <= j < m ==> fetches[j].a >= ClosedAt(feed, fetches, j)
    decreases |fetches| - k
  {
    if k == |fetches| || fetches[k].a < ClosedAt(feed, fetches, k) then k else FirstTaking(feed, fetches, k + 1)
  }

  /** Every fetch includes all bars closed at its own poll, the clock never turns back, and once a bar has been taken
      each fetch reaches back to the bars closed at the previous poll. */
  ghost predicate Covers(feed: seq<Bar>, fetches: seq<Fetch>) {
    forall k :: 0 <= k < |fetches| ==> CoversAt(feed, fetches, k)
  }

  ghost predicate CoversAt(feed: seq<Bar>, fetches: seq<Fetch>, k: nat)
    requires k < |fetches|
  {
    var f := fetches[k];
    && f.a <= f.b <= |feed|
    && ClosedAt(feed, fetches, k) <= f.b
    && (k > 0 ==> ClosedAt(feed, fetches, k - 1) <= ClosedAt(feed, fetches, k))
    && (k > FirstTaking(feed, fetches, 0) ==> f.a <= ClosedAt(feed, fetches, k - 1))
  }

  /** The poll, from k on, by which bar i of the feed has closed. */
  function TakenBy(feed: seq<Bar>, fetches: seq<Fetch>, k: nat, i: nat): (m: nat)
    requires k <= |fetches|
    ensures k <= m <= |fetches| && (m < |fetches| ==> i < ClosedAt(feed, fetches, m))
    ensures forall j :: k <= j < m ==> ClosedAt(feed, fetches, j) <= i
    decreases |fetches| - k
  {
    if k == |fetches| || i < ClosedAt(feed, fetches, k) then k else TakenBy(feed, fetches, k + 1, i)
  }

  /** What the runner has taken after n polls: nothing before the first poll whose fetch holds a closed bar, then every
      bar from the start of that fetch to the last closed one, with the wall-clock date of the poll that took it. */
  ghost predicate TakenAfter(feed: seq<Bar>, fetches: seq<Fetch>, n: nat, bars: seq<Bar>, wallDates: seq<int>)
    requires n <= |fetches|
  {
    var k0 := FirstTaking(feed, fetches, 0);
    if n <= k0 then bars == [] && wallDates == []
    else
      && fetches[k0].a < ClosedAt(feed, fetches, n - 1) <= |feed|
      && bars == feed[fetches[k0].a..ClosedAt(feed, fetches, n - 1)]
      && |wallDates| == |bars|
      && forall i :: fetches[k0].a <= i < ClosedAt(feed, fetches, n - 1) ==>
           TakenBy(feed, fetches, k0, i) < n
           && wallDates[i - fetches[k0].a] == fetches[TakenBy(feed, fetches, k0, i)].wallDate
  }

  /** Under covering fetches the runner takes every bar from the first one offered to the last one closed, each once and
      in increasing order; ignores exactly the initial ones whose date was over when they were taken; splits the others
      into days by date; and records for every finished day the engine's verdict and journal on its session bars. */
  method Run(feed: seq<Bar>, fetches: seq<Fetch>, fomcDates: set<int>, seeds: Seeds) returns (runner: ShadowRunner)
    requires Increasing(feed) && Covers(feed, fetches)
    ensures runner.Valid() && runner.Ordered() && runner.fomcDates == fomcDates
    ensures TakenAfter(feed, fetches, |fetches|, runner.Processed(), runner.wallDates)
    ensures HistoryValid(fomcDates, runner.history) && runner.history.seeds == seeds
    ensures runner.trades == runner.history.trades && runner.journals == runner.history.journals
  {
    hide ShadowRunner.DayValid, ShadowRunner.Processed, ShadowRunner.Ordered, ShadowRunner.Valid,
         HistoryValid, Covers, ClosedCount, NewClosed, Increasing, TakenAfter;
    runner := new ShadowRunner(fomcDates, seeds);
    runner.Unstarted();
    NothingTaken(feed, fetches);
    var k := 0;
    while k < |fetches|
      invariant 0 <= k <= |fetches|
      invariant runner.fomcDates == fomcDates && runner.seeds == seeds && fresh(runner) && fresh(runner.Repr)
      invariant runner.Valid() && runner.Ordered() && runner.last == LastTime(runner.Processed())
      invariant TakenAfter(feed, fetches, k, runner.Processed(), runner.wallDates)
    {
      var f := fetches[k];
      FetchYields(feed, fetches, k, runner.Processed(), runner.wallDates);
      runner.Poll(feed[f.a..f.b], f.now, f.wallDate);
      k := k + 1;
    }
    runner.HistoryOf();
  }

  lemma NothingTaken(feed: seq<Bar>, fetches: seq<Fetch>)
    ensures TakenAfter(feed, fetches, 0, [], [])
  {
  }

  lemma SliceIncreasing(feed: seq<Bar>, a: nat, b: nat)
    requires Increasing(feed) && a <= b <= |feed|
    ensures Increasing(feed[a..b])
  {
  }

  /** One covering fetch adds exactly the bars closed since the previous poll. */
  lemma FetchYields(feed: seq<Bar>, fetches: seq<Fetch>, k: nat, bars: seq<Bar>, wallDates: seq<int>)
    requires Increasing(feed) && Covers(feed, fetches) && k < |fetches|
    requires TakenAfter(feed, fetches, k, bars, wallDates)
    ensures var f := fetches[k];
            && f.a <= f.b <= |feed| && Increasing(feed[f.a..f.b])
            && var more := NewClosed(feed[f.a..f.b], LastTime(bars), f.now);
               TakenAfter(feed, fetches, k + 1, bars + more, wallDates + Repeat(f.wallDate, |more|))
  {
    hide ClosedCount, NewClosed, FirstTaking, TakenBy;
    assert CoversAt(feed, fetches, k);
    var f, k0 := fetches[k], FirstTaking(feed, fetches, 0);
    var n := ClosedAt(feed, fetches, k);
    SliceIncreasing(feed, f.a, f.b);
    ClosedCountIs(feed, f.now);
    if k < k0 {
      NothingNew(feed[f.a..f.b], None, f.now);
    } else {
      var start := fetches[k0].a;
      var done := if k == k0 then start else ClosedAt(feed, fetches, k - 1);
      CoveringFetch(feed, f.a, n, done, LastTime(bars), f.now);
      UnclosedTail(feed[f.a..n], feed[n..f.b], LastTime(bars), f.now);
      assert feed[f.a..n] + feed[n..f.b] == feed[f.a..f.b];
      assert bars == feed[start..done] && feed[start..done] + feed[done..n] == feed[start..n];
      forall i | start <= i < n
        ensures TakenBy(feed, fetches, k0, i) <= k && (i >= done ==> TakenBy(feed, fetches, k0, i) == k)
      {
        TakenNow(feed, fetches, k0, k, i);
      }
    }
  }

  /** A bar that has closed by poll k is taken by then, and by none before if it had not closed. */
  lemma TakenNow(feed: seq<Bar>, fetches: seq<Fetch>, k0: nat, k: nat, i: nat)
    requires Covers(feed, fetches) && k0 <= k < |fetches| && i < ClosedAt(feed, fetches, k)
    ensures TakenBy(feed, fetches, k0, i) <= k
    ensures k == k0 || ClosedAt(feed, fetches, k - 1) <= i ==> TakenBy(feed, fetches, k0, i) == k
  {
    hide ClosedCount;
    var m := TakenBy(feed, fetches, k0, i);
    if m < k { ClosedGrows(feed, fetches, m, k - 1); }
  }

  lemma {:induction false} ClosedGrows(feed: seq<Bar>, fetches: seq<Fetch>, j: nat, k: nat)
    requires Covers(feed, fetches) && j <= k < |fetches|
    ensures ClosedAt(feed, fetches, j) <= ClosedAt(feed, fetches, k)
  {
    hide ClosedCount;
    if j < k {
      ClosedGrows(feed, fetches, j, k - 1);
      assert CoversAt(feed, fetches, k);
    }
  }
}
