/** The live pipeline in clock times and prices: what a day's session is, which bars are taken, and what is recorded
    for a finished day. */
module PlainLive {
  import opened Market
  import opened FvgModel
  import opened Calendar
  import opened DailyTrend
  import opened PlainDay
  import opened Journal
  import opened PlainJournal
  import opened LiveRunner

  // ---------- the decision ----------

  /** Bar k is the first at or after a minute of the date; k is the number of bars if there is none. */
  ghost predicate FirstFrom(bars: seq<Bar>, date: int, minute: int, k: int) {
    && 0 <= k <= |bars|
    && (forall x :: 0 <= x < k ==> bars[x].time < date * 1440 + minute)
    && (k < |bars| ==> bars[k].time >= date * 1440 + minute)
  }

  lemma FirstFromIs(bars: seq<Bar>, date: int, minute: int, k: int)
    ensures FirstFrom(bars, date, minute, k) <==> k == FirstAt(bars, date * 1440 + minute)
  {
    hide FirstAt;
    if FirstFrom(bars, date, minute, k) { FirstAtIs(bars, date * 1440 + minute, k); }
  }

  /** A list of session bars is accepted on any day but an FOMC day, with a trend, at least twelve bars and one at or
      after 7:00; raids count from the first bar at or after 7:00 up to the first at or after 10:00. */
  lemma AcceptedMeans(fomc: bool, trend: Option<Side>, date: int, bars: seq<Bar>, s: Session)
    ensures Decide(fomc, trend, date, bars) == Tradeable(s) <==>
            && !fomc && trend == Some(s.side) && |bars| >= 12
            && FirstFrom(bars, date, 420, s.start) && s.start < |bars| && FirstFrom(bars, date, 600, s.end)
  {
    hide FirstAt;
    FirstFromIs(bars, date, 420, s.start);
    FirstFromIs(bars, date, 600, s.end);
  }

  /** Why a list is skipped, the first reason that applies. */
  lemma SkippedMeans(fomc: bool, trend: Option<Side>, date: int, bars: seq<Bar>)
    ensures Decide(fomc, trend, date, bars) == Skip(Fomc) <==> fomc
    ensures Decide(fomc, trend, date, bars) == Skip(NoTrend) <==> !fomc && trend.None?
    ensures Decide(fomc, trend, date, bars) == Skip(InsufficientBars) <==> !fomc && trend.Some? && |bars| < 12
    ensures Decide(fomc, trend, date, bars) == Skip(NoSessionStart) <==>
            !fomc && trend.Some? && |bars| >= 12 && forall x :: 0 <= x < |bars| ==> bars[x].time < date * 1440 + 420
  {
    hide FirstAt;
    FirstFromIs(bars, date, 420, |bars|);
  }

  /** The day's live session: decided at the first bar at or after 10:00, on the bars up to and including it. */
  ghost predicate IsLiveSession(fomc: bool, trend: Option<Side>, date: int, bars: seq<Bar>, s: Session) {
    && !fomc && trend == Some(s.side)
    && FirstFrom(bars, date, 600, s.end) && s.end < |bars| && s.end + 1 >= 12
    && FirstFrom(bars, date, 420, s.start)
  }

  lemma LiveSessionMeans(fomc: bool, trend: Option<Side>, date: int, bars: seq<Bar>, s: Session)
    ensures LiveSession(fomc, trend, date, bars) == Some(s) <==> IsLiveSession(fomc, trend, date, bars, s)
  {
    hide FirstAt;
    var end := FirstAt(bars, date * 1440 + 600);
    FirstFromIs(bars, date, 600, s.end);
    FirstFromIs(bars, date, 420, s.start);
    if end < |bars| {
      var prefix := bars[..end + 1];
      FirstAtPrefix(prefix, bars, date * 1440 + 420);
      FirstAtPrefix(prefix, bars, date * 1440 + 600);
      AcceptedMeans(fomc, trend, date, prefix, s);
      FirstFromIs(prefix, date, 600, end);
      FirstFromIs(prefix, date, 420, FirstAt(bars, date * 1440 + 420));
      FirstFromIs(prefix, date, 600, s.end);
      FirstFromIs(prefix, date, 420, s.start);
    }
  }

  // ---------- bars ----------

  /** A bar's date and clock are the days and minutes of its time. */
  lemma ClockMeans(b: Bar)
    ensures b.time == 1440 * DateOf(b) + ClockOf(b) && 0 <= ClockOf(b) < 1440
  {
  }

  /** The session bars are those from 5:00 on and before 17:00, in order: bar k of the list is the session bar with k
      session bars before it. */
  lemma {:induction false} SessionBarsMean(bars: seq<Bar>, b: Bar)
    ensures b in SessionBars(bars) <==> b in bars && 300 <= b.time % 1440 < 1020
    ensures Increasing(bars) ==> Increasing(SessionBars(bars))
  {
    if bars != [] {
      var init, last := bars[..|bars| - 1], bars[|bars| - 1];
      SessionBarsMean(init, b);
      assert bars == init + [last];
      if Increasing(bars) { SessionBarsBefore(init, last); }
    }
  }

  lemma {:induction false} SessionBarsBefore(bars: seq<Bar>, last: Bar)
    requires forall x :: 0 <= x < |bars| ==> bars[x].time < last.time
    ensures forall x :: 0 <= x < |SessionBars(bars)| ==> SessionBars(bars)[x].time < last.time
  {
    if bars != [] { SessionBarsBefore(bars[..|bars| - 1], last); }
  }

  /** A day's range: the highest high and the lowest low of all its bars. */
  lemma {:induction false} RangeMeans(bars: seq<Bar>)
    requires bars != []
    ensures forall x :: 0 <= x < |bars| ==> RangeOf(bars).low <= bars[x].low && bars[x].high <= RangeOf(bars).high
    ensures exists x :: 0 <= x < |bars| && bars[x].high == RangeOf(bars).high
    ensures exists x :: 0 <= x < |bars| && bars[x].low == RangeOf(bars).low
  {
    var n := |bars| - 1;
    if n > 0 {
      RangeMeans(bars[..n]);
      var init := bars[..n];
      var x :| 0 <= x < |init| && init[x].high == RangeOf(init).high;
      var y :| 0 <= y < |init| && init[y].low == RangeOf(init).low;
      assert bars[x].high == RangeOf(init).high && bars[y].low == RangeOf(init).low;
      assert bars[n].high == RangeOf(bars).high || bars[x].high == RangeOf(bars).high;
      assert bars[n].low == RangeOf(bars).low || bars[y].low == RangeOf(bars).low;
    } else {
      assert bars[0].high == RangeOf(bars).high && bars[0].low == RangeOf(bars).low;
    }
  }

  /** Of an increasing feed the bars closed at a poll are those that opened at least five minutes before. */
  lemma ClosedMeans(feed: seq<Bar>, fetches: seq<Fetch>, k: nat, i: nat)
    requires Increasing(feed) && k < |fetches| && i < |feed|
    ensures i < ClosedAt(feed, fetches, k) <==> feed[i].time + 5 <= fetches[k].now
  {
    ClosedCountIs(feed, fetches[k].now);
  }

  // ---------- the trend ----------

  /** The last two swing highs of the days whose two following days have closed before day c. */
  ghost predicate LastHighs(days: seq<Bar>, h1: nat, h2: nat, c: int) {
    && High(days, h1) && High(days, h2) && h1 < h2 && h2 + 2 < c
    && forall m :: h1 < m && m + 2 < c && m != h2 ==> !High(days, m)
  }

  ghost predicate LastLows(days: seq<Bar>, l1: nat, l2: nat, c: int) {
    && Low(days, l1) && Low(days, l2) && l1 < l2 && l2 + 2 < c
    && forall m :: l1 < m && m + 2 < c && m != l2 ==> !Low(days, m)
  }

  /** The last swing high is above (below) the one before. */
  ghost predicate HighsRise(days: seq<Bar>, c: int) {
    exists h1: nat, h2: nat :: LastHighs(days, h1, h2, c) && days[h1].high < days[h2].high
  }

  ghost predicate HighsFall(days: seq<Bar>, c: int) {
    exists h1: nat, h2: nat :: LastHighs(days, h1, h2, c) && days[h1].high > days[h2].high
  }

  ghost predicate LowsRise(days: seq<Bar>, c: int) {
    exists l1: nat, l2: nat :: LastLows(days, l1, l2, c) && days[l1].low < days[l2].low
  }

  ghost predicate LowsFall(days: seq<Bar>, c: int) {
    exists l1: nat, l2: nat :: LastLows(days, l1, l2, c) && days[l1].low > days[l2].low
  }

  /** The trend is up when both swing highs and swing lows rise, down when both fall, and otherwise there is none. */
  lemma TrendMeans(days: seq<Bar>, c: int)
    ensures TrendAt(days, c) == Some(Long) <==> HighsRise(days, c) && LowsRise(days, c)
    ensures TrendAt(days, c) == Some(Short) <==> HighsFall(days, c) && LowsFall(days, c)
  {
    hide PreviousPivot, LatestPivot, IsPivot, HighsRise, HighsFall, LowsRise, LowsFall;
    HighsMove(days, c);
    LowsMove(days, c);
  }

  lemma HighsMove(days: seq<Bar>, c: int)
    ensures var h1, h2 := PreviousPivot(days, Top, c - 2), LatestPivot(days, Top, c - 2);
            && (h1 >= 0 ==> 0 <= h2 < |days| && h1 < |days|)
            && (HighsRise(days, c) <==> h1 >= 0 && days[h1].high < days[h2].high)
            && (HighsFall(days, c) <==> h1 >= 0 && days[h1].high > days[h2].high)
  {
    hide PreviousPivot, LatestPivot, IsPivot, LastHighs;
    HighsAre(days, c);
    var h1, h2 := PreviousPivot(days, Top, c - 2), LatestPivot(days, Top, c - 2);
    if h1 >= 0 { assert LastHighs(days, h1, h2, c); }
  }

  lemma LowsMove(days: seq<Bar>, c: int)
    ensures var l1, l2 := PreviousPivot(days, Bottom, c - 2), LatestPivot(days, Bottom, c - 2);
            && (l1 >= 0 ==> 0 <= l2 < |days| && l1 < |days|)
            && (LowsRise(days, c) <==> l1 >= 0 && days[l1].low < days[l2].low)
            && (LowsFall(days, c) <==> l1 >= 0 && days[l1].low > days[l2].low)
  {
    hide PreviousPivot, LatestPivot, IsPivot, LastLows;
    LowsAre(days, c);
    var l1, l2 := PreviousPivot(days, Bottom, c - 2), LatestPivot(days, Bottom, c - 2);
    if l1 >= 0 { assert LastLows(days, l1, l2, c); }
  }

  lemma HighsAre(days: seq<Bar>, c: int)
    ensures forall x: nat, y: nat :: LastHighs(days, x, y, c) <==>
              x == PreviousPivot(days, Top, c - 2) && y == LatestPivot(days, Top, c - 2)
    ensures LatestPivot(days, Top, c - 2) < 0 ==> PreviousPivot(days, Top, c - 2) < 0
    ensures PreviousPivot(days, Top, c - 2) < |days| && LatestPivot(days, Top, c - 2) < |days|
  {
    hide LatestPivot, IsPivot, High;
    forall k: int ensures IsPivot(days, Top, k) == High(days, k) && (High(days, k) ==> k + 2 < |days|) {
      PivotIs(days, k);
      HighInside(days, k);
    }
  }

  lemma LowsAre(days: seq<Bar>, c: int)
    ensures forall x: nat, y: nat :: LastLows(days, x, y, c) <==>
              x == PreviousPivot(days, Bottom, c - 2) && y == LatestPivot(days, Bottom, c - 2)
    ensures LatestPivot(days, Bottom, c - 2) < 0 ==> PreviousPivot(days, Bottom, c - 2) < 0
    ensures PreviousPivot(days, Bottom, c - 2) < |days| && LatestPivot(days, Bottom, c - 2) < |days|
  {
    hide LatestPivot, IsPivot, Low;
    forall k: int ensures IsPivot(days, Bottom, k) == Low(days, k) && (Low(days, k) ==> k + 2 < |days|) {
      PivotIs(days, k);
      HighInside(days, k);
    }
  }

  lemma HighInside(days: seq<Bar>, k: int)
    ensures High(days, k) || Low(days, k) ==> 2 <= k && k + 2 < |days|
  {
  }

  /** A gate's trend compares the prices of the last two swings of each kind it knows. */
  lemma GateTrendMeans(highs: seq<(nat, real)>, lows: seq<(nat, real)>)
    ensures TrendFrom(highs, lows) == Some(Long) <==>
            && |highs| >= 2 && highs[|highs| - 2].1 < highs[|highs| - 1].1
            && |lows| >= 2 && lows[|lows| - 2].1 < lows[|lows| - 1].1
    ensures TrendFrom(highs, lows) == Some(Short) <==>
            && |highs| >= 2 && highs[|highs| - 2].1 > highs[|highs| - 1].1
            && |lows| >= 2 && lows[|lows| - 2].1 > lows[|lows| - 1].1
  {
  }

  /** What a gate has confirmed after n days: the swing highs (lows) whose two following days have come, in order, with
      their prices. */
  lemma {:induction false} ConfirmationsMean(days: seq<Bar>, n: nat, k: nat, price: real)
    requires n <= |days|
    ensures (k, price) in Confirmations(days, Top, n) <==> High(days, k) && k + 2 < n && price == days[k].high
    ensures (k, price) in Confirmations(days, Bottom, n) <==> Low(days, k) && k + 2 < n && price == days[k].low
    ensures InDays(Confirmations(days, Top, n)) && InDays(Confirmations(days, Bottom, n))
  {
    hide IsPivot, High, Low;
    if n > 0 {
      ConfirmationsMean(days, n - 1, k, price);
      PivotIs(days, n - 3);
      HighInside(days, n - 3);
      HighInside(days, k);
    }
  }

  ghost predicate InDays(c: seq<(nat, real)>) {
    forall x, y :: 0 <= x < y < |c| ==> c[x].0 < c[y].0
  }

  // ---------- a finished day ----------

  /** The session of finished day k, under the trend of the seeds and the days before it. */
  ghost predicate SessionOn(fomcDates: set<int>, h: History, k: nat, s: Session)
    requires k < |h.days| && NonEmpty(h.days)
  {
    var date := DateOf(h.days[k][0]);
    IsLiveSession(date in fomcDates, SeededTrend(h.seeds, Ranges(h.days), k), date, SessionBars(h.days[k]), s)
  }

  lemma SessionOnIs(fomcDates: set<int>, h: History, k: nat, s: Session)
    requires k < |h.days| && NonEmpty(h.days)
    ensures var date, trend := DateOf(h.days[k][0]), SeededTrend(h.seeds, Ranges(h.days), k);
            SessionOn(fomcDates, h, k, s) <==>
            LiveSession(date in fomcDates, trend, date, SessionBars(h.days[k])) == Some(s)
  {
    hide IsLiveSession, LiveSession, SeededTrend, SessionBars;
    var date := DateOf(h.days[k][0]);
    LiveSessionMeans(date in fomcDates, SeededTrend(h.seeds, Ranges(h.days), k), date, SessionBars(h.days[k]), s);
  }

  /** What is recorded for a finished day: the day's trade in plain terms on its session bars, or none if the day has no
      session; and every recorded winner's raid bar opened from 7:00 on and before 10:00. */
  lemma RecordedMeans(fomcDates: set<int>, h: History, k: nat)
    requires HistoryValid(fomcDates, h) && k < |h.days|
    ensures var bars := SessionBars(h.days[k]);
            && (forall s :: SessionOn(fomcDates, h, k, s) ==>
                  0 <= s.start && s.end <= |bars| && IsDayTrade(bars, s, h.trades[k]))
            && ((forall s :: !SessionOn(fomcDates, h, k, s)) ==> h.trades[k].None?)
            && (h.trades[k].Some? <==> h.winners[k].Some?)
            && (h.winners[k].Some? ==>
                  h.winners[k].value.raid < |bars| && 420 <= bars[h.winners[k].value.raid].time % 1440 < 600)
  {
    hide Decide, DecisionBars, Verdict, IsDayTrade, TradeOf, SeededTrend, SessionBars, SessionOn, LiveSession;
    assert Recorded(fomcDates, h, k);
    var date, bars := DateOf(h.days[k][0]), SessionBars(h.days[k]);
    var trend := SeededTrend(h.seeds, Ranges(h.days), k);
    SessionBarsOf(h.days[k], date);
    forall s ensures SessionOn(fomcDates, h, k, s) <==> LiveSession(date in fomcDates, trend, date, bars) == Some(s) {
      SessionOnIs(fomcDates, h, k, s);
    }
    DayMeans(date in fomcDates, trend, date, bars, h.trades[k], h.winners[k]);
    match LiveSession(date in fomcDates, trend, date, bars)
    case Some(s) => assert SessionOn(fomcDates, h, k, s);
    case None =>
  }

  /** The recorded result of one day. */
  lemma DayMeans(fomc: bool, trend: Option<Side>, date: int, bars: seq<Bar>, trade: Option<Trade>, w: Option<Key>)
    requires DayResult(fomc, trend, date, bars, trade, w) && Increasing(bars) && OfDate(bars, date)
    ensures match LiveSession(fomc, trend, date, bars)
            case Some(s) =>
              && 0 <= s.start && s.end <= |bars| && IsDayTrade(bars, s, trade)
              && (trade.Some? <==> w.Some?)
              && (w.Some? ==> w.value.raid < |bars| && 420 <= bars[w.value.raid].time % 1440 < 600)
            case None => trade.None? && w.None?
  {
    hide Decide, DecisionBars, Verdict, IsDayTrade, TradeOf, FirstFrom;
    match LiveSession(fomc, trend, date, bars)
    case Some(s) =>
      LiveSessionMeans(fomc, trend, date, bars, s);
      VerdictIsDayTrade(bars, s, w);
      if w.Some? { RaidClock(bars, date, s, w.value); }
      SessionInside(bars, date, s);
    case None =>
  }

  /** The journal stored for a finished day holds exactly the events that are true of its session bars, and the close of
      a trade still open at the end; on a day without a session it is empty. */
  lemma RecordedJournalMeans(fomcDates: set<int>, h: History, k: nat, e: Event)
    requires HistoryValid(fomcDates, h) && k < |h.days|
    ensures forall s :: SessionOn(fomcDates, h, k, s) ==>
              (e in h.journals[k] <==>
                Says(SessionBars(h.days[k]), s, e) || ClosesDay(SessionBars(h.days[k]), s, h.trades[k], e))
    ensures (forall s :: !SessionOn(fomcDates, h, k, s)) ==> h.journals[k] == []
  {
    hide Decide, DecisionBars, Verdict, SeededTrend, SessionBars, SessionOn, LiveSession, Says, DayJournal;
    assert Recorded(fomcDates, h, k);
    var date, bars := DateOf(h.days[k][0]), SessionBars(h.days[k]);
    var trend := SeededTrend(h.seeds, Ranges(h.days), k);
    forall s ensures SessionOn(fomcDates, h, k, s) <==> LiveSession(date in fomcDates, trend, date, bars) == Some(s) {
      SessionOnIs(fomcDates, h, k, s);
    }
    DayJournalMeans(date in fomcDates, trend, date, bars, h.trades[k], h.winners[k], e);
    match LiveSession(date in fomcDates, trend, date, bars)
    case Some(s) => assert SessionOn(fomcDates, h, k, s);
    case None =>
  }

  /** The close of a trade still open at the last bar. */
  ghost predicate ClosesDay(bars: seq<Bar>, s: Session, trade: Option<Trade>, e: Event) {
    && trade.Some? && trade.value.outcome == Scratch && bars != []
    && e == TradeClosed(bars[|bars| - 1].time, s.side, Scratch, bars[|bars| - 1].close)
  }

  lemma DayJournalMeans(fomc: bool, trend: Option<Side>, date: int, bars: seq<Bar>, trade: Option<Trade>,
                        w: Option<Key>, e: Event)
    requires DayResult(fomc, trend, date, bars, trade, w)
    ensures match LiveSession(fomc, trend, date, bars)
            case Some(s) =>
              e in DayJournal(fomc, trend, date, bars, w) <==> Says(bars, s, e) || ClosesDay(bars, s, trade, e)
            case None => DayJournal(fomc, trend, date, bars, w) == []
  {
    hide Decide, DecisionBars, Verdict, TradeOf, Says, StreamLog, ScratchEvents;
    match LiveSession(fomc, trend, date, bars)
    case Some(s) =>
      JournalMeans(bars, s, e);
      ScratchMeans(bars, s, w, e);
    case None =>
  }

  lemma SessionInside(bars: seq<Bar>, date: int, s: Session)
    requires FirstFrom(bars, date, 420, s.start) && FirstFrom(bars, date, 600, s.end)
    ensures 0 <= s.start && s.end <= |bars|
  {
  }

  lemma RaidClock(bars: seq<Bar>, date: int, s: Session, w: Key)
    requires Verdict(bars, s, Some(w)) && Increasing(bars) && OfDate(bars, date)
    requires FirstFrom(bars, date, 420, s.start) && FirstFrom(bars, date, 600, s.end)
    ensures w.raid < |bars| && 420 <= bars[w.raid].time % 1440 < 600
  {
    hide AttemptAt, SetupAt, BothSwings, RaidLevel, IsMss;
    assert s.start <= w.raid < s.end;
    assert bars[s.start].time <= bars[w.raid].time;
    assert DateOf(bars[w.raid]) == date;
    ClockMeans(bars[w.raid]);
  }
}
