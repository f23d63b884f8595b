/** The read-time reconstruction of a trade's story from the stored events of its day, and the runner's search for the
    trade's fill and close events. */
module TradeStory {
  import opened Market
  import opened FvgModel
  import opened Journal
  import opened LogInclusion

  /** Equality up to the code's 1e-9 tolerance. */
  predicate Matches(a: real, b: real) {
    var d := if a >= b then a - b else b - a;
    d < 0.000000001
  }

  /** A journal row: the event and the trade it is linked to, if any. */
  datatype Row = Row(event: Event, tradeId: Option<int>)

  datatype TradeRow = TradeRow(id: int, side: Side, entry: real, outcome: Outcome, exitPrice: real)

  /** Python's next(e for e in rows if p(e)), with None as default. */
  function First(rows: seq<Row>, p: Event -> bool): (r: Option<Event>)
    ensures r.Some? <==> exists k :: 0 <= k < |rows| && p(rows[k].event)
    ensures r.Some? ==> p(r.value) && exists k :: 0 <= k < |rows| && rows[k].event == r.value
  {
    if rows == [] then None
    else if p(rows[0].event) then Some(rows[0].event)
    else
      var r := First(rows[1..], p);
      assert forall k :: 0 < k < |rows| ==> rows[k] == rows[1..][k - 1];
      r
  }

  function FindFill(rows: seq<Row>, t: TradeRow): (r: Option<Event>)
    ensures r.Some? ==> r.value.OrderFilled? && Stored(rows, r.value)
  {
    var linked := Linked(rows, t.id);
    if linked.Some? then linked
    else First(rows, (e: Event) => e.OrderFilled? && e.side == t.side && Matches(e.entry, t.entry))
  }

  /** The first fill row that carries the trade's own identifier. */
  function Linked(rows: seq<Row>, id: int): (r: Option<Event>)
    ensures r.Some? ==> r.value.OrderFilled? && Stored(rows, r.value)
  {
    if rows == [] then None
    else if rows[0].tradeId == Some(id) && rows[0].event.OrderFilled? then Some(rows[0].event)
    else
      var r := Linked(rows[1..], id);
      assert r.Some? ==> Stored(rows[1..], r.value);
      assert forall k :: 0 < k < |rows| ==> rows[k] == rows[1..][k - 1];
      r
  }

  ghost predicate Stored(rows: seq<Row>, e: Event) {
    exists k :: 0 <= k < |rows| && rows[k].event == e
  }

  /** A fill row that is linked to the trade. */
  predicate IsLinked(row: Row, t: TradeRow) {
    row.tradeId == Some(t.id) && row.event.OrderFilled?
  }

  /** A fill row of the trade's side and entry price. */
  predicate FitsTrade(row: Row, t: TradeRow) {
    row.event.OrderFilled? && row.event.side == t.side && -0.000000001 < row.event.entry - t.entry < 0.000000001
  }

  ghost predicate FirstSuch(rows: seq<Row>, p: Row -> bool, r: Option<Event>) {
    match r
    case None => forall k :: 0 <= k < |rows| ==> !p(rows[k])
    case Some(e) =>
      exists k :: 0 <= k < |rows| && rows[k].event == e && p(rows[k]) && forall m :: 0 <= m < k ==> !p(rows[m])
  }

  /** The fill found is that of the first linked row; only without one it is the first of the side and the price. */
  lemma FillFoundMeans(rows: seq<Row>, t: TradeRow)
    ensures (exists k :: 0 <= k < |rows| && IsLinked(rows[k], t)) ==>
              FirstSuch(rows, (row: Row) => IsLinked(row, t), FindFill(rows, t))
    ensures (forall k :: 0 <= k < |rows| ==> !IsLinked(rows[k], t)) ==>
              FirstSuch(rows, (row: Row) => FitsTrade(row, t), FindFill(rows, t))
  {
    LinkedMeans(rows, t);
    var p := (e: Event) => e.OrderFilled? && e.side == t.side && Matches(e.entry, t.entry);
    FirstMeans(rows, p);
    forall k | 0 <= k < |rows| ensures p(rows[k].event) == FitsTrade(rows[k], t) {
    }
  }

  lemma {:induction false} LinkedMeans(rows: seq<Row>, t: TradeRow)
    ensures FirstSuch(rows, (row: Row) => IsLinked(row, t), Linked(rows, t.id))
  {
    if rows != [] && !IsLinked(rows[0], t) {
      LinkedMeans(rows[1..], t);
      FirstSuchLater(rows, (row: Row) => IsLinked(row, t), Linked(rows[1..], t.id));
    }
  }

  lemma {:induction false} FirstMeans(rows: seq<Row>, p: Event -> bool)
    ensures FirstSuch(rows, (row: Row) => p(row.event), First(rows, p))
  {
    if rows != [] && !p(rows[0].event) {
      FirstMeans(rows[1..], p);
      FirstSuchLater(rows, (row: Row) => p(row.event), First(rows[1..], p));
    }
  }

  lemma FirstSuchLater(rows: seq<Row>, p: Row -> bool, r: Option<Event>)
    requires rows != [] && !p(rows[0]) && FirstSuch(rows[1..], p, r)
    ensures FirstSuch(rows, p, r)
  {
    assert forall k :: 0 < k < |rows| ==> rows[k] == rows[1..][k - 1];
    if r.Some? {
      var k :| 0 <= k < |rows[1..]| && rows[1..][k].event == r.value && p(rows[1..][k])
               && forall m :: 0 <= m < k ==> !p(rows[1..][m]);
      assert rows[k + 1].event == r.value && p(rows[k + 1]);
      forall m | 0 <= m < k + 1 ensures !p(rows[m]) {
        if m > 0 { assert rows[m] == rows[1..][m - 1]; }
      }
    }
  }

  function FindCandidate(rows: seq<Row>, fill: Event): Option<Event>
    requires fill.OrderFilled?
  {
    First(rows, AnnouncementOf(fill))
  }

  function AnnouncementOf(fill: Event): Event -> bool
    requires fill.OrderFilled?
  {
    (e: Event) =>
      e.CandidateReady? && e.side == fill.side && Matches(e.entry, fill.entry) && Matches(e.stop, fill.stop)
  }

  function FindMss(rows: seq<Row>, c: Event): Option<Event>
    requires c.CandidateReady?
  {
    First(rows, (e: Event) => e.Mss? && e.raidBar == c.raidBar && e.mssBar == c.mssBar)
  }

  function FindRaid(rows: seq<Row>, m: Event): Option<Event>
    requires m.Mss?
  {
    First(rows, (e: Event) => e.Raid? && e.bar == m.raidBar)
  }

  function FindFvgEvent(rows: seq<Row>, m: Event): Option<Event>
    requires m.Mss?
  {
    First(rows, (e: Event) => e.FvgFound? && e.mssBar == m.mssBar)
  }

  datatype Chain = Chain(raid: Option<Event>, mss: Option<Event>, fvg: Option<Event>, candidate: Option<Event>,
                         fill: Option<Event>, fullyResolved: bool)

  function BuildChain(rows: seq<Row>, t: TradeRow): Chain {
    var fill := FindFill(rows, t);
    if fill.None? then Chain(None, None, None, None, None, false) else
    var candidate := FindCandidate(rows, fill.value);
    if candidate.None? then Chain(None, None, None, None, fill, false) else
    var mss := FindMss(rows, candidate.value);
    var raid := if mss.Some? then FindRaid(rows, mss.value) else None;
    var fvg := if mss.Some? then FindFvgEvent(rows, mss.value) else None;
    Chain(raid, mss, fvg, candidate, fill, raid.Some? && mss.Some? && fvg.Some?)
  }

  /** The stored rows hold the whole journal of the day and nothing else, in any order. */
  ghost predicate Holds(rows: seq<Row>, log: seq<Event>) {
    && (forall e :: e in log ==> Stored(rows, e))
    && (forall k :: 0 <= k < |rows| ==> rows[k].event in log)
  }

  /** The stored rows are the journal of the day in its own order. */
  ghost predicate InOrder(rows: seq<Row>, log: seq<Event>) {
    |rows| == |log| && forall k :: 0 <= k < |rows| ==> rows[k].event == log[k]
  }

  lemma InOrderHolds(rows: seq<Row>, log: seq<Event>)
    requires InOrder(rows, log)
    ensures Holds(rows, log)
  {
    forall e | e in log ensures Stored(rows, e) {
      var k :| 0 <= k < |log| && log[k] == e;
      assert rows[k].event == e;
    }
  }

  /** What First finds is at the least index. */
  lemma {:induction false} FirstIndex(rows: seq<Row>, p: Event -> bool) returns (k: nat)
    requires First(rows, p).Some?
    ensures k < |rows| && rows[k].event == First(rows, p).value && p(rows[k].event)
    ensures forall m :: 0 <= m < k ==> !p(rows[m].event)
  {
    if p(rows[0].event) {
      k := 0;
    } else {
      k := FirstIndex(rows[1..], p);
      assert forall m :: 0 < m < |rows| ==> rows[m] == rows[1..][m - 1];
      k := k + 1;
    }
  }

  // ---------- where the journal's events come from ----------

  /** A fill event names an accepted search that was announced together with its raid, shift and gap. */
  lemma FillOrigin(day: seq<Bar>, s: Session, f: Event) returns (k: Key)
    requires f in StreamLog(day, s, |day|) && f.OrderFilled?
    ensures k in Keys(day, s, |day|)
    ensures AttemptAt(day, s.side, k.mss, |day|).HasFilled()
    ensures f == FillEvent(day, s.side, k.mss, AttemptAt(day, s.side, k.mss, |day|))
  {
    hide StreamLog, AllAttemptEvents, AllWatchEvents, IsRaid, IsMss, Keys, Raids, AttemptAt, SetupAt, AttemptEvents;
    var b := FromStream(day, s, |day|, f);
    NotFills(day, s, b);
    k := FromAllAttempts(day, s, Keys(day, s, b), b, f);
    assert IsMss(day, s.side, k.raid, k.mss) && Accepted(day, s.side, k.mss);
    FillOf(day, s.side, k.mss, b, f);
  }

  lemma FillOf(day: seq<Bar>, side: Side, j: nat, b: nat, f: Event)
    requires b < |day| && f in AttemptEvents(day, side, j, b) && f.OrderFilled?
    ensures j < b && SetupAt(day, side, j).Some?
    ensures var a := AttemptAt(day, side, j, |day|);
            a.HasFilled() && f == FillEvent(day, side, j, a)
  {
    hide AttemptAt, SetupAt;
    AttemptEventsAre(day, side, j, b);
  }

  lemma NotFills(day: seq<Bar>, s: Session, b: nat)
    requires b < |day|
    ensures forall e :: e in SwingEvents(day, b) || e in RaidEvents(day, s, b) ==>
            !e.OrderFilled? && !e.CandidateReady? && !e.Mss?
    ensures forall e :: e in AllWatchEvents(day, s, Raids(day, s, b), b) ==> !e.OrderFilled?
  {
    hide AllWatchEvents, IsRaid, IsPivot, WatchEvents;
    forall e | e in AllWatchEvents(day, s, Raids(day, s, b), b) ensures !e.OrderFilled? {
      var i := FromAllWatch(day, s, Raids(day, s, b), b, e);
      WatchKinds(day, s, i, b, e);
    }
  }

  lemma WatchKinds(day: seq<Bar>, s: Session, i: nat, b: nat, e: Event)
    requires b < |day| && e in WatchEvents(day, s, i, b)
    ensures !e.OrderFilled? && !e.Raid? && IsMss(day, s.side, i, b)
    ensures e.CandidateReady? ==> e.raidBar == i && e.mssBar == b && Accepted(day, s.side, b) &&
                                  Setup(e.entry, e.stop, SetupAt(day, s.side, b).value.riskPips) ==
                                    SetupAt(day, s.side, b).value
    ensures e.Mss? ==> e.raidBar == i && e.mssBar == b
  {
    hide IsMss, FindFvg, Reference;
  }

  lemma AttemptKinds(day: seq<Bar>, side: Side, j: nat, b: nat, e: Event)
    requires b < |day| && e in AttemptEvents(day, side, j, b)
    ensures e.OrderFilled? || e.TradeClosed?
  {
    hide AttemptAt, SetupAt;
  }

  /** An announcement in the journal belongs to a raid, a shift and an accepted gap of the day. */
  lemma CandidateOrigin(day: seq<Bar>, s: Session, c: Event)
    requires c in StreamLog(day, s, |day|) && c.CandidateReady?
    ensures IsRaid(day, s, c.raidBar) && IsMss(day, s.side, c.raidBar, c.mssBar) && Accepted(day, s.side, c.mssBar)
    ensures var st := SetupAt(day, s.side, c.mssBar).value;
            c.entry == st.entry && c.stop == st.stop
  {
    hide StreamLog, AllAttemptEvents, AllWatchEvents, IsRaid, IsMss, Keys, Raids, SetupAt, AttemptEvents, WatchEvents;
    var b := FromStream(day, s, |day|, c);
    NotFills(day, s, b);
    if c in AllAttemptEvents(day, s, Keys(day, s, b), b) {
      var k := FromAllAttempts(day, s, Keys(day, s, b), b, c);
      AttemptKinds(day, s.side, k.mss, b, c);
    } else {
      var i := FromAllWatch(day, s, Raids(day, s, b), b, c);
      WatchKinds(day, s, i, b, c);
    }
  }

  /** A search of the day was journaled with its raid, shift, gap and announcement. */
  lemma Announced(day: seq<Bar>, s: Session, i: nat, j: nat)
    requires IsRaid(day, s, i) && IsMss(day, s.side, i, j) && Accepted(day, s.side, j)
    ensures var log := StreamLog(day, s, |day|);
            var st := SetupAt(day, s.side, j).value;
            var g := FindFvg(day, s.side, j).value;
            && Raid(day[i].time, s.side, RaidLevel(day, s.side, i), SweepPrice(day[i], s.side), i,
                    Some(Reference(day, s.side, i))) in log
            && Mss(day[j].time, s.side, Reference(day, s.side, i), day[j].close, i, j) in log
            && FvgFound(day[j].time, s.side, g.top, g.bottom, g.frame, j) in log
            && CandidateReady(day[j].time, s.side, st.entry, st.stop, i, j) in log
  {
    hide StreamLog, LatestPivot, Reference, RaidLevel, BothSwings, FindFvg;
    MssWindow(day, s.side, i, j);
    RaidInStream(day, s, i);
    WatchInStream(day, s, i, j);
  }

  // ---------- the theorems ----------

  /** The chain is fully resolved, its events are of one raid, one shift bar and one gap, in order, and the announcement
      fits the fill. */
  predicate OneStory(c: Chain) {
    && c.fullyResolved && c.raid.Some? && c.mss.Some? && c.fvg.Some? && c.candidate.Some? && c.fill.Some?
    && c.raid.value.Raid? && c.mss.value.Mss? && c.fvg.value.FvgFound?
    && c.candidate.value.CandidateReady? && c.fill.value.OrderFilled?
    && c.raid.value.bar == c.mss.value.raidBar == c.candidate.value.raidBar
    && c.fvg.value.mssBar == c.mss.value.mssBar == c.candidate.value.mssBar
    && c.raid.value.bar < c.mss.value.mssBar
    && c.candidate.value.side == c.fill.value.side
    && Matches(c.candidate.value.entry, c.fill.value.entry)
    && Matches(c.candidate.value.stop, c.fill.value.stop)
  }

  /** It is the story of the search of raid k.raid at shift bar k.mss. */
  predicate Tells(c: Chain, k: Key) {
    OneStory(c) && c.raid.value.bar == k.raid && c.mss.value.mssBar == k.mss
  }

  /** Every fill in a day's journal can be traced to a raid, a shift, a gap and an announcement that belong together,
      whatever order the rows are read in. */
  lemma StoryComplete(day: seq<Bar>, s: Session, w: Option<Key>, rows: seq<Row>, t: TradeRow)
    requires WellPlaced(day, s, w) && Holds(rows, StreamLog(day, s, |day|) + ScratchEvents(day, s, w))
    ensures BuildChain(rows, t).fill.Some? ==> OneStory(BuildChain(rows, t))
  {
    hide StreamLog, IsRaid, Accepted, FindFill, FindCandidate, FindMss, FindRaid, FindFvgEvent, Matches, ScratchEvents,
         Holds, Stored, WellPlaced;
    var fill := FindFill(rows, t);
    if fill.Some? {
      AnnouncementFound(day, s, w, rows, fill.value);
      ChainFrom(day, s, w, rows, FindCandidate(rows, fill.value).value);
    }
  }

  /** Every fill in the journal finds an announcement. */
  lemma AnnouncementFound(day: seq<Bar>, s: Session, w: Option<Key>, rows: seq<Row>, f: Event)
    requires WellPlaced(day, s, w) && Holds(rows, StreamLog(day, s, |day|) + ScratchEvents(day, s, w))
    requires f.OrderFilled? && Stored(rows, f)
    ensures FindCandidate(rows, f).Some? && FindCandidate(rows, f).value in StreamLog(day, s, |day|)
    ensures var c := FindCandidate(rows, f).value;
            && c.CandidateReady? && c.side == f.side && Matches(c.entry, f.entry) && Matches(c.stop, f.stop)
  {
    hide StreamLog, IsRaid, IsMss, Accepted, AttemptAt, SetupAt, Keys, FindFvg, Reference, RaidLevel, BothSwings;
    var log := StreamLog(day, s, |day|) + ScratchEvents(day, s, w);
    assert f in log;
    NotScratch(day, s, w, f);
    var k := FillOrigin(day, s, f);
    Announced(day, s, k.raid, k.mss);
    AcceptedIsSetup(day, s.side, k.mss);
    var st := SetupAt(day, s.side, k.mss).value;
    var own := CandidateReady(day[k.mss].time, s.side, st.entry, st.stop, k.raid, k.mss);
    assert own in log && Stored(rows, own);
    NotScratch(day, s, w, FindCandidate(rows, f).value);
  }

  /** Every announcement leads to its shift, raid and gap. */
  lemma ChainFrom(day: seq<Bar>, s: Session, w: Option<Key>, rows: seq<Row>, c: Event)
    requires WellPlaced(day, s, w) && Holds(rows, StreamLog(day, s, |day|) + ScratchEvents(day, s, w))
    requires c in StreamLog(day, s, |day|) && c.CandidateReady?
    ensures c.raidBar < c.mssBar
    ensures var m := FindMss(rows, c);
            && m.Some? && m.value.Mss? && m.value.raidBar == c.raidBar && m.value.mssBar == c.mssBar
            && var raid, fvg := FindRaid(rows, m.value), FindFvgEvent(rows, m.value);
               && raid.Some? && raid.value.Raid? && raid.value.bar == c.raidBar
               && fvg.Some? && fvg.value.FvgFound? && fvg.value.mssBar == c.mssBar
  {
    hide StreamLog, IsRaid, IsMss, Accepted, AttemptAt, SetupAt, Keys, FindFvg, Reference, RaidLevel, BothSwings,
         ScratchEvents;
    var i, j := c.raidBar, c.mssBar;
    CandidateOrigin(day, s, c);
    Announced(day, s, i, j);
    MssWindow(day, s.side, i, j);
    RaidBounds(day, s, i);
    AcceptedIsSetup(day, s.side, j);
    var g := FindFvg(day, s.side, j).value;
    assert Stored(rows, Mss(day[j].time, s.side, Reference(day, s.side, i), day[j].close, i, j));
    assert Stored(rows, FvgFound(day[j].time, s.side, g.top, g.bottom, g.frame, j));
    assert Stored(rows, Raid(day[i].time, s.side, RaidLevel(day, s.side, i), SweepPrice(day[i], s.side), i,
                             Some(Reference(day, s.side, i))));
  }

  /** The runner's search for the fill event of the trade it writes. */
  function MatchFill(rows: seq<Row>, t: Trade): Option<Event> {
    First(rows, (e: Event) => e.OrderFilled? && e.side == t.side && Matches(e.entry, t.entry))
  }

  function Reversed(rows: seq<Row>): (r: seq<Row>)
    ensures |r| == |rows| && forall k :: 0 <= k < |rows| ==> r[k] == rows[|rows| - 1 - k]
  {
    seq(|rows|, k requires 0 <= k < |rows| => rows[|rows| - 1 - k])
  }

  /** The runner's search for the close event, latest first. */
  function MatchClose(rows: seq<Row>, t: Trade): Option<Event> {
    First(Reversed(rows), (e: Event) => e.TradeClosed? && e.outcome == t.outcome && Matches(e.exitPrice, t.exitPrice))
  }

  /** The fallbacks for a missing fill or close event are never reached for a trade the engine returns, and the fill
      event's bar index is a bar of the day. */
  lemma FallbacksUnreachable(day: seq<Bar>, s: Session, w: Option<Key>, rows: seq<Row>)
    requires Verdict(day, s, w) && w.Some? && WellPlaced(day, s, w)
    requires Holds(rows, StreamLog(day, s, |day|) + ScratchEvents(day, s, w))
    ensures var t := TradeFor(day, s, w).value;
            && MatchFill(rows, t).Some? && MatchFill(rows, t).value.fillBar < |day|
            && MatchClose(rows, t).Some?
  {
    hide StreamLog, IsRaid, IsMss, Accepted, AttemptAt, SetupAt, Keys, Verdict, AttemptEvents;
    WinnerShape(day, s, w);
    var log := StreamLog(day, s, |day|) + ScratchEvents(day, s, w);
    var i, j := w.value.raid, w.value.mss;
    assert SetupAt(day, s.side, j).Some? by { AcceptedIsSetup(day, s.side, j); }
    var a := AttemptAt(day, s.side, j, |day|);
    var t := TradeOf(day, s.side, j);
    var f := FillEvent(day, s.side, j, a);
    AttemptEventsAre(day, s.side, j, a.fillBar);
    AttemptInStream(day, s, i, j, a.fillBar);
    assert f in AttemptEvents(day, s.side, j, a.fillBar);
    assert f in log && Stored(rows, f);
    var found := MatchFill(rows, t).value;
    var k := FillOrigin(day, s, found);
    var x := TradeClosed(day[if a.Closed? then a.exitBar else |day| - 1].time, s.side, t.outcome, t.exitPrice);
    if a.Closed? {
      AttemptEventsAre(day, s.side, j, a.exitBar);
      AttemptInStream(day, s, i, j, a.exitBar);
    }
    assert x in log && Stored(rows, x);
    var m :| 0 <= m < |rows| && rows[m].event == x;
    assert Reversed(rows)[|rows| - 1 - m].event == x;
  }

  // ---------- whose story it is ----------

  /** The announcement of the search of raid i at bar j. */
  function Announcement(day: seq<Bar>, s: Session, i: nat, j: nat): Event
    requires j < |day| && SetupAt(day, s.side, j).Some?
  {
    var st := SetupAt(day, s.side, j).value;
    CandidateReady(day[j].time, s.side, st.entry, st.stop, i, j)
  }

  lemma {:induction false} StreamSplit(day: seq<Bar>, s: Session, b: nat, n: nat) returns (after: seq<Event>)
    requires b < n <= |day|
    ensures StreamLog(day, s, n) == StreamLog(day, s, b) + BarEvents(day, s, b) + after
  {
    hide BarEvents;
    if b == n - 1 {
      after := [];
    } else {
      after := StreamSplit(day, s, b, n - 1);
      after := after + BarEvents(day, s, n - 1);
    }
  }

  /** The watches of one bar run in order of their raids. */
  lemma {:induction false} WatchSplit(day: seq<Bar>, s: Session, i: nat, n: nat, b: nat) returns (after: seq<Event>)
    requires IsRaid(day, s, i) && i < n <= |day| && b < |day|
    ensures AllWatchEvents(day, s, Raids(day, s, n), b) ==
            AllWatchEvents(day, s, Raids(day, s, i), b) + WatchEvents(day, s, i, b) + after
  {
    hide WatchEvents, IsRaid, AllWatchEvents, Raids;
    RaidsStep(day, s, n);
    if i == n - 1 {
      after := [];
      WatchesAppend(day, s, Raids(day, s, i), i, b);
    } else {
      after := WatchSplit(day, s, i, n - 1, b);
      if IsRaid(day, s, n - 1) {
        WatchesAppend(day, s, Raids(day, s, n - 1), n - 1, b);
        after := after + WatchEvents(day, s, n - 1, b);
      }
    }
  }

  lemma RaidsStep(day: seq<Bar>, s: Session, n: nat)
    requires 0 < n <= |day|
    ensures Raids(day, s, n) == if IsRaid(day, s, n - 1) then Raids(day, s, n - 1) + [n - 1] else Raids(day, s, n - 1)
  {
    hide IsRaid;
  }

  lemma WatchesAppend(day: seq<Bar>, s: Session, raids: seq<nat>, i: nat, b: nat)
    requires b < |day|
    ensures AllWatchEvents(day, s, raids + [i], b) == AllWatchEvents(day, s, raids, b) + WatchEvents(day, s, i, b)
  {
    hide WatchEvents;
    assert (raids + [i])[..|raids|] == raids;
  }

  /** The announcement comes last in its watch's events. */
  lemma WatchEnds(day: seq<Bar>, s: Session, i: nat, j: nat) returns (head: seq<Event>)
    requires j < |day| && IsMss(day, s.side, i, j) && Accepted(day, s.side, j)
    ensures SetupAt(day, s.side, j).Some?
    ensures WatchEvents(day, s, i, j) == head + [Announcement(day, s, i, j)]
    ensures forall e :: e in head ==> !e.CandidateReady?
  {
    hide Reference, LatestPivot;
    var g := FindFvg(day, s.side, j).value;
    head := [Mss(day[j].time, s.side, Reference(day, s.side, i), day[j].close, i, j)] +
            [FvgFound(day[j].time, s.side, g.top, g.bottom, g.frame, j)];
  }

  /** What precedes the watches of a bar announces nothing. */
  lemma NoneBeforeWatches(day: seq<Bar>, s: Session, b: nat, e: Event)
    requires b < |day| && e in SwingEvents(day, b) + AllAttemptEvents(day, s, Keys(day, s, b), b)
    ensures !e.CandidateReady?
  {
    hide IsPivot, AllAttemptEvents, AttemptEvents, Keys;
    if e in AllAttemptEvents(day, s, Keys(day, s, b), b) {
      var k := FromAllAttempts(day, s, Keys(day, s, b), b, e);
      AttemptKinds(day, s.side, k.mss, b, e);
    }
  }

  /** Announcements of earlier bars. */
  lemma AnnouncedEarlier(day: seq<Bar>, s: Session, n: nat, c: Event)
    requires n <= |day| && c in StreamLog(day, s, n) && c.CandidateReady?
    ensures c.mssBar < n
  {
    hide StreamLog, SwingEvents, AllAttemptEvents, AllWatchEvents, Raids, Keys, WatchEvents, RaidEvents;
    var b := FromStream(day, s, n, c);
    NotFills(day, s, b);
    if c in SwingEvents(day, b) + AllAttemptEvents(day, s, Keys(day, s, b), b) {
      NoneBeforeWatches(day, s, b, c);
    } else {
      var i := FromAllWatch(day, s, Raids(day, s, b), b, c);
      WatchKinds(day, s, i, b, c);
    }
  }

  /** Announcements come in order of the shift bar and, for one bar, of the raid. */
  lemma AnnouncedInOrder(day: seq<Bar>, s: Session, i: nat, j: nat) returns (before: seq<Event>, after: seq<Event>)
    requires IsRaid(day, s, i) && IsMss(day, s.side, i, j) && j < |day| && Accepted(day, s.side, j)
    ensures SetupAt(day, s.side, j).Some?
    ensures StreamLog(day, s, |day|) == before + [Announcement(day, s, i, j)] + after
    ensures forall c :: c in before && c.CandidateReady? ==> c.mssBar < j || (c.mssBar == j && c.raidBar < i)
  {
    hide StreamLog, AllWatchEvents, AllAttemptEvents, SwingEvents, RaidEvents, WatchEvents, IsRaid, IsMss, Raids, Keys,
         SetupAt, Accepted;
    MssWindow(day, s.side, i, j);
    var post := StreamSplit(day, s, j, |day|);
    var watched := WatchSplit(day, s, i, j, j);
    var head := WatchEnds(day, s, i, j);
    var start := SwingEvents(day, j) + AllAttemptEvents(day, s, Keys(day, s, j), j);
    var earlier := AllWatchEvents(day, s, Raids(day, s, i), j);
    before := StreamLog(day, s, j) + (start + (earlier + head));
    after := watched + RaidEvents(day, s, j) + post;
    assert BarEvents(day, s, j) ==
           start + (earlier + head) + [Announcement(day, s, i, j)] + watched + RaidEvents(day, s, j);
    forall c | c in before && c.CandidateReady? ensures c.mssBar < j || (c.mssBar == j && c.raidBar < i) {
      if c in StreamLog(day, s, j) {
        AnnouncedEarlier(day, s, j, c);
      } else if c in start {
        NoneBeforeWatches(day, s, j, c);
      } else {
        assert c in earlier;
        var x := FromAllWatch(day, s, Raids(day, s, i), j, c);
        WatchKinds(day, s, x, j, c);
      }
    }
  }

  /** The search of raid i at bar j was announced with the entry and stop of this fill, up to the tolerance. */
  ghost predicate Announces(day: seq<Bar>, s: Session, f: Event, i: nat, j: nat) {
    && f.OrderFilled? && IsRaid(day, s, i) && j < |day| && IsMss(day, s.side, i, j) && Accepted(day, s.side, j)
    && SetupAt(day, s.side, j).Some?
    && Matches(SetupAt(day, s.side, j).value.entry, f.entry) && Matches(SetupAt(day, s.side, j).value.stop, f.stop)
  }

  predicate Names(c: Event, k: Key) {
    c.CandidateReady? && c.raidBar == k.raid && c.mssBar == k.mss
  }

  lemma NotScratch(day: seq<Bar>, s: Session, w: Option<Key>, e: Event)
    requires WellPlaced(day, s, w) && e in StreamLog(day, s, |day|) + ScratchEvents(day, s, w) && !e.TradeClosed?
    ensures e in StreamLog(day, s, |day|)
  {
    hide StreamLog, ScratchEvents, IsRaid, Accepted;
    ScratchIsClose(day, s, w);
  }

  /** Read in journal order, the announcement found for a fill is that of some search, and no later than any other. */
  lemma FoundEarliest(day: seq<Bar>, s: Session, w: Option<Key>, rows: seq<Row>, f: Event)
    requires WellPlaced(day, s, w) && InOrder(rows, StreamLog(day, s, |day|) + ScratchEvents(day, s, w))
    requires f.OrderFilled? && f.side == s.side && FindCandidate(rows, f).Some?
    ensures FindCandidate(rows, f).value.CandidateReady?
    ensures var c := FindCandidate(rows, f).value;
            && Announces(day, s, f, c.raidBar, c.mssBar)
            && forall i: nat, j: nat :: Announces(day, s, f, i, j) ==>
                 c.mssBar < j || (c.mssBar == j && c.raidBar <= i)
  {
    hide StreamLog, ScratchEvents, IsRaid, IsMss, Accepted, SetupAt, Matches;
    var c := FindCandidate(rows, f).value;
    var at := FirstIndex(rows, AnnouncementOf(f));
    NotScratch(day, s, w, c);
    CandidateOrigin(day, s, c);
    MssWindow(day, s.side, c.raidBar, c.mssBar);
    AcceptedIsSetup(day, s.side, c.mssBar);
    forall i: nat, j: nat | Announces(day, s, f, i, j) ensures c.mssBar < j || (c.mssBar == j && c.raidBar <= i) {
      var before, after := AnnouncedInOrder(day, s, i, j);
      assert rows[|before|].event == Announcement(day, s, i, j);
      assert AnnouncementOf(f)(rows[|before|].event) && at <= |before|;
      assert at < |before| ==> c in before;
    }
  }

  /** So it is the winner's exactly when the winner's fits the fill and none of an earlier shift bar does. */
  lemma FoundAnnouncement(day: seq<Bar>, s: Session, k: Key, rows: seq<Row>, f: Event)
    requires Verdict(day, s, Some(k)) && WellPlaced(day, s, Some(k))
    requires InOrder(rows, StreamLog(day, s, |day|) + ScratchEvents(day, s, Some(k)))
    requires f.OrderFilled? && f.side == s.side && FindCandidate(rows, f).Some?
    ensures Names(FindCandidate(rows, f).value, k) <==>
            Announces(day, s, f, k.raid, k.mss) && forall i: nat, j: nat :: j < k.mss ==> !Announces(day, s, f, i, j)
  {
    hide StreamLog, ScratchEvents, Verdict, WellPlaced, FindCandidate, InOrder, IsRaid, IsMss, Accepted, SetupAt;
    FoundEarliest(day, s, Some(k), rows, f);
    var c := FindCandidate(rows, f).value;
    if c.raidBar < k.raid {
      NoEarlierRaid(day, s, k, c.raidBar);
    }
  }

  lemma ScratchIsClose(day: seq<Bar>, s: Session, w: Option<Key>)
    requires WellPlaced(day, s, w)
    ensures forall e :: e in ScratchEvents(day, s, w) ==> e.TradeClosed?
  {
    hide AttemptAt, SetupAt, IsRaid;
  }

  /** No earlier raid is confirmed by the winner's shift bar, for its search would have filled first. */
  lemma NoEarlierRaid(day: seq<Bar>, s: Session, k: Key, i: nat)
    requires Verdict(day, s, Some(k)) && i < k.raid
    ensures !(IsRaid(day, s, i) && IsMss(day, s.side, i, k.mss))
  {
    hide IsRaid, IsMss, AttemptAt, SetupAt;
    assert Fills(day, s, i, k.mss) ==> LexLe(k, Key(i, k.mss));
  }

  /** For a trade the engine returns, read in journal order, a fill is found and the chain is complete; it is the
      winner's own raid, shift and gap exactly when the winner was announced with the entry and stop of the fill found
      and no search of an earlier shift bar was. */
  lemma OwnStory(day: seq<Bar>, s: Session, k: Key, rows: seq<Row>, t: TradeRow)
    requires Verdict(day, s, Some(k)) && WellPlaced(day, s, Some(k))
    requires InOrder(rows, StreamLog(day, s, |day|) + ScratchEvents(day, s, Some(k)))
    requires t.side == TradeFor(day, s, Some(k)).value.side && t.entry == TradeFor(day, s, Some(k)).value.entry
    ensures OneStory(BuildChain(rows, t))
    ensures Tells(BuildChain(rows, t), k) <==>
            && Announces(day, s, BuildChain(rows, t).fill.value, k.raid, k.mss)
            && forall i: nat, j: nat :: j < k.mss ==> !Announces(day, s, BuildChain(rows, t).fill.value, i, j)
  {
    hide StreamLog, ScratchEvents, IsRaid, IsMss, Accepted, AttemptAt, SetupAt, Verdict, Matches, TradeOf, Announces;
    var log := StreamLog(day, s, |day|) + ScratchEvents(day, s, Some(k));
    InOrderHolds(rows, log);
    FallbacksUnreachable(day, s, Some(k), rows);
    SideOf(day, s, k);
    var c := BuildChain(rows, t);
    StoryComplete(day, s, Some(k), rows, t);
    var f := c.fill.value;
    assert f in log;
    NotScratch(day, s, Some(k), f);
    var origin := FillOrigin(day, s, f);
    FoundAnnouncement(day, s, k, rows, f);
  }

  lemma SideOf(day: seq<Bar>, s: Session, k: Key)
    requires Verdict(day, s, Some(k))
    ensures TradeFor(day, s, Some(k)).value.side == s.side
  {
    hide AttemptAt, SetupAt, IsRaid, IsMss;
  }

  /** A fill row of the returned trade's side and entry price. */
  predicate IsFillOf(row: Row, t: Trade) {
    row.event.OrderFilled? && row.event.side == t.side && -0.000000001 < row.event.entry - t.entry < 0.000000001
  }

  /** A close row of its outcome and exit price. */
  predicate IsCloseOf(row: Row, t: Trade) {
    && row.event.TradeClosed? && row.event.outcome == t.outcome
    && -0.000000001 < row.event.exitPrice - t.exitPrice < 0.000000001
  }

  /** The runner's own search finds the first fill of the trade's side and price. */
  lemma RunnerFillMeans(rows: seq<Row>, t: Trade)
    ensures FirstSuch(rows, (row: Row) => IsFillOf(row, t), MatchFill(rows, t))
  {
    FirstMeans(rows, (e: Event) => e.OrderFilled? && e.side == t.side && Matches(e.entry, t.entry));
  }

  /** And the last close of its outcome and exit price. */
  lemma RunnerCloseMeans(rows: seq<Row>, t: Trade)
    ensures FirstSuch(Reversed(rows), (row: Row) => IsCloseOf(row, t), MatchClose(rows, t))
  {
    FirstMeans(Reversed(rows),
               (e: Event) => e.TradeClosed? && e.outcome == t.outcome && Matches(e.exitPrice, t.exitPrice));
  }

  lemma AcceptedIsSetup(day: seq<Bar>, side: Side, j: nat)
    requires j < |day| && Accepted(day, side, j)
    ensures SetupAt(day, side, j).Some? && FindFvg(day, side, j).Some?
  {
  }
}
