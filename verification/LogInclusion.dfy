/** Everything the batch model logs for a day is in the streaming journal, and whatever the streaming journal has beyond
    it is a candidate announcement or lies after the winning search. */
module LogInclusion {
  import opened Market
  import opened FvgModel
  import opened Journal

  // ---------- a search seen at two cut-offs ----------

  lemma TouchCut(day: seq<Bar>, side: Side, entry: real, from: nat, m: nat, n: nat)
    requires from <= m <= n <= |day|
    ensures var p := FirstTouch(day, side, entry, from, n);
            FirstTouch(day, side, entry, from, m) == if p < m then p else m
  {
    hide Touched;
    var p, p' := FirstTouch(day, side, entry, from, n), FirstTouch(day, side, entry, from, m);
    var x := if p < m then Touched(day[p], side, entry) else true;
    var y := if p' < m then Touched(day[p'], side, entry) else true;
  }

  lemma ExitCut(day: seq<Bar>, side: Side, stop: real, target: real, from: nat, m: nat, n: nat)
    requires from <= m <= n <= |day|
    ensures var q := FirstExit(day, side, stop, target, from, n);
            FirstExit(day, side, stop, target, from, m) == if q < m then q else m
  {
    hide StopHit, TargetHit;
    var q, q' := FirstExit(day, side, stop, target, from, n), FirstExit(day, side, stop, target, from, m);
    var x := if q < m then StopHit(day[q], side, stop) else true;
    var y := if q' < m then StopHit(day[q'], side, stop) else true;
  }

  /** Cutting a search at m forgets exactly the fill and the exit that lie at m or later. */
  lemma AttemptCut(day: seq<Bar>, side: Side, j: nat, m: nat, n: nat)
    requires j < m <= n <= |day| && SetupAt(day, side, j).Some?
    ensures var a := AttemptAt(day, side, j, n);
            AttemptAt(day, side, j, m) ==
            if a.HasFilled() && a.fillBar < m then
              if a.Closed? && a.exitBar >= m then Open(a.target, a.fillBar) else a
            else if a.HasFilled() then Pending
            else if a.Abandoned? && FirstTouch(day, side, SetupAt(day, side, j).value.entry, j + 1, n) >= m then Pending
            else a
  {
    hide SetupAt, FirstTouch, AttemptAt;
    var st := SetupAt(day, side, j).value;
    if FirstTouch(day, side, st.entry, j + 1, n) >= m {
      CutUntouched(day, side, j, m, n);
    } else {
      CutTouched(day, side, j, m, n);
    }
  }

  lemma CutUntouched(day: seq<Bar>, side: Side, j: nat, m: nat, n: nat)
    requires j < m <= n <= |day| && SetupAt(day, side, j).Some?
    requires FirstTouch(day, side, SetupAt(day, side, j).value.entry, j + 1, n) >= m
    ensures var a := AttemptAt(day, side, j, n);
            && AttemptAt(day, side, j, m) == (if a.Rejected? then Rejected else Pending)
            && (a.HasFilled() ==> a.fillBar >= m)
  {
    hide SetupAt, Target, FirstTouch, FirstExit, Touched, StopHit, TargetHit, TargetValid;
    TouchCut(day, side, SetupAt(day, side, j).value.entry, j + 1, m, n);
  }

  lemma CutTouched(day: seq<Bar>, side: Side, j: nat, m: nat, n: nat)
    requires j < m <= n <= |day| && SetupAt(day, side, j).Some?
    requires FirstTouch(day, side, SetupAt(day, side, j).value.entry, j + 1, n) < m
    ensures var a := AttemptAt(day, side, j, n);
            && !a.Pending? && (a.HasFilled() ==> a.fillBar < m)
            && AttemptAt(day, side, j, m) == if a.Closed? && a.exitBar >= m then Open(a.target, a.fillBar) else a
  {
    hide SetupAt, Target, FirstTouch, FirstExit, Touched, StopHit, TargetHit, TargetValid;
    var st := SetupAt(day, side, j).value;
    TouchCut(day, side, st.entry, j + 1, m, n);
    var p := FirstTouch(day, side, st.entry, j + 1, n);
    if TARGET_LOOKBACK <= p {
      ExitCut(day, side, st.stop, Target(day, side, p), p, m, n);
    }
  }

  /** A search's fill and exit are emitted at their own bars, and nothing else is. */
  lemma AttemptEventsAre(day: seq<Bar>, side: Side, j: nat, b: nat)
    requires j < b < |day| && SetupAt(day, side, j).Some?
    ensures var a := AttemptAt(day, side, j, |day|);
            AttemptEvents(day, side, j, b) ==
            (if a.HasFilled() && a.fillBar == b then [FillEvent(day, side, j, a)] else []) +
            (if a.Closed? && a.exitBar == b then [TradeClosed(day[b].time, side, a.outcome, a.exitPrice)] else [])
  {
    hide SetupAt, AttemptAt;
    AttemptCut(day, side, j, b + 1, |day|);
  }

  // ---------- membership in the streaming journal ----------

  lemma {:induction false} InStream(day: seq<Bar>, s: Session, b: nat, n: nat)
    requires b < n <= |day|
    ensures forall e :: e in BarEvents(day, s, b) ==> e in StreamLog(day, s, n)
  {
    hide BarEvents;
    if b < n - 1 { InStream(day, s, b, n - 1); }
  }

  lemma {:induction false} InAllWatch(day: seq<Bar>, s: Session, raids: seq<nat>, i: nat, b: nat)
    requires b < |day| && i in raids
    ensures forall e :: e in WatchEvents(day, s, i, b) ==> e in AllWatchEvents(day, s, raids, b)
  {
    hide WatchEvents;
    if i != raids[|raids| - 1] { InAllWatch(day, s, raids[..|raids| - 1], i, b); }
  }

  lemma {:induction false} InAllAttempts(day: seq<Bar>, s: Session, keys: seq<Key>, k: Key, b: nat)
    requires b < |day| && k in keys
    ensures forall e :: e in AttemptEvents(day, s.side, k.mss, b) ==> e in AllAttemptEvents(day, s, keys, b)
  {
    hide AttemptEvents;
    if k != keys[|keys| - 1] { InAllAttempts(day, s, keys[..|keys| - 1], k, b); }
  }

  lemma {:induction false} FromAllWatch(day: seq<Bar>, s: Session, raids: seq<nat>, b: nat, e: Event) returns (i: nat)
    requires b < |day| && e in AllWatchEvents(day, s, raids, b)
    ensures i in raids && e in WatchEvents(day, s, i, b)
  {
    hide WatchEvents;
    i := raids[|raids| - 1];
    if e !in WatchEvents(day, s, i, b) { i := FromAllWatch(day, s, raids[..|raids| - 1], b, e); }
  }

  lemma {:induction false} FromAllAttempts(day: seq<Bar>, s: Session, keys: seq<Key>, b: nat, e: Event) returns (k: Key)
    requires b < |day| && e in AllAttemptEvents(day, s, keys, b)
    ensures k in keys && e in AttemptEvents(day, s.side, k.mss, b)
  {
    hide AttemptEvents;
    k := keys[|keys| - 1];
    if e !in AttemptEvents(day, s.side, k.mss, b) { k := FromAllAttempts(day, s, keys[..|keys| - 1], b, e); }
  }

  lemma {:induction false} FromStream(day: seq<Bar>, s: Session, n: nat, e: Event) returns (b: nat)
    requires n <= |day| && e in StreamLog(day, s, n)
    ensures b < n && e in BarEvents(day, s, b)
  {
    hide BarEvents;
    b := n - 1;
    if e !in BarEvents(day, s, b) { b := FromStream(day, s, n - 1, e); }
  }

  /** Raid i is being examined at bar j: a search position of the model. */
  ghost predicate Position(day: seq<Bar>, s: Session, i: nat, j: nat) {
    IsRaid(day, s, i) && i < j < |day|
  }

  lemma RaidInStream(day: seq<Bar>, s: Session, i: nat)
    requires IsRaid(day, s, i)
    ensures forall e :: e in RaidEvents(day, s, i) ==> e in StreamLog(day, s, |day|)
  {
    hide IsRaid, RaidEvents, Raids, Keys, AllWatchEvents, AllAttemptEvents, SwingEvents;
    assert i < |day| by { RaidBounds(day, s, i); }
    InStream(day, s, i, |day|);
  }

  lemma RaidBounds(day: seq<Bar>, s: Session, i: int)
    requires IsRaid(day, s, i)
    ensures 0 <= i < |day| && s.start <= i < s.end && BothSwings(day, i)
  {
  }

  lemma WatchInStream(day: seq<Bar>, s: Session, i: nat, j: nat)
    requires Position(day, s, i, j)
    ensures forall e :: e in WatchEvents(day, s, i, j) ==> e in StreamLog(day, s, |day|)
  {
    hide IsRaid, WatchEvents, Keys, AllWatchEvents, AllAttemptEvents, SwingEvents, RaidEvents;
    InStream(day, s, j, |day|);
    InAllWatch(day, s, Raids(day, s, j), i, j);
  }

  lemma AttemptInStream(day: seq<Bar>, s: Session, i: nat, j: nat, b: nat)
    requires IsRaid(day, s, i) && IsMss(day, s.side, i, j) && Accepted(day, s.side, j) && b < |day| && j < b
    ensures forall e :: e in AttemptEvents(day, s.side, j, b) ==> e in StreamLog(day, s, |day|)
  {
    hide IsRaid, IsMss, Raids, AttemptEvents, AllWatchEvents, AllAttemptEvents, SwingEvents, RaidEvents;
    InStream(day, s, b, |day|);
    assert Key(i, j) in Keys(day, s, b);
    InAllAttempts(day, s, Keys(day, s, b), Key(i, j), b);
  }

  // ---------- the batch log is included ----------

  /** `e` is in the streaming journal of the finalized day, up to the added reference level. */
  ghost predicate Streamed(day: seq<Bar>, s: Session, w: Option<Key>, e: Event)
    requires WellPlaced(day, s, w)
  {
    exists e' :: e' in StreamLog(day, s, |day|) + ScratchEvents(day, s, w) && Golden(e') == e
  }

  /** A position at or before the verdict. */
  predicate Examined(w: Option<Key>, i: nat, j: nat) {
    w.None? || LexLe(Key(i, j), w.value)
  }

  lemma WinnerShape(day: seq<Bar>, s: Session, w: Option<Key>)
    requires Verdict(day, s, w)
    ensures WellPlaced(day, s, w)
    ensures w.Some? ==>
      && Position(day, s, w.value.raid, w.value.mss) && IsMss(day, s.side, w.value.raid, w.value.mss)
      && Accepted(day, s.side, w.value.mss) && AttemptAt(day, s.side, w.value.mss, |day|).HasFilled()
      && w.value.mss <= w.value.raid + MSS_WINDOW
    ensures forall i: nat, j: nat :: Fills(day, s, i, j) && Examined(w, i, j) ==> w == Some(Key(i, j))
  {
    hide LatestPivot, AttemptAt, SetupAt, Reference, RaidLevel, BothSwings;
  }

  lemma TradeStreamed(day: seq<Bar>, s: Session, w: Key, e: Event)
    requires Verdict(day, s, Some(w)) && WellPlaced(day, s, Some(w))
    requires AttemptAt(day, s.side, w.mss, |day|).HasFilled() && e in TradeLog(day, s.side, w.mss)
    ensures Streamed(day, s, Some(w), e)
  {
    hide IsRaid, IsMss, AttemptAt, SetupAt, StreamLog, Verdict, AttemptEvents;
    WinnerShape(day, s, Some(w));
    var j := w.mss;
    var a := AttemptAt(day, s.side, j, |day|);
    AttemptEventsAre(day, s.side, j, a.fillBar);
    AttemptInStream(day, s, w.raid, j, a.fillBar);
    if a.Closed? {
      AttemptEventsAre(day, s.side, j, a.exitBar);
      AttemptInStream(day, s, w.raid, j, a.exitBar);
    }
    assert Golden(e) == e;
  }

  lemma PairStreamed(day: seq<Bar>, s: Session, w: Option<Key>, i: nat, j: nat, e: Event)
    requires Verdict(day, s, w) && Position(day, s, i, j) && Examined(w, i, j) && e in PairLog(day, s, i, j)
    requires WellPlaced(day, s, w)
    ensures Streamed(day, s, w, e)
  {
    hide IsRaid, IsMss, AttemptAt, SetupAt, StreamLog, Verdict, TradeLog, FindFvg, Reference, LatestPivot, BothSwings;
    WinnerShape(day, s, w);
    WatchInStream(day, s, i, j);
    if Fills(day, s, i, j) && e in TradeLog(day, s.side, j) {
      TradeStreamed(day, s, w.value, e);
    } else {
      assert e in WatchEvents(day, s, i, j);
      assert Golden(e) == e;
    }
  }

  lemma {:induction false} RaidSearchStreamed(day: seq<Bar>, s: Session, w: Option<Key>, i: nat, j: nat, e: Event)
    requires Verdict(day, s, w) && IsRaid(day, s, i) && i < j <= |day|
    requires WellPlaced(day, s, w)
    requires i < j - 1 ==> Examined(w, i, j - 1)
    requires e in RaidSearchLog(day, s, i, j)
    ensures Streamed(day, s, w, e)
  {
    hide IsRaid, Verdict, Streamed, PairLog;
    if e in PairLog(day, s, i, j - 1) {
      PairStreamed(day, s, w, i, j - 1, e);
    } else {
      RaidSearchStreamed(day, s, w, i, j - 1, e);
    }
  }

  lemma RaidStreamed(day: seq<Bar>, s: Session, w: Option<Key>, i: nat)
    requires IsRaid(day, s, i)
    requires WellPlaced(day, s, w)
    ensures Streamed(day, s, w, GoldenRaid(day, s, i))
  {
    hide StreamLog, LatestPivot;
    RaidInStream(day, s, i);
    var e := RaidEvents(day, s, i)[0];
    assert e in RaidEvents(day, s, i);
    assert Golden(e) == GoldenRaid(day, s, i);
  }

  lemma {:induction false} SearchStreamed(day: seq<Bar>, s: Session, w: Option<Key>, i: nat, e: Event)
    requires Verdict(day, s, w) && 0 <= s.start <= i <= |day| && (w.Some? ==> i <= w.value.raid)
    requires WellPlaced(day, s, w)
    requires e in SearchLog(day, s, i)
    ensures Streamed(day, s, w, e)
    decreases i
  {
    hide IsRaid, Verdict, Streamed, RaidSearchLog, GoldenRaid;
    if e in SearchLog(day, s, i - 1) {
      SearchStreamed(day, s, w, i - 1, e);
    } else {
      RaidStreamed(day, s, w, i - 1);
      if e != GoldenRaid(day, s, i - 1) {
        RaidSearchStreamed(day, s, w, i - 1, Min(i - 1 + 10, |day|), e);
      }
    }
  }

  lemma SwingStreamed(day: seq<Bar>, s: Session, w: Option<Key>, b: nat, e: Event)
    requires b < |day| && e in SwingEvents(day, b)
    requires WellPlaced(day, s, w)
    ensures Streamed(day, s, w, e)
  {
    hide IsPivot, StreamLog, ScratchEvents, Raids, Keys, AllWatchEvents, AllAttemptEvents, RaidEvents;
    InStream(day, s, b, |day|);
    assert e in BarEvents(day, s, b);
    assert Golden(e) == e;
  }

  lemma {:induction false} PivotStreamed(day: seq<Bar>, s: Session, w: Option<Key>, n: nat, e: Event)
    requires n <= |day| && e in PivotLog(day, n)
    requires WellPlaced(day, s, w)
    ensures Streamed(day, s, w, e)
  {
    hide Streamed, SwingEvents;
    if e in SwingEvents(day, n - 1) {
      SwingStreamed(day, s, w, n - 1, e);
    } else {
      PivotStreamed(day, s, w, n - 1, e);
    }
  }

  /** Every event of the batch log is in the streaming journal. */
  lemma BatchLogIncluded(day: seq<Bar>, s: Session, w: Option<Key>, e: Event)
    requires 0 <= s.start && s.end <= |day| && Verdict(day, s, w)
    requires e in BatchLog(day, s, w)
    ensures Streamed(day, s, w, e)
  {
    hide IsRaid, Verdict, Streamed, SearchLog, RaidSearchLog, PivotLog;
    WinnerShape(day, s, w);
    if e in PivotLog(day, |day|) {
      PivotStreamed(day, s, w, |day|, e);
    } else if w.None? {
      SearchStreamed(day, s, w, s.end, e);
    } else {
      var k := w.value;
      RaidBounds(day, s, k.raid);
      if e in SearchLog(day, s, k.raid) {
        SearchStreamed(day, s, w, k.raid, e);
      } else if e == GoldenRaid(day, s, k.raid) {
        RaidStreamed(day, s, w, k.raid);
      } else {
        RaidSearchStreamed(day, s, w, k.raid, k.mss + 1, e);
      }
    }
  }

  // ---------- what the streaming journal has beyond it ----------

  /** `e` comes from a raid after the winner's, or from a later position of the search. */
  ghost predicate AfterWinner(day: seq<Bar>, s: Session, w: Option<Key>, e: Event) {
    && w.Some?
    && exists i: nat, j: nat ::
      && i <= j < |day| && IsRaid(day, s, i) && !Examined(w, i, j)
      && ((i == j && e in RaidEvents(day, s, i)) ||
          e in WatchEvents(day, s, i, j) ||
          (IsMss(day, s.side, i, j) && exists b: nat :: b < |day| && e in AttemptEvents(day, s.side, j, b)))
  }

  lemma {:induction false} InSearch(day: seq<Bar>, s: Session, i: nat, k: nat)
    requires 0 <= s.start <= k < i <= |day| && IsRaid(day, s, k)
    ensures GoldenRaid(day, s, k) in SearchLog(day, s, i)
    ensures forall e :: e in RaidSearchLog(day, s, k, Min(k + 10, |day|)) ==> e in SearchLog(day, s, i)
    decreases i
  {
    hide IsRaid, GoldenRaid, RaidSearchLog;
    if k < i - 1 { InSearch(day, s, i - 1, k); }
  }

  lemma {:induction false} InRaidSearch(day: seq<Bar>, s: Session, i: nat, j: nat, n: nat)
    requires i < j < n <= |day|
    ensures forall e :: e in PairLog(day, s, i, j) ==> e in RaidSearchLog(day, s, i, n)
  {
    hide PairLog;
    if j < n - 1 { InRaidSearch(day, s, i, j, n - 1); }
  }

  lemma {:induction false} InPivots(day: seq<Bar>, b: nat, n: nat)
    requires b < n <= |day|
    ensures forall e :: e in SwingEvents(day, b) ==> e in PivotLog(day, n)
  {
    hide SwingEvents;
    if b < n - 1 { InPivots(day, b, n - 1); }
  }

  /** A raid or a pair at or before the verdict is in the batch log. */
  lemma ExaminedInBatch(day: seq<Bar>, s: Session, w: Option<Key>, i: nat, j: nat)
    requires 0 <= s.start && s.end <= |day| && Verdict(day, s, w)
    requires WellPlaced(day, s, w)
    requires IsRaid(day, s, i) && i <= j < |day| && Examined(w, i, j) && j <= i + MSS_WINDOW
    ensures i == j ==> GoldenRaid(day, s, i) in BatchLog(day, s, w)
    ensures i < j ==> forall e :: e in PairLog(day, s, i, j) ==> e in BatchLog(day, s, w)
  {
    hide IsRaid, Verdict, GoldenRaid, PairLog, PivotLog, SearchLog, RaidSearchLog;
    RaidBounds(day, s, i);
    if w.Some? && i == w.value.raid {
      if i < j { InRaidSearch(day, s, i, j, w.value.mss + 1); }
    } else {
      InSearch(day, s, if w.Some? then w.value.raid else s.end, i);
      if i < j { InRaidSearch(day, s, i, j, Min(i + 10, |day|)); }
    }
  }

  /** Events of a pair's watch, other than the announcement, are what the batch model logs for that pair. */
  lemma WatchIsPair(day: seq<Bar>, s: Session, i: nat, j: nat, e: Event)
    requires j < |day| && e in WatchEvents(day, s, i, j) && !e.CandidateReady?
    ensures e in PairLog(day, s, i, j) && Golden(e) == e
    ensures IsMss(day, s.side, i, j)
  {
    hide IsMss, FindFvg, Reference, TradeLog, AttemptAt;
  }

  lemma MssWindow(day: seq<Bar>, side: Side, i: nat, j: nat)
    requires IsMss(day, side, i, j)
    ensures i < j <= i + MSS_WINDOW && j < |day|
  {
  }

  lemma AttemptIsTrade(day: seq<Bar>, s: Session, i: nat, j: nat, b: nat, e: Event)
    requires b < |day| && e in AttemptEvents(day, s.side, j, b)
    requires IsMss(day, s.side, i, j) && Accepted(day, s.side, j) && IsRaid(day, s, i)
    ensures j < |day| && Fills(day, s, i, j) && e in PairLog(day, s, i, j) && Golden(e) == e
  {
    hide IsMss, IsRaid, AttemptAt, Reference;
    MssWindow(day, s.side, i, j);
    AttemptEventsAre(day, s.side, j, b);
  }

  /** Beyond the batch log the streaming journal holds only announcements and events after the winner; on a day
      without a winner, only announcements. */
  lemma ExtrasAfterWinner(day: seq<Bar>, s: Session, w: Option<Key>, e: Event)
    requires 0 <= s.start && s.end <= |day| && Verdict(day, s, w)
    requires e in StreamLog(day, s, |day|) + ScratchEvents(day, s, w) && !e.CandidateReady?
    ensures Golden(e) in BatchLog(day, s, w) || AfterWinner(day, s, w, e)
  {
    hide StreamLog, SwingEvents, AllAttemptEvents, AllWatchEvents, RaidEvents, WatchEvents, AttemptEvents, IsRaid,
         IsMss, Verdict, PairLog, SearchLog, RaidSearchLog, Raids, Keys;
    WinnerShape(day, s, w);
    if e in ScratchEvents(day, s, w) {
      ScratchIsTrade(day, s, w.value.raid, w.value.mss, e);
      ExaminedInBatch(day, s, w, w.value.raid, w.value.mss);
      return;
    }
    var b := FromStream(day, s, |day|, e);
    if e in SwingEvents(day, b) {
      InPivots(day, b, |day|);
      SwingGolden(day, b, e);
    } else if e in AllAttemptEvents(day, s, Keys(day, s, b), b) {
      var k := FromAllAttempts(day, s, Keys(day, s, b), b, e);
      AttemptIsTrade(day, s, k.raid, k.mss, b, e);
      MssWindow(day, s.side, k.raid, k.mss);
      if Examined(w, k.raid, k.mss) { ExaminedInBatch(day, s, w, k.raid, k.mss); }
    } else if e in AllWatchEvents(day, s, Raids(day, s, b), b) {
      var i := FromAllWatch(day, s, Raids(day, s, b), b, e);
      WatchIsPair(day, s, i, b, e);
      MssWindow(day, s.side, i, b);
      if Examined(w, i, b) { ExaminedInBatch(day, s, w, i, b); }
    } else {
      assert e in RaidEvents(day, s, b);
      RaidGolden(day, s, b, e);
      if Examined(w, b, b) { ExaminedInBatch(day, s, w, b, b); }
    }
  }

  lemma ScratchIsTrade(day: seq<Bar>, s: Session, i: nat, j: nat, e: Event)
    requires WellPlaced(day, s, Some(Key(i, j))) && IsMss(day, s.side, i, j)
    requires e in ScratchEvents(day, s, Some(Key(i, j)))
    ensures e in PairLog(day, s, i, j) && Golden(e) == e
  {
    hide IsMss, IsRaid, AttemptAt, Reference;
  }

  lemma SwingGolden(day: seq<Bar>, b: nat, e: Event)
    requires b < |day| && e in SwingEvents(day, b)
    ensures Golden(e) == e
  {
  }

  lemma RaidGolden(day: seq<Bar>, s: Session, b: nat, e: Event)
    requires b < |day| && e in RaidEvents(day, s, b)
    ensures IsRaid(day, s, b) && Golden(e) == GoldenRaid(day, s, b)
  {
    hide BothSwings, LatestPivot;
  }
}
