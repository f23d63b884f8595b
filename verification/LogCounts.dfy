/** The inclusion of the batch log in the streaming journal, with multiplicity: every event is emitted at least as often
    as it is logged. */
module LogCounts {
  import opened Market
  import opened FvgModel
  import opened Journal
  import opened LogInclusion

  /** The events of a log in golden form, with multiplicity. */
  function Golds(log: seq<Event>): multiset<Event> {
    if log == [] then multiset{} else Golds(log[..|log| - 1]) + multiset{Golden(log[|log| - 1])}
  }

  lemma {:induction false} GoldsAppend(xs: seq<Event>, ys: seq<Event>)
    ensures Golds(xs + ys) == Golds(xs) + Golds(ys)
  {
    if ys == [] {
      assert xs + ys == xs;
    } else {
      assert (xs + ys)[..|xs + ys| - 1] == xs + ys[..|ys| - 1];
      GoldsAppend(xs, ys[..|ys| - 1]);
    }
  }

  lemma GoldsOne(e: Event)
    ensures Golds([e]) == multiset{Golden(e)} && Golds([]) == multiset{}
  {
    assert [e][..0] == [];
  }

  // ---------- the streaming journal, kind by kind ----------

  function RaidPart(day: seq<Bar>, s: Session, n: nat): multiset<Event>
    requires n <= |day|
  {
    if n == 0 then multiset{} else RaidPart(day, s, n - 1) + Golds(RaidEvents(day, s, n - 1))
  }

  function WatchPart(day: seq<Bar>, s: Session, n: nat): multiset<Event>
    requires n <= |day|
  {
    if n == 0 then multiset{}
    else WatchPart(day, s, n - 1) + Golds(AllWatchEvents(day, s, Raids(day, s, n - 1), n - 1))
  }

  function AttemptPart(day: seq<Bar>, s: Session, n: nat): multiset<Event>
    requires n <= |day|
  {
    if n == 0 then multiset{}
    else AttemptPart(day, s, n - 1) + Golds(AllAttemptEvents(day, s, Keys(day, s, n - 1), n - 1))
  }

  lemma {:induction false} StreamParts(day: seq<Bar>, s: Session, n: nat)
    requires n <= |day|
    ensures Golds(StreamLog(day, s, n)) ==
            Golds(PivotLog(day, n)) + AttemptPart(day, s, n) + WatchPart(day, s, n) + RaidPart(day, s, n)
  {
    hide Golds, SwingEvents, RaidEvents, AllWatchEvents, AllAttemptEvents, Keys, Raids;
    if n == 0 {
      GoldsOne(SwingHigh(0, 0.0, 0));
    } else {
      StreamParts(day, s, n - 1);
      BarParts(day, s, n - 1);
      GoldsAppend(StreamLog(day, s, n - 1), BarEvents(day, s, n - 1));
      GoldsAppend(PivotLog(day, n - 1), SwingEvents(day, n - 1));
    }
  }

  lemma BarParts(day: seq<Bar>, s: Session, b: nat)
    requires b < |day|
    ensures Golds(BarEvents(day, s, b)) ==
            Golds(SwingEvents(day, b)) + Golds(AllAttemptEvents(day, s, Keys(day, s, b), b))
            + Golds(AllWatchEvents(day, s, Raids(day, s, b), b)) + Golds(RaidEvents(day, s, b))
  {
    hide Golds, SwingEvents, RaidEvents, AllWatchEvents, AllAttemptEvents, Keys, Raids;
    var x, a, v, r := SwingEvents(day, b), AllAttemptEvents(day, s, Keys(day, s, b), b),
                      AllWatchEvents(day, s, Raids(day, s, b), b), RaidEvents(day, s, b);
    GoldsAppend(x + a + v, r);
    GoldsAppend(x + a, v);
    GoldsAppend(x, a);
  }

  // ---------- by bar or by raid ----------

  /** What the watch of raid i emits at the bars after it, up to n. */
  function Row(day: seq<Bar>, s: Session, i: nat, n: nat): multiset<Event>
    requires n <= |day|
  {
    if n <= i + 1 then multiset{} else Row(day, s, i, n - 1) + Golds(WatchEvents(day, s, i, n - 1))
  }

  /** The rows of the raids before m. */
  function Rows(day: seq<Bar>, s: Session, m: nat, n: nat): multiset<Event>
    requires m <= n <= |day|
    decreases m
  {
    if m == 0 then multiset{}
    else Rows(day, s, m - 1, n) + if IsRaid(day, s, m - 1) then Row(day, s, m - 1, n) else multiset{}
  }

  lemma WatchSplit(day: seq<Bar>, s: Session, m: nat, b: nat)
    requires m < |day| && b < |day|
    ensures Golds(AllWatchEvents(day, s, Raids(day, s, m + 1), b)) ==
            Golds(AllWatchEvents(day, s, Raids(day, s, m), b)) +
            if IsRaid(day, s, m) then Golds(WatchEvents(day, s, m, b)) else multiset{}
  {
    hide Golds, IsRaid, WatchEvents;
    if IsRaid(day, s, m) {
      var raids := Raids(day, s, m + 1);
      assert raids[..|raids| - 1] == Raids(day, s, m);
      GoldsAppend(AllWatchEvents(day, s, Raids(day, s, m), b), WatchEvents(day, s, m, b));
    } else {
      assert Raids(day, s, m + 1) == Raids(day, s, m);
    }
  }

  lemma {:induction false} RowsStep(day: seq<Bar>, s: Session, m: nat, n: nat)
    requires m <= n < |day|
    ensures Rows(day, s, m, n + 1) == Rows(day, s, m, n) + Golds(AllWatchEvents(day, s, Raids(day, s, m), n))
    decreases m
  {
    hide Golds, IsRaid, WatchEvents, AllWatchEvents, Raids;
    if m == 0 {
      NoRaids(day, s, n);
    } else {
      RowsStep(day, s, m - 1, n);
      WatchSplit(day, s, m - 1, n);
    }
  }

  lemma NoRaids(day: seq<Bar>, s: Session, b: nat)
    requires b < |day|
    ensures Golds(AllWatchEvents(day, s, Raids(day, s, 0), b)) == multiset{}
  {
  }

  /** Summed by bar or by raid, the watches emit the same. */
  lemma {:induction false} WatchIsRows(day: seq<Bar>, s: Session, n: nat)
    requires n <= |day|
    ensures WatchPart(day, s, n) == Rows(day, s, n, n)
  {
    hide Golds, IsRaid, AllWatchEvents, Raids;
    if n > 0 {
      WatchIsRows(day, s, n - 1);
      RowsStep(day, s, n - 1, n - 1);
    }
  }

  lemma {:induction false} RowGrows(day: seq<Bar>, s: Session, i: nat, n: nat, n': nat)
    requires n <= n' <= |day|
    ensures Row(day, s, i, n) <= Row(day, s, i, n')
    decreases n'
  {
    hide Golds, WatchEvents;
    if n < n' { RowGrows(day, s, i, n, n' - 1); }
  }

  lemma {:induction false} RowsGrow(day: seq<Bar>, s: Session, m: nat, m': nat, n: nat)
    requires m <= m' <= n <= |day|
    ensures Rows(day, s, m, n) <= Rows(day, s, m', n)
    decreases m'
  {
    hide Row, IsRaid;
    if m < m' { RowsGrow(day, s, m, m' - 1, n); }
  }

  lemma {:induction false} RaidsGrow(day: seq<Bar>, s: Session, m: nat, m': nat)
    requires m <= m' <= |day|
    ensures RaidPart(day, s, m) <= RaidPart(day, s, m')
    decreases m'
  {
    hide RaidEvents, Golds;
    if m < m' { RaidsGrow(day, s, m, m' - 1); }
  }

  // ---------- one search ----------

  /** What the search at j emits before bar n. */
  function Attempts(day: seq<Bar>, s: Session, j: nat, n: nat): multiset<Event>
    requires n <= |day|
  {
    if n == 0 then multiset{} else Attempts(day, s, j, n - 1) + Golds(AttemptEvents(day, s.side, j, n - 1))
  }

  lemma {:induction false} OneKey(day: seq<Bar>, s: Session, keys: seq<Key>, k: Key, b: nat)
    requires b < |day| && k in keys
    ensures Golds(AttemptEvents(day, s.side, k.mss, b)) <= Golds(AllAttemptEvents(day, s, keys, b))
  {
    hide Golds, AttemptEvents;
    var n := |keys| - 1;
    GoldsAppend(AllAttemptEvents(day, s, keys[..n], b), AttemptEvents(day, s.side, keys[n].mss, b));
    if k != keys[n] { OneKey(day, s, keys[..n], k, b); }
  }

  lemma {:induction false} SearchInPart(day: seq<Bar>, s: Session, k: Key, n: nat)
    requires n <= |day| && k in Keys(day, s, |day|)
    ensures Attempts(day, s, k.mss, n) <= AttemptPart(day, s, n)
  {
    hide Golds, AllAttemptEvents, Keys, IsRaid, IsMss, Accepted, AttemptAt, SetupAt;
    if n > 0 {
      SearchInPart(day, s, k, n - 1);
      if n - 1 <= k.mss {
        GoldsOne(SwingHigh(0, 0.0, 0));
      } else {
        assert k in Keys(day, s, n - 1);
        OneKey(day, s, Keys(day, s, n - 1), k, n - 1);
      }
    }
  }

  function FillPart(day: seq<Bar>, side: Side, j: nat, before: nat): multiset<Event>
    requires j < |day| && SetupAt(day, side, j).Some? && AttemptAt(day, side, j, |day|).HasFilled()
  {
    var a := AttemptAt(day, side, j, |day|);
    if a.fillBar < before then multiset{FillEvent(day, side, j, a)} else multiset{}
  }

  function ExitPart(day: seq<Bar>, side: Side, j: nat, before: nat): multiset<Event>
    requires j < |day| && SetupAt(day, side, j).Some? && AttemptAt(day, side, j, |day|).HasFilled()
  {
    var a := AttemptAt(day, side, j, |day|);
    if a.Closed? && a.exitBar < before
    then multiset{TradeClosed(day[a.exitBar].time, side, a.outcome, a.exitPrice)} else multiset{}
  }

  lemma FillStep(day: seq<Bar>, side: Side, j: nat, b: nat)
    requires j < |day| && SetupAt(day, side, j).Some? && AttemptAt(day, side, j, |day|).HasFilled()
    ensures var a := AttemptAt(day, side, j, |day|);
            FillPart(day, side, j, b + 1) ==
            FillPart(day, side, j, b) + Golds(if a.fillBar == b then [FillEvent(day, side, j, a)] else [])
  {
    hide AttemptAt, SetupAt, Golds, FillEvent;
    var a := AttemptAt(day, side, j, |day|);
    FillIsGolden(day, side, j, a);
    GoldsOne(FillEvent(day, side, j, a));
  }

  lemma ExitStep(day: seq<Bar>, side: Side, j: nat, b: nat)
    requires j < |day| && b < |day| && SetupAt(day, side, j).Some? && AttemptAt(day, side, j, |day|).HasFilled()
    ensures var a := AttemptAt(day, side, j, |day|);
            ExitPart(day, side, j, b + 1) ==
            ExitPart(day, side, j, b) +
            Golds(if a.Closed? && a.exitBar == b then [TradeClosed(day[b].time, side, a.outcome, a.exitPrice)] else [])
  {
    hide AttemptAt, SetupAt, Golds;
    var a := AttemptAt(day, side, j, |day|);
    GoldsOne(SwingHigh(0, 0.0, 0));
    if a.Closed? { GoldsOne(TradeClosed(day[b].time, side, a.outcome, a.exitPrice)); }
  }

  lemma Regroup(f: multiset<Event>, x: multiset<Event>, f': multiset<Event>, x': multiset<Event>)
    ensures (f + f') + (x + x') == f + x + (f' + x')
  {
  }

  lemma BarEmits(day: seq<Bar>, side: Side, j: nat, b: nat)
    requires j < |day| && b < |day| && SetupAt(day, side, j).Some? && AttemptAt(day, side, j, |day|).HasFilled()
    ensures FillPart(day, side, j, b + 1) + ExitPart(day, side, j, b + 1) ==
            FillPart(day, side, j, b) + ExitPart(day, side, j, b) + Golds(AttemptEvents(day, side, j, b))
  {
    hide AttemptAt, SetupAt, Golds, AttemptEvents, FillEvent, FillPart, ExitPart;
    var a := AttemptAt(day, side, j, |day|);
    var fills := if a.fillBar == b then [FillEvent(day, side, j, a)] else [];
    var exits := if a.Closed? && a.exitBar == b then [TradeClosed(day[b].time, side, a.outcome, a.exitPrice)] else [];
    FillStep(day, side, j, b);
    ExitStep(day, side, j, b);
    if b <= j { NoneBefore(day, side, j, b); } else { AttemptEventsAre(day, side, j, b); }
    assert AttemptEvents(day, side, j, b) == fills + exits;
    GoldsAppend(fills, exits);
    Regroup(FillPart(day, side, j, b), ExitPart(day, side, j, b), Golds(fills), Golds(exits));
  }

  /** A search emits its fill once, and its exit once if it closes. */
  lemma {:induction false} SearchEmits(day: seq<Bar>, s: Session, j: nat, n: nat)
    requires j < |day| && n <= |day| && SetupAt(day, s.side, j).Some? && AttemptAt(day, s.side, j, |day|).HasFilled()
    ensures Attempts(day, s, j, n) == FillPart(day, s.side, j, n) + ExitPart(day, s.side, j, n)
  {
    hide AttemptAt, SetupAt, Golds, AttemptEvents, FillPart, ExitPart;
    if n > 0 {
      SearchEmits(day, s, j, n - 1);
      BarEmits(day, s.side, j, n - 1);
    } else {
      NothingYet(day, s.side, j);
    }
  }

  lemma NothingYet(day: seq<Bar>, side: Side, j: nat)
    requires j < |day| && SetupAt(day, side, j).Some? && AttemptAt(day, side, j, |day|).HasFilled()
    ensures FillPart(day, side, j, 0) + ExitPart(day, side, j, 0) == multiset{}
  {
  }

  lemma NoneBefore(day: seq<Bar>, side: Side, j: nat, b: nat)
    requires b < |day| && b <= j
    ensures AttemptEvents(day, side, j, b) == []
  {
  }

  lemma FillIsGolden(day: seq<Bar>, side: Side, j: nat, a: Attempt)
    requires j < |day| && SetupAt(day, side, j).Some? && a.HasFilled() && a.fillBar < |day|
    ensures Golden(FillEvent(day, side, j, a)) == FillEvent(day, side, j, a)
  {
  }

  // ---------- the batch log ----------

  /** A pair's log is its watch events, golden, and the trade's events if its search fills. */
  lemma PairCounts(day: seq<Bar>, s: Session, i: nat, j: nat)
    requires IsRaid(day, s, i) && j < |day|
    ensures !Fills(day, s, i, j) ==> Golds(PairLog(day, s, i, j)) <= Golds(WatchEvents(day, s, i, j))
    ensures Fills(day, s, i, j) ==>
              Golds(PairLog(day, s, i, j)) <= Golds(WatchEvents(day, s, i, j)) + Golds(TradeLog(day, s.side, j))
  {
    hide IsRaid, IsMss, AttemptAt, Golds, TradeLog, Reference, BothSwings;
    if IsMss(day, s.side, i, j) && FindFvg(day, s.side, j).Some? && Accepted(day, s.side, j) {
      var head := PairHead(day, s, i, j);
      var st := SetupAt(day, s.side, j).value;
      var c := CandidateReady(day[j].time, s.side, st.entry, st.stop, i, j);
      assert WatchEvents(day, s, i, j) == head + [c];
      GoldsAppend(head, [c]);
      if Fills(day, s, i, j) {
        assert PairLog(day, s, i, j) == head + TradeLog(day, s.side, j);
        GoldsAppend(head, TradeLog(day, s.side, j));
      } else {
        assert PairLog(day, s, i, j) == head;
      }
    } else {
      assert PairLog(day, s, i, j) == WatchEvents(day, s, i, j);
    }
  }

  /** The shift and its gap. */
  function PairHead(day: seq<Bar>, s: Session, i: nat, j: nat): seq<Event>
    requires j < |day| && IsMss(day, s.side, i, j) && FindFvg(day, s.side, j).Some?
  {
    var g := FindFvg(day, s.side, j).value;
    [Mss(day[j].time, s.side, Reference(day, s.side, i), day[j].close, i, j)] +
    [FvgFound(day[j].time, s.side, g.top, g.bottom, g.frame, j)]
  }

  /** A raid whose pairs up to bar n do not fill logs no more than its row. */
  lemma {:induction false} RaidSearchCounts(day: seq<Bar>, s: Session, i: nat, n: nat)
    requires IsRaid(day, s, i) && i < n <= |day| && forall j: nat :: i < j < n ==> !Fills(day, s, i, j)
    ensures Golds(RaidSearchLog(day, s, i, n)) <= Row(day, s, i, n)
  {
    hide IsRaid, Golds, PairLog, WatchEvents, Fills;
    if n == i + 1 {
      GoldsOne(SwingHigh(0, 0.0, 0));
    } else {
      RaidSearchCounts(day, s, i, n - 1);
      PairCounts(day, s, i, n - 1);
      GoldsAppend(RaidSearchLog(day, s, i, n - 1), PairLog(day, s, i, n - 1));
    }
  }

  /** The raids before bar i, none of which has a fill. */
  lemma {:induction false} SearchCounts(day: seq<Bar>, s: Session, i: nat)
    requires 0 <= s.start <= i <= |day| && forall k: nat, j: nat :: k < i ==> !Fills(day, s, k, j)
    ensures Golds(SearchLog(day, s, i)) <= RaidPart(day, s, i) + Rows(day, s, i, |day|)
    decreases i
  {
    hide IsRaid, Golds, RaidSearchLog, Row, Fills, GoldenRaid, RaidEvents;
    if i == s.start {
      GoldsOne(SwingHigh(0, 0.0, 0));
    } else {
      SearchCounts(day, s, i - 1);
      if IsRaid(day, s, i - 1) {
        OneRaid(day, s, i - 1);
      } else {
        assert SearchLog(day, s, i) == SearchLog(day, s, i - 1);
      }
    }
  }

  lemma OneRaid(day: seq<Bar>, s: Session, k: nat)
    requires 0 <= s.start <= k < |day| && IsRaid(day, s, k) && forall j: nat :: !Fills(day, s, k, j)
    ensures Golds(SearchLog(day, s, k + 1)) <=
            Golds(SearchLog(day, s, k)) + Golds(RaidEvents(day, s, k)) + Row(day, s, k, |day|)
  {
    hide IsRaid, Golds, RaidSearchLog, Row, Fills;
    var end := Min(k + 10, |day|);
    var g, r := GoldenRaid(day, s, k), RaidSearchLog(day, s, k, end);
    RaidIsGolden(day, s, k);
    RaidSearchCounts(day, s, k, end);
    RowGrows(day, s, k, end, |day|);
    assert SearchLog(day, s, k + 1) == SearchLog(day, s, k) + ([g] + r);
    GoldsAppend(SearchLog(day, s, k), [g] + r);
    GoldsAppend([g], r);
  }

  lemma RaidIsGolden(day: seq<Bar>, s: Session, k: nat)
    requires k < |day| && IsRaid(day, s, k)
    ensures Golds([GoldenRaid(day, s, k)]) == Golds(RaidEvents(day, s, k)) == multiset{GoldenRaid(day, s, k)}
  {
    GoldsOne(GoldenRaid(day, s, k));
    GoldsOne(RaidEvents(day, s, k)[0]);
  }

  /** The winner's raid: its pairs up to the shift that fills, and the trade. */
  lemma WinnerCounts(day: seq<Bar>, s: Session, k: Key)
    requires Verdict(day, s, Some(k)) && WellPlaced(day, s, Some(k)) && Fills(day, s, k.raid, k.mss) && 0 <= s.start
    ensures Golds([GoldenRaid(day, s, k.raid)] + RaidSearchLog(day, s, k.raid, k.mss + 1)) <=
            Golds(RaidEvents(day, s, k.raid)) + Row(day, s, k.raid, |day|) + Golds(TradeLog(day, s.side, k.mss))
  {
    hide IsRaid, Golds, Fills, TradeLog, RaidEvents, GoldenRaid, RaidSearchLog, Row, Verdict;
    var i, j := k.raid, k.mss;
    WinnerIsFirst(day, s, k);
    RaidIsGolden(day, s, i);
    WinnerPairs(day, s, i, j);
    GoldsAppend([GoldenRaid(day, s, i)], RaidSearchLog(day, s, i, j + 1));
  }

  lemma WinnerIsFirst(day: seq<Bar>, s: Session, k: Key)
    requires Verdict(day, s, Some(k)) && Fills(day, s, k.raid, k.mss)
    ensures IsRaid(day, s, k.raid) && k.raid < k.mss < |day|
    ensures forall x: nat :: k.raid < x < k.mss ==> !Fills(day, s, k.raid, x)
  {
    hide IsRaid, AttemptAt, SetupAt, Reference, BothSwings;
    forall x: nat | k.raid < x < k.mss ensures !Fills(day, s, k.raid, x) {
      assert Fills(day, s, k.raid, x) ==> LexLe(k, Key(k.raid, x));
    }
  }

  /** The pairs of a raid up to the first that fills. */
  lemma WinnerPairs(day: seq<Bar>, s: Session, i: nat, j: nat)
    requires IsRaid(day, s, i) && i < j < |day| && Fills(day, s, i, j)
    requires forall x: nat :: i < x < j ==> !Fills(day, s, i, x)
    ensures Golds(RaidSearchLog(day, s, i, j + 1)) <= Row(day, s, i, |day|) + Golds(TradeLog(day, s.side, j))
  {
    hide IsRaid, Golds, PairLog, WatchEvents, Fills, TradeLog;
    RaidSearchCounts(day, s, i, j);
    PairCounts(day, s, i, j);
    RowGrows(day, s, i, j + 1, |day|);
    GoldsAppend(RaidSearchLog(day, s, i, j), PairLog(day, s, i, j));
  }

  /** The winner's trade is among what the searches emit, with the scratch if it is still open. */
  lemma TradeCounts(day: seq<Bar>, s: Session, k: Key)
    requires Verdict(day, s, Some(k)) && WellPlaced(day, s, Some(k))
    requires AttemptAt(day, s.side, k.mss, |day|).HasFilled() && k in Keys(day, s, |day|)
    ensures Golds(TradeLog(day, s.side, k.mss)) <= AttemptPart(day, s, |day|) + Golds(ScratchEvents(day, s, Some(k)))
  {
    hide Golds, AttemptAt, IsRaid, Keys, Verdict, AttemptPart, Attempts, FillEvent, SetupAt;
    var j := k.mss;
    var a := AttemptAt(day, s.side, j, |day|);
    SearchInPart(day, s, k, |day|);
    SearchEmits(day, s, j, |day|);
    FillIsGolden(day, s.side, j, a);
    var log := TradeLog(day, s.side, j);
    assert log == [log[0]] + [log[1]];
    GoldsAppend([log[0]], [log[1]]);
    GoldsOne(log[0]);
    GoldsOne(log[1]);
  }

  /** The batch log counts no event more often than the streaming journal, in golden form, emits it. */
  lemma BatchLogCounted(day: seq<Bar>, s: Session, w: Option<Key>)
    requires 0 <= s.start && s.end <= |day| && Verdict(day, s, w) && WellPlaced(day, s, w)
    ensures Golds(BatchLog(day, s, w)) <= Golds(StreamLog(day, s, |day|) + ScratchEvents(day, s, w))
  {
    hide Golds, IsRaid, Verdict, Accepted, AttemptAt, SearchLog, RaidSearchLog, PivotLog, StreamLog, GoldenRaid,
         RaidEvents, Rows, Row, RaidPart, WatchPart, AttemptPart, ScratchEvents, TradeLog, SetupAt;
    var n := |day|;
    StreamParts(day, s, n);
    WatchIsRows(day, s, n);
    GoldsAppend(StreamLog(day, s, n), ScratchEvents(day, s, w));
    if w.None? {
      NoneFills(day, s);
      var rest := if s.start < s.end then SearchLog(day, s, s.end) else [];
      GoldsAppend(PivotLog(day, n), rest);
      GoldsOne(SwingHigh(0, 0.0, 0));
      if s.start < s.end {
        SearchCounts(day, s, s.end);
        RaidsGrow(day, s, s.end, n);
        RowsGrow(day, s, s.end, n, n);
      }
    } else {
      SomeCounts(day, s, w.value);
    }
  }

  lemma NoneFills(day: seq<Bar>, s: Session)
    requires Verdict(day, s, None)
    ensures forall i: nat, j: nat :: !Fills(day, s, i, j)
  {
  }

  /** Where the winner's key is, and that no earlier raid fills. */
  lemma WinnerFirst(day: seq<Bar>, s: Session, k: Key)
    requires Verdict(day, s, Some(k)) && 0 <= s.start
    ensures Fills(day, s, k.raid, k.mss) && k in Keys(day, s, |day|) && s.start <= k.raid < |day|
    ensures IsRaid(day, s, k.raid) && AttemptAt(day, s.side, k.mss, |day|).HasFilled()
    ensures forall i: nat, j: nat :: i < k.raid ==> !Fills(day, s, i, j)
  {
    hide AttemptAt, SetupAt, BothSwings, Reference, RaidLevel;
    forall i: nat, j: nat | i < k.raid ensures !Fills(day, s, i, j) {
      assert Fills(day, s, i, j) ==> LexLe(k, Key(i, j));
    }
  }

  lemma SomeCounts(day: seq<Bar>, s: Session, k: Key)
    requires 0 <= s.start && s.end <= |day| && Verdict(day, s, Some(k)) && WellPlaced(day, s, Some(k))
    ensures Golds(BatchLog(day, s, Some(k))) <=
            Golds(PivotLog(day, |day|)) + AttemptPart(day, s, |day|) + Rows(day, s, |day|, |day|)
            + RaidPart(day, s, |day|) + Golds(ScratchEvents(day, s, Some(k)))
  {
    hide Golds, IsRaid, Verdict, Accepted, AttemptAt, SearchLog, RaidSearchLog, PivotLog, GoldenRaid, RaidEvents,
         Row, AttemptPart, ScratchEvents, TradeLog, SetupAt, Keys, Fills;
    var n, i := |day|, k.raid;
    WinnerFirst(day, s, k);
    SearchCounts(day, s, i);
    WinnerCounts(day, s, k);
    TradeCounts(day, s, k);
    RaidsGrow(day, s, i + 1, n);
    RowsGrow(day, s, i + 1, n, n);
    var g := [GoldenRaid(day, s, i)] + RaidSearchLog(day, s, i, k.mss + 1);
    assert BatchLog(day, s, Some(k)) == PivotLog(day, n) + (SearchLog(day, s, i) + g);
    GoldsAppend(PivotLog(day, n), SearchLog(day, s, i) + g);
    GoldsAppend(SearchLog(day, s, i), g);
  }
}
