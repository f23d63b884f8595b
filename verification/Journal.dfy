/** The event journals of a day: what each bar contributes to the streaming engine's log, and what the batch model
    logs on its way to the day's trade. */
module Journal {
  import opened Market
  import opened FvgModel

  // ---------- what one bar contributes ----------

  /** Swings whose five-bar window is completed by bar b. */
  function SwingEvents(day: seq<Bar>, b: nat): seq<Event>
    requires b < |day|
  {
    (if IsPivot(day, Top, b - 2) then [SwingHigh(day[b - 2].time, day[b - 2].high, b - 2)] else []) +
    (if IsPivot(day, Bottom, b - 2) then [SwingLow(day[b - 2].time, day[b - 2].low, b - 2)] else [])
  }

  function RaidEvents(day: seq<Bar>, s: Session, b: nat): seq<Event>
    requires b < |day|
  {
    if IsRaid(day, s, b)
    then [Raid(day[b].time, s.side, RaidLevel(day, s.side, b), SweepPrice(day[b], s.side), b,
               Some(Reference(day, s.side, b)))]
    else []
  }

  /** The shift of raid i at bar b, the gap behind it and what became of that gap. */
  function WatchEvents(day: seq<Bar>, s: Session, i: nat, b: nat): seq<Event>
    requires b < |day|
  {
    if !IsMss(day, s.side, i, b) then [] else
    [Mss(day[b].time, s.side, Reference(day, s.side, i), day[b].close, i, b)] +
    match FindFvg(day, s.side, b)
    case None => []
    case Some(g) =>
      [FvgFound(day[b].time, s.side, g.top, g.bottom, g.frame, b)] +
      var st := SetupAt(day, s.side, b).value;
      if Accepted(day, s.side, b) then [CandidateReady(day[b].time, s.side, st.entry, st.stop, i, b)]
      else [MinStopRejected(day[b].time, s.side, st.riskPips)]
  }

  function FillEvent(day: seq<Bar>, side: Side, j: nat, a: Attempt): Event
    requires j < |day| && SetupAt(day, side, j).Some? && a.HasFilled() && a.fillBar < |day|
  {
    var st := SetupAt(day, side, j).value;
    OrderFilled(day[a.fillBar].time, side, st.entry, st.stop, a.target, a.fillBar)
  }

  /** The fill and the exit of the search at j, as far as they happen at bar b. */
  function AttemptEvents(day: seq<Bar>, side: Side, j: nat, b: nat): seq<Event>
    requires b < |day|
  {
    if b <= j || SetupAt(day, side, j).None? then [] else
    var a := AttemptAt(day, side, j, b + 1);
    (if a.HasFilled() && a.fillBar == b then [FillEvent(day, side, j, a)] else []) +
    (if a.Closed? && a.exitBar == b then [TradeClosed(day[b].time, side, a.outcome, a.exitPrice)] else [])
  }

  // ---------- the streaming log ----------

  /** Raid bars before n, in order. */
  function Raids(day: seq<Bar>, s: Session, n: nat): (r: seq<nat>)
    requires n <= |day|
    ensures forall i :: i in r <==> i < n && IsRaid(day, s, i)
  {
    if n == 0 then []
    else Raids(day, s, n - 1) + if IsRaid(day, s, n - 1) then [n - 1] else []
  }

  /** The searches that bar b starts, one for each of the given raids whose shift it confirms. */
  function Spawns(day: seq<Bar>, s: Session, raids: seq<nat>, b: nat): (r: seq<Key>)
    requires b < |day|
    ensures forall k :: k in r <==>
            k.raid in raids && k.mss == b && IsMss(day, s.side, k.raid, b) && Accepted(day, s.side, b)
  {
    if raids == [] then []
    else
      var i := raids[|raids| - 1];
      Spawns(day, s, raids[..|raids| - 1], b) +
      if IsMss(day, s.side, i, b) && Accepted(day, s.side, b) then [Key(i, b)] else []
  }

  /** All searches started before bar n, in order of creation. */
  function Keys(day: seq<Bar>, s: Session, n: nat): (r: seq<Key>)
    requires n <= |day|
    ensures forall k :: k in r <==>
      IsRaid(day, s, k.raid) && IsMss(day, s.side, k.raid, k.mss) && k.mss < n && Accepted(day, s.side, k.mss)
  {
    if n == 0 then []
    else Keys(day, s, n - 1) + Spawns(day, s, Raids(day, s, n - 1), n - 1)
  }

  function AllWatchEvents(day: seq<Bar>, s: Session, raids: seq<nat>, b: nat): seq<Event>
    requires b < |day|
  {
    if raids == [] then []
    else AllWatchEvents(day, s, raids[..|raids| - 1], b) + WatchEvents(day, s, raids[|raids| - 1], b)
  }

  function AllAttemptEvents(day: seq<Bar>, s: Session, keys: seq<Key>, b: nat): seq<Event>
    requires b < |day|
  {
    if keys == [] then []
    else
      AllAttemptEvents(day, s, keys[..|keys| - 1], b) +
      AttemptEvents(day, s.side, keys[|keys| - 1].mss, b)
  }

  /** What the streaming engine emits at bar b, in order. */
  function BarEvents(day: seq<Bar>, s: Session, b: nat): seq<Event>
    requires b < |day|
  {
    SwingEvents(day, b) +
    AllAttemptEvents(day, s, Keys(day, s, b), b) +
    AllWatchEvents(day, s, Raids(day, s, b), b) +
    RaidEvents(day, s, b)
  }

  /** The streaming engine's journal after n bars, in the order it is emitted. */
  function StreamLog(day: seq<Bar>, s: Session, n: nat): seq<Event>
    requires n <= |day|
  {
    if n == 0 then [] else StreamLog(day, s, n - 1) + BarEvents(day, s, n - 1)
  }

  /** A verdict, if there is one, names a raid and an accepted gap of the day. */
  predicate WellPlaced(day: seq<Bar>, s: Session, w: Option<Key>) {
    w.Some? ==> IsRaid(day, s, w.value.raid) && w.value.raid < w.value.mss < |day| && Accepted(day, s.side, w.value.mss)
  }

  /** Scratch of the winner when it is still open at the end of the day. */
  function ScratchEvents(day: seq<Bar>, s: Session, w: Option<Key>): seq<Event>
    requires WellPlaced(day, s, w)
  {
    if w.Some? && AttemptAt(day, s.side, w.value.mss, |day|).Open?
    then [TradeClosed(day[|day| - 1].time, s.side, Scratch, day[|day| - 1].close)]
    else []
  }

  // ---------- the batch log ----------

  function PivotLog(day: seq<Bar>, n: nat): seq<Event>
    requires n <= |day|
  {
    if n == 0 then [] else PivotLog(day, n - 1) + SwingEvents(day, n - 1)
  }

  /** The golden master's form of an event: a raid without the streaming-only reference level. */
  function Golden(e: Event): Event {
    if e.Raid? then e.(reference := None) else e
  }

  function GoldenRaid(day: seq<Bar>, s: Session, i: nat): Event
    requires IsRaid(day, s, i)
  {
    Raid(day[i].time, s.side, RaidLevel(day, s.side, i), SweepPrice(day[i], s.side), i, None)
  }

  /** Fill, exit and, for a trade still open at the end, the scratch of a search that fills. */
  function TradeLog(day: seq<Bar>, side: Side, j: nat): seq<Event>
    requires j < |day| && SetupAt(day, side, j).Some? && AttemptAt(day, side, j, |day|).HasFilled()
  {
    var a := AttemptAt(day, side, j, |day|);
    [FillEvent(day, side, j, a)] +
    match a
    case Open(_, _) => [TradeClosed(day[|day| - 1].time, side, Scratch, day[|day| - 1].close)]
    case Closed(_, _, q, o, x) => [TradeClosed(day[q].time, side, o, x)]
  }

  /** What the batch model logs while it examines bar j for raid i. */
  function PairLog(day: seq<Bar>, s: Session, i: nat, j: nat): seq<Event>
    requires j < |day|
  {
    if !IsMss(day, s.side, i, j) then [] else
    [Mss(day[j].time, s.side, Reference(day, s.side, i), day[j].close, i, j)] +
    match FindFvg(day, s.side, j)
    case None => []
    case Some(g) =>
      [FvgFound(day[j].time, s.side, g.top, g.bottom, g.frame, j)] +
      var st := SetupAt(day, s.side, j).value;
      if !Accepted(day, s.side, j) then [MinStopRejected(day[j].time, s.side, st.riskPips)]
      else if AttemptAt(day, s.side, j, |day|).HasFilled() then TradeLog(day, s.side, j)
      else []
  }

  /** Bars i+1 .. j-1 examined for raid i. */
  function RaidSearchLog(day: seq<Bar>, s: Session, i: nat, j: nat): seq<Event>
    requires i < j <= |day|
  {
    if j == i + 1 then [] else RaidSearchLog(day, s, i, j - 1) + PairLog(day, s, i, j - 1)
  }

  /** The whole log of raid bars [start, i): every raid there ran its window without a fill. */
  function SearchLog(day: seq<Bar>, s: Session, i: nat): seq<Event>
    requires s.start <= i <= |day| && 0 <= s.start
    decreases i
  {
    if i == s.start then []
    else
      SearchLog(day, s, i - 1) +
      if !IsRaid(day, s, i - 1) then []
      else [GoldenRaid(day, s, i - 1)] +
           RaidSearchLog(day, s, i - 1, Min(i - 1 + 10, |day|))
  }

  /** The batch model's log of a day with verdict w: it stops at the winner's fill. */
  function BatchLog(day: seq<Bar>, s: Session, w: Option<Key>): seq<Event>
    requires 0 <= s.start && s.end <= |day|
    requires WellPlaced(day, s, w)
  {
    PivotLog(day, |day|) +
    match w
    case None => if s.start < s.end then SearchLog(day, s, s.end) else []
    case Some(k) =>
      SearchLog(day, s, k.raid) + [GoldenRaid(day, s, k.raid)] + RaidSearchLog(day, s, k.raid, k.mss + 1)
  }
}
