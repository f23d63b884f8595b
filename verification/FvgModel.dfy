/** What the FVG model says about a day, stated on the whole bar sequence and independent of how it is searched.
    Functions with a cut-off `n` look only at the first n bars. */
module FvgModel {
  import opened Market

  // ---------- swings ----------

  function PriceAt(b: Bar, e: Edge): real {
    if e == Top then b.high else b.low
  }

  /** x is at least as extreme as y. */
  predicate Reaches(e: Edge, x: real, y: real) {
    if e == Top then x >= y else x <= y
  }

  /** Bar k is the extreme (ties allowed) of the five bars centred on it. */
  predicate IsPivot(day: seq<Bar>, e: Edge, k: int) {
    && SWING_N <= k
    && k + SWING_N < |day|
    && Reaches(e, PriceAt(day[k], e), PriceAt(day[k - 2], e))
    && Reaches(e, PriceAt(day[k], e), PriceAt(day[k - 1], e))
    && Reaches(e, PriceAt(day[k], e), PriceAt(day[k + 1], e))
    && Reaches(e, PriceAt(day[k], e), PriceAt(day[k + 2], e))
  }

  /** The last pivot before `bound`, or -1. */
  function LatestPivot(day: seq<Bar>, e: Edge, bound: int): (k: int)
    ensures k == -1 || (0 <= k < bound && IsPivot(day, e, k))
    ensures forall m :: k < m < bound ==> !IsPivot(day, e, m)
    decreases if bound < 0 then 0 else bound
  {
    if bound <= 0 then -1
    else if IsPivot(day, e, bound - 1) then bound - 1
    else LatestPivot(day, e, bound - 1)
  }

  // ---------- raids and structure shifts ----------

  predicate BothSwings(day: seq<Bar>, i: int) {
    LatestPivot(day, Top, i - SWING_N) >= 0 && LatestPivot(day, Bottom, i - SWING_N) >= 0
  }

  /** The swing level a raid at bar i must sweep. */
  function RaidLevel(day: seq<Bar>, side: Side, i: int): real
    requires BothSwings(day, i)
  {
    if side == Long then day[LatestPivot(day, Bottom, i - SWING_N)].low
    else day[LatestPivot(day, Top, i - SWING_N)].high
  }

  /** The opposite swing level, which a later close must cross. */
  function Reference(day: seq<Bar>, side: Side, i: int): real
    requires BothSwings(day, i)
  {
    if side == Long then day[LatestPivot(day, Top, i - SWING_N)].high
    else day[LatestPivot(day, Bottom, i - SWING_N)].low
  }

  function SweepPrice(b: Bar, side: Side): real {
    if side == Long then b.low else b.high
  }

  predicate IsRaid(day: seq<Bar>, s: Session, i: int) {
    && s.start <= i < s.end
    && 0 <= i < |day|
    && BothSwings(day, i)
    && if s.side == Long then day[i].low < RaidLevel(day, s.side, i)
       else day[i].high > RaidLevel(day, s.side, i)
  }

  /** Bar j closes beyond raid i's reference, within nine bars of the raid. */
  predicate IsMss(day: seq<Bar>, side: Side, i: int, j: int) {
    && i < j <= i + MSS_WINDOW
    && 0 <= j < |day|
    && BothSwings(day, i)
    && if side == Long then day[j].close > Reference(day, side, i)
       else day[j].close < Reference(day, side, i)
  }

  // ---------- gaps and setups ----------

  datatype Gap = Gap(top: real, bottom: real, frame: nat)

  /** Three-candle fair value gap ending at bar j. */
  function FindFvg(day: seq<Bar>, side: Side, j: nat): Option<Gap>
    requires j < |day|
  {
    if j < 2 then None
    else if side == Short then
      if day[j - 2].low > day[j].high then Some(Gap(day[j - 2].low, day[j].high, j - 2)) else None
    else
      if day[j - 2].high < day[j].low then Some(Gap(day[j].low, day[j - 2].high, j - 2)) else None
  }

  datatype Setup = Setup(entry: real, stop: real, riskPips: real)

  function SetupAt(day: seq<Bar>, side: Side, j: nat): Option<Setup>
    requires j < |day|
  {
    match FindFvg(day, side, j)
    case None => None
    case Some(g) =>
      var entry := (g.top + g.bottom) / 2.0;
      var stop := if side == Long then day[g.frame].low else day[g.frame].high;
      var risk := if side == Long then entry - stop else stop - entry;
      Some(Setup(entry, stop, Pips(risk)))
  }

  predicate Accepted(day: seq<Bar>, side: Side, j: nat)
    requires j < |day|
  {
    SetupAt(day, side, j).Some? && SetupAt(day, side, j).value.riskPips >= MIN_STOP_PIPS
  }

  // ---------- one search: fill, target, exit ----------

  predicate Touched(b: Bar, side: Side, entry: real) {
    if side == Long then b.low <= entry else b.high >= entry
  }

  predicate StopHit(b: Bar, side: Side, stop: real) {
    if side == Long then b.low <= stop else b.high >= stop
  }

  predicate TargetHit(b: Bar, side: Side, target: real) {
    if side == Long then b.high >= target else b.low <= target
  }

  /** The first bar in [from, n) that touches the entry, or n. */
  function FirstTouch(day: seq<Bar>, side: Side, entry: real, from: nat, n: nat): (p: nat)
    requires from <= n <= |day|
    ensures from <= p <= n
    ensures p < n ==> Touched(day[p], side, entry)
    ensures forall m :: from <= m < p ==> !Touched(day[m], side, entry)
    decreases n - from
  {
    if from == n || Touched(day[from], side, entry) then from
    else FirstTouch(day, side, entry, from + 1, n)
  }

  /** The first bar in [from, n) that hits the stop or the target, or n. */
  function FirstExit(day: seq<Bar>, side: Side, stop: real, target: real, from: nat, n: nat): (q: nat)
    requires from <= n <= |day|
    ensures from <= q <= n
    ensures q < n ==> StopHit(day[q], side, stop) || TargetHit(day[q], side, target)
    ensures forall m :: from <= m < q ==> !StopHit(day[m], side, stop) && !TargetHit(day[m], side, target)
    decreases n - from
  {
    if from == n || StopHit(day[from], side, stop) || TargetHit(day[from], side, target) then from
    else FirstExit(day, side, stop, target, from + 1, n)
  }

  /** b is strictly more extreme than b' in the direction a trade on this side runs. */
  predicate MoreExtreme(b: Bar, b': Bar, side: Side) {
    if side == Long then b.high > b'.high else b.low < b'.low
  }

  /** Bar x is the first of the most extreme bars in [lo, hi). */
  ghost predicate IsExtreme(day: seq<Bar>, side: Side, lo: nat, hi: nat, x: nat)
    requires hi <= |day|
  {
    && lo <= x < hi
    && (forall m :: lo <= m < x ==> MoreExtreme(day[x], day[m], side))
    && (forall m :: x <= m < hi ==> !MoreExtreme(day[m], day[x], side))
  }

  function ExtremeBar(day: seq<Bar>, side: Side, lo: nat, hi: nat): (x: nat)
    requires lo < hi <= |day|
    ensures IsExtreme(day, side, lo, hi, x)
    ensures side == Long ==> forall m :: lo <= m < hi ==>
              day[m].high <= day[x].high && (m < x ==> day[m].high < day[x].high)
    ensures side == Short ==> forall m :: lo <= m < hi ==>
              day[m].low >= day[x].low && (m < x ==> day[m].low > day[x].low)
  {
    if hi == lo + 1 then lo
    else
      var x := ExtremeBar(day, side, lo, hi - 1);
      if MoreExtreme(day[hi - 1], day[x], side) then hi - 1 else x
  }

  /** The midpoint of the most extreme of the six bars before the fill bar p. */
  function Target(day: seq<Bar>, side: Side, p: nat): real
    requires TARGET_LOOKBACK <= p <= |day|
  {
    var x := ExtremeBar(day, side, p - TARGET_LOOKBACK, p);
    (day[x].high + day[x].low) / 2.0
  }

  predicate TargetValid(side: Side, target: real, entry: real) {
    if side == Long then target > entry else target < entry
  }

  /** Where one search stands after the first n bars. */
  datatype Attempt =
    | Rejected
    | Pending
    | Abandoned
    | Open(target: real, fillBar: nat)
    | Closed(target: real, fillBar: nat, exitBar: nat, outcome: Outcome, exitPrice: real)
  {
    predicate HasFilled() { Open? || Closed? }
  }

  function AttemptAt(day: seq<Bar>, side: Side, j: nat, n: nat): (a: Attempt)
    requires j < n <= |day| && SetupAt(day, side, j).Some?
    ensures a.HasFilled() ==> j < a.fillBar < n
    ensures a.Closed? ==> a.fillBar <= a.exitBar < n
  {
    var st := SetupAt(day, side, j).value;
    if st.riskPips < MIN_STOP_PIPS then Rejected else
    var p := FirstTouch(day, side, st.entry, j + 1, n);
    if p == n then Pending
    else if p < TARGET_LOOKBACK || !TargetValid(side, Target(day, side, p), st.entry) then Abandoned
    else
      var t := Target(day, side, p);
      var q := FirstExit(day, side, st.stop, t, p, n);
      if q == n then Open(t, p)
      else if StopHit(day[q], side, st.stop) then Closed(t, p, q, Loss, st.stop)
      else Closed(t, p, q, Win, t)
  }

  // ---------- the day's trade ----------

  /** Raid i, shift j, an accepted gap at j, and a fill before the day ends. */
  predicate Fills(day: seq<Bar>, s: Session, i: nat, j: nat) {
    && IsRaid(day, s, i)
    && IsMss(day, s.side, i, j)
    && Accepted(day, s.side, j)
    && AttemptAt(day, s.side, j, |day|).HasFilled()
  }

  /** The trade of the search at j, scratched at the last close when still open. */
  function TradeOf(day: seq<Bar>, side: Side, j: nat): Trade
    requires j < |day| && SetupAt(day, side, j).Some? && AttemptAt(day, side, j, |day|).HasFilled()
  {
    var st := SetupAt(day, side, j).value;
    match AttemptAt(day, side, j, |day|)
    case Open(t, _) => Trade(side, st.entry, st.stop, t, st.riskPips, Scratch, day[|day| - 1].close)
    case Closed(t, _, _, o, x) => Trade(side, st.entry, st.stop, t, st.riskPips, o, x)
  }

  /** The lexicographically least search that fills. */
  ghost predicate IsWinner(day: seq<Bar>, s: Session, w: Key) {
    && Fills(day, s, w.raid, w.mss)
    && forall i: nat, j: nat :: Fills(day, s, i, j) ==> LexLe(w, Key(i, j))
  }

  /** `w` is the day's verdict: the winner, or None when nothing fills. */
  ghost predicate Verdict(day: seq<Bar>, s: Session, w: Option<Key>) {
    match w
    case None => forall i: nat, j: nat :: !Fills(day, s, i, j)
    case Some(k) => IsWinner(day, s, k)
  }

  ghost function TradeFor(day: seq<Bar>, s: Session, w: Option<Key>): Option<Trade>
    requires Verdict(day, s, w)
  {
    match w
    case None => None
    case Some(k) => Some(TradeOf(day, s.side, k.mss))
  }

  /** A day has exactly one verdict, so any two searches that reach one agree on the trade. */
  lemma VerdictUnique(day: seq<Bar>, s: Session, w: Option<Key>, w': Option<Key>)
    requires Verdict(day, s, w) && Verdict(day, s, w')
    ensures w == w'
  {
    if w.Some? && w'.Some? {
      var k, k' := w.value, w'.value;
      assert LexLe(k, Key(k'.raid, k'.mss)) && LexLe(k', Key(k.raid, k.mss));
    }
  }

  /** Every day has a verdict. */
  lemma VerdictExists(day: seq<Bar>, s: Session)
    ensures exists w :: Verdict(day, s, w)
  {
    hide Fills;
    if i: nat, j: nat :| Fills(day, s, i, j) {
      LeastFill(day, s, i, j);
      var k :| IsWinner(day, s, k);
      assert Verdict(day, s, Some(k));
    } else {
      assert Verdict(day, s, None);
    }
  }

  lemma {:induction false} LeastFill(day: seq<Bar>, s: Session, i: nat, j: nat)
    requires Fills(day, s, i, j)
    ensures exists k :: IsWinner(day, s, k)
    decreases i, j
  {
    hide Fills;
    if i': nat, j': nat :| Fills(day, s, i', j') && !LexLe(Key(i, j), Key(i', j')) {
      LeastFill(day, s, i', j');
    } else {
      assert IsWinner(day, s, Key(i, j));
    }
  }
}
