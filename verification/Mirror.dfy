/** Turning the price axis over and swapping the trend turns every verdict and every trade over with it. */
module Mirror {
  import opened Market
  import opened FvgModel
  import opened Equivalence

  function Flip(side: Side): Side { if side == Long then Short else Long }

  function FlipEdge(e: Edge): Edge { if e == Top then Bottom else Top }

  function FlipBar(b: Bar): Bar { Bar(b.time, -b.low, -b.high, -b.close) }

  function FlipDay(day: seq<Bar>): (r: seq<Bar>)
    ensures |r| == |day| && forall k :: 0 <= k < |day| ==> r[k] == FlipBar(day[k])
  {
    seq(|day|, k requires 0 <= k < |day| => FlipBar(day[k]))
  }

  function FlipSession(s: Session): Session { s.(side := Flip(s.side)) }

  function FlipTrade(t: Trade): Trade {
    Trade(Flip(t.side), -t.entry, -t.stop, -t.target, t.riskPips, t.outcome, -t.exitPrice)
  }

  function FlipAttempt(a: Attempt): Attempt {
    match a
    case Open(t, p) => Open(-t, p)
    case Closed(t, p, q, o, x) => Closed(-t, p, q, o, -x)
    case other => other
  }

  lemma {:induction false} PivotMirror(day: seq<Bar>, e: Edge, bound: int)
    ensures LatestPivot(FlipDay(day), FlipEdge(e), bound) == LatestPivot(day, e, bound)
    decreases if bound < 0 then 0 else bound
  {
    if bound > 0 { PivotMirror(day, e, bound - 1); }
  }

  lemma RaidMirror(day: seq<Bar>, s: Session, i: int)
    ensures IsRaid(FlipDay(day), FlipSession(s), i) <==> IsRaid(day, s, i)
    ensures BothSwings(FlipDay(day), i) <==> BothSwings(day, i)
    ensures BothSwings(day, i) ==> Reference(FlipDay(day), Flip(s.side), i) == -Reference(day, s.side, i)
  {
    PivotMirror(day, Top, i - SWING_N);
    PivotMirror(day, Bottom, i - SWING_N);
  }

  lemma MssMirror(day: seq<Bar>, s: Session, i: int, j: int)
    ensures IsMss(FlipDay(day), Flip(s.side), i, j) <==> IsMss(day, s.side, i, j)
  {
    hide LatestPivot, Reference, BothSwings;
    RaidMirror(day, s, i);
  }

  lemma SetupMirror(day: seq<Bar>, side: Side, j: nat)
    requires j < |day|
    ensures SetupAt(FlipDay(day), Flip(side), j) ==
            match SetupAt(day, side, j)
            case None => None
            case Some(st) => Some(Setup(-st.entry, -st.stop, st.riskPips))
  {
  }

  lemma {:induction false} TouchMirror(day: seq<Bar>, side: Side, entry: real, from: nat, n: nat)
    requires from <= n <= |day|
    ensures FirstTouch(FlipDay(day), Flip(side), -entry, from, n) == FirstTouch(day, side, entry, from, n)
    decreases n - from
  {
    if from < n { TouchMirror(day, side, entry, from + 1, n); }
  }

  lemma {:induction false} ExitMirror(day: seq<Bar>, side: Side, stop: real, target: real, from: nat, n: nat)
    requires from <= n <= |day|
    ensures FirstExit(FlipDay(day), Flip(side), -stop, -target, from, n) == FirstExit(day, side, stop, target, from, n)
    decreases n - from
  {
    if from < n { ExitMirror(day, side, stop, target, from + 1, n); }
  }

  lemma {:induction false} ExtremeMirror(day: seq<Bar>, side: Side, lo: nat, hi: nat)
    requires lo < hi <= |day|
    ensures ExtremeBar(FlipDay(day), Flip(side), lo, hi) == ExtremeBar(day, side, lo, hi)
  {
    if hi > lo + 1 { ExtremeMirror(day, side, lo, hi - 1); }
  }

  lemma TargetMirror(day: seq<Bar>, side: Side, p: nat)
    requires TARGET_LOOKBACK <= p <= |day|
    ensures Target(FlipDay(day), Flip(side), p) == -Target(day, side, p)
  {
    hide ExtremeBar;
    ExtremeMirror(day, side, p - TARGET_LOOKBACK, p);
  }

  lemma StopMirror(day: seq<Bar>, side: Side, stop: real, q: nat)
    requires q < |day|
    ensures StopHit(FlipDay(day)[q], Flip(side), -stop) <==> StopHit(day[q], side, stop)
  {
  }

  lemma AttemptMirror(day: seq<Bar>, side: Side, j: nat, n: nat)
    requires j < n <= |day| && SetupAt(day, side, j).Some? && SetupAt(FlipDay(day), Flip(side), j).Some?
    ensures AttemptAt(FlipDay(day), Flip(side), j, n) == FlipAttempt(AttemptAt(day, side, j, n))
  {
    hide SetupAt, Target, FirstTouch, FirstExit, StopHit, TargetHit, Touched, FlipDay;
    SetupMirror(day, side, j);
    var st := SetupAt(day, side, j).value;
    TouchMirror(day, side, st.entry, j + 1, n);
    var p := FirstTouch(day, side, st.entry, j + 1, n);
    if TARGET_LOOKBACK <= p < n {
      TargetMirror(day, side, p);
      ExitMirror(day, side, st.stop, Target(day, side, p), p, n);
      var q := FirstExit(day, side, st.stop, Target(day, side, p), p, n);
      if q < n { StopMirror(day, side, st.stop, q); }
    }
  }

  lemma FillsMirror(day: seq<Bar>, s: Session, i: nat, j: nat)
    ensures Fills(FlipDay(day), FlipSession(s), i, j) <==> Fills(day, s, i, j)
    ensures Fills(day, s, i, j) ==>
              TradeOf(FlipDay(day), Flip(s.side), j) == FlipTrade(TradeOf(day, s.side, j))
  {
    hide SetupAt, AttemptAt, IsRaid, LatestPivot, BothSwings, Reference;
    RaidMirror(day, s, i);
    MssMirror(day, s, i, j);
    if j < |day| {
      SetupMirror(day, s.side, j);
      if SetupAt(day, s.side, j).Some? { AttemptMirror(day, s.side, j, |day|); }
    }
  }

  /** The mirrored day has the same verdict and the mirrored trade. */
  lemma DayMirror(day: seq<Bar>, s: Session, w: Option<Key>)
    requires Verdict(day, s, w)
    ensures Verdict(FlipDay(day), FlipSession(s), w)
    ensures TradeFor(FlipDay(day), FlipSession(s), w) == MirrorOf(TradeFor(day, s, w))
  {
    hide Fills, TradeOf;
    forall i: nat, j: nat ensures Fills(FlipDay(day), FlipSession(s), i, j) <==> Fills(day, s, i, j) {
      FillsMirror(day, s, i, j);
    }
    if w.Some? { FillsMirror(day, s, w.value.raid, w.value.mss); }
  }

  function MirrorOf(t: Option<Trade>): Option<Trade> {
    match t
    case None => None
    case Some(t) => Some(FlipTrade(t))
  }

  /** Two runs of the engine, on a day and on its mirror image, return mirrored trades: first-of-ties targets and
      stop-before-target priority are the same on both sides. */
  method MirroredRuns(day: seq<Bar>, s: Session) returns (trade: Option<Trade>, mirrored: Option<Trade>)
    ensures mirrored == MirrorOf(trade)
    ensures exists w :: Verdict(day, s, w) && trade == TradeFor(day, s, w)
  {
    hide Verdict, TradeFor;
    var w, w', log, log';
    trade, w, log := RunStream(day, s);
    mirrored, w', log' := RunStream(FlipDay(day), FlipSession(s));
    DayMirror(day, s, w);
    VerdictUnique(FlipDay(day), FlipSession(s), w, w');
  }
}
