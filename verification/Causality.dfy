/** No look-ahead: everything the model and the journals say about the first n bars is the same on any two days that
    agree on those bars. */
module Causality {
  import opened Market
  import opened FvgModel
  import opened Journal

  lemma {:induction false} PivotCausal(d: seq<Bar>, d': seq<Bar>, n: nat, e: Edge, bound: int)
    requires Agree(d, d', n) && bound + SWING_N <= n
    ensures LatestPivot(d, e, bound) == LatestPivot(d', e, bound)
    decreases if bound < 0 then 0 else bound
  {
    if bound > 0 { PivotCausal(d, d', n, e, bound - 1); }
  }

  lemma RaidCausal(d: seq<Bar>, d': seq<Bar>, n: nat, s: Session, i: nat)
    requires Agree(d, d', n) && i < n
    ensures IsRaid(d, s, i) <==> IsRaid(d', s, i)
    ensures BothSwings(d, i) <==> BothSwings(d', i)
    ensures BothSwings(d, i) ==>
              RaidLevel(d, s.side, i) == RaidLevel(d', s.side, i) && Reference(d, s.side, i) == Reference(d', s.side, i)
  {
    hide IsPivot;
    PivotCausal(d, d', n, Top, i - SWING_N);
    PivotCausal(d, d', n, Bottom, i - SWING_N);
  }

  lemma MssCausal(d: seq<Bar>, d': seq<Bar>, n: nat, s: Session, i: nat, j: nat)
    requires Agree(d, d', n) && j < n
    ensures IsMss(d, s.side, i, j) <==> IsMss(d', s.side, i, j)
  {
    if i < n { RaidCausal(d, d', n, s, i); }
  }

  lemma TargetCausal(d: seq<Bar>, d': seq<Bar>, n: nat, side: Side, p: nat)
    requires Agree(d, d', n) && TARGET_LOOKBACK <= p <= n
    ensures Target(d, side, p) == Target(d', side, p)
  {
    assert IsExtreme(d', side, p - TARGET_LOOKBACK, p, ExtremeBar(d, side, p - TARGET_LOOKBACK, p));
  }

  lemma TouchCausal(d: seq<Bar>, d': seq<Bar>, n: nat, side: Side, entry: real, from: nat)
    requires Agree(d, d', n) && from <= n
    ensures FirstTouch(d, side, entry, from, n) == FirstTouch(d', side, entry, from, n)
  {
    var p := FirstTouch(d, side, entry, from, n);
    assert forall m :: from <= m < p ==> !Touched(d'[m], side, entry);
  }

  lemma ExitCausal(d: seq<Bar>, d': seq<Bar>, n: nat, side: Side, stop: real, target: real, from: nat)
    requires Agree(d, d', n) && from <= n
    ensures FirstExit(d, side, stop, target, from, n) == FirstExit(d', side, stop, target, from, n)
  {
    var q := FirstExit(d, side, stop, target, from, n);
    assert forall m :: from <= m < q ==> !StopHit(d'[m], side, stop) && !TargetHit(d'[m], side, target);
  }

  lemma SetupCausal(d: seq<Bar>, d': seq<Bar>, n: nat, side: Side, j: nat)
    requires Agree(d, d', n) && j < n
    ensures FindFvg(d, side, j) == FindFvg(d', side, j)
    ensures SetupAt(d, side, j) == SetupAt(d', side, j)
  {
  }

  lemma AttemptCausal(d: seq<Bar>, d': seq<Bar>, n: nat, side: Side, j: nat)
    requires Agree(d, d', n) && j < n
    ensures SetupAt(d, side, j) == SetupAt(d', side, j)
    ensures SetupAt(d, side, j).Some? ==> AttemptAt(d, side, j, n) == AttemptAt(d', side, j, n)
  {
    hide Target, FirstTouch, FirstExit, SetupAt;
    SetupCausal(d, d', n, side, j);
    if SetupAt(d, side, j).Some? {
      var st := SetupAt(d, side, j).value;
      TouchCausal(d, d', n, side, st.entry, j + 1);
      var p := FirstTouch(d, side, st.entry, j + 1, n);
      if TARGET_LOOKBACK <= p < n {
        TargetCausal(d, d', n, side, p);
        ExitCausal(d, d', n, side, st.stop, Target(d, side, p), p);
      }
    }
  }

  lemma {:induction false} RaidsCausal(d: seq<Bar>, d': seq<Bar>, n: nat, s: Session)
    requires Agree(d, d', n)
    ensures Raids(d, s, n) == Raids(d', s, n)
  {
    hide IsRaid;
    if n > 0 {
      RaidsCausal(d, d', n - 1, s);
      RaidCausal(d, d', n, s, n - 1);
    }
  }

  lemma {:induction false} SpawnsCausal(d: seq<Bar>, d': seq<Bar>, n: nat, s: Session, raids: seq<nat>, b: nat)
    requires Agree(d, d', n) && b < n
    ensures Spawns(d, s, raids, b) == Spawns(d', s, raids, b)
  {
    hide IsMss;
    if raids != [] {
      SpawnsCausal(d, d', n, s, raids[..|raids| - 1], b);
      MssCausal(d, d', n, s, raids[|raids| - 1], b);
    }
  }

  lemma {:induction false} KeysCausal(d: seq<Bar>, d': seq<Bar>, n: nat, s: Session)
    requires Agree(d, d', n)
    ensures Keys(d, s, n) == Keys(d', s, n)
  {
    hide IsRaid, IsMss, Accepted, Raids, Spawns;
    if n > 0 {
      KeysCausal(d, d', n - 1, s);
      RaidsCausal(d, d', n - 1, s);
      SpawnsCausal(d, d', n, s, Raids(d, s, n - 1), n - 1);
    }
  }

  lemma AttemptEventsCausal(d: seq<Bar>, d': seq<Bar>, n: nat, s: Session, j: nat, b: nat)
    requires Agree(d, d', n) && b < n
    ensures AttemptEvents(d, s.side, j, b) == AttemptEvents(d', s.side, j, b)
  {
    hide AttemptAt, SetupAt;
    if j < b { AttemptCausal(d, d', b + 1, s.side, j); }
  }

  lemma {:induction false} AllAttemptEventsCausal(d: seq<Bar>, d': seq<Bar>, n: nat, s: Session, keys: seq<Key>, b: nat)
    requires Agree(d, d', n) && b < n
    ensures AllAttemptEvents(d, s, keys, b) == AllAttemptEvents(d', s, keys, b)
  {
    hide AttemptEvents, SetupAt;
    if keys != [] {
      AllAttemptEventsCausal(d, d', n, s, keys[..|keys| - 1], b);
      AttemptEventsCausal(d, d', n, s, keys[|keys| - 1].mss, b);
    }
  }

  lemma WatchEventsCausal(d: seq<Bar>, d': seq<Bar>, n: nat, s: Session, i: nat, b: nat)
    requires Agree(d, d', n) && b < n
    ensures WatchEvents(d, s, i, b) == WatchEvents(d', s, i, b)
  {
    hide LatestPivot;
    MssCausal(d, d', n, s, i, b);
    if i < n { RaidCausal(d, d', n, s, i); }
  }

  lemma {:induction false} AllWatchEventsCausal(d: seq<Bar>, d': seq<Bar>, n: nat, s: Session, raids: seq<nat>, b: nat)
    requires Agree(d, d', n) && b < n
    ensures AllWatchEvents(d, s, raids, b) == AllWatchEvents(d', s, raids, b)
  {
    hide WatchEvents;
    if raids != [] {
      AllWatchEventsCausal(d, d', n, s, raids[..|raids| - 1], b);
      WatchEventsCausal(d, d', n, s, raids[|raids| - 1], b);
    }
  }

  /** The whole journal of the first n bars depends on those bars alone. */
  lemma {:induction false} StreamLogCausal(d: seq<Bar>, d': seq<Bar>, n: nat, s: Session)
    requires Agree(d, d', n)
    ensures StreamLog(d, s, n) == StreamLog(d', s, n)
  {
    hide Raids, Keys, AllAttemptEvents, AllWatchEvents, RaidEvents, SwingEvents, IsRaid, IsMss, Accepted;
    if n > 0 {
      var b := n - 1;
      StreamLogCausal(d, d', b, s);
      KeysCausal(d, d', b, s);
      RaidsCausal(d, d', b, s);
      AllAttemptEventsCausal(d, d', n, s, Keys(d, s, b), b);
      AllWatchEventsCausal(d, d', n, s, Raids(d, s, b), b);
      RaidEventsCausal(d, d', n, s, b);
    }
  }

  lemma RaidEventsCausal(d: seq<Bar>, d': seq<Bar>, n: nat, s: Session, b: nat)
    requires Agree(d, d', n) && b < n
    ensures RaidEvents(d, s, b) == RaidEvents(d', s, b)
    ensures SwingEvents(d, b) == SwingEvents(d', b)
  {
    hide LatestPivot;
    RaidCausal(d, d', n, s, b);
  }
}
