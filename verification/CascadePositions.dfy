/** The Cascade Raid position simulator: signals in order, each fully resolved before the next, under a slot cap and a
    loss-streak breaker. */
module CascadePositions {
  import opened Market
  import opened FvgModel
  import opened CascadeSignals

  datatype Config = Config(maxPositions: nat, breakerThreshold: nat, breakerSkip: nat, slPips: real, tpPips: real,
      expiry: nat)

  /** What stays fixed during a run: the bars, the settings and the week-end cutoff of a fill. */
  datatype Env = Env(bars: seq<Bar>, cfg: Config, cutoff: nat -> nat)

  ghost predicate CutoffAfterFill(env: Env) {
    forall f: nat :: f <= env.cutoff(f)
  }

  datatype Position = Position(side: Side, entry: real, fill: nat, exit: nat, outcome: Outcome, exitPrice: real)

  datatype Book = Book(openExits: seq<nat>, losses: nat, skip: nat, trades: seq<Position>)

  datatype Category =
    | OutOfRange
    | BreakerSkipped
    | CapRejected
    | Unfilled
    | CapRejectedAtFill
    | Traded(outcome: Outcome, trip: bool)

  /** Exits at or after bar b still occupy a slot there. */
  function Keep(exits: seq<nat>, b: int): (r: seq<nat>)
    ensures |r| <= |exits|
  {
    if exits == [] then []
    else
      var init := Keep(exits[..|exits| - 1], b);
      if exits[|exits| - 1] >= b then init + [exits[|exits| - 1]] else init
  }

  /** The bar at which the pending order of a signal fills, or the end of its life. */
  function FillEnd(env: Env, sig: Signal): nat {
    Min(|env.bars|, sig.mss + 1 + env.cfg.expiry)
  }

  function FillOf(env: Env, sig: Signal): nat
    requires sig.mss + 1 < |env.bars|
  {
    FirstTouch(env.bars, sig.side, sig.near, sig.mss + 1, FillEnd(env, sig))
  }

  function StopPrice(env: Env, sig: Signal): real {
    if sig.side == Short then sig.near + env.cfg.slPips * 0.0001 else sig.near - env.cfg.slPips * 0.0001
  }

  function TargetPrice(env: Env, sig: Signal): real {
    if sig.side == Short then sig.near - env.cfg.tpPips * 0.0001 else sig.near + env.cfg.tpPips * 0.0001
  }

  /** The resolved position of a fill: stop before target, from the bar after the fill up to the cutoff. */
  function Resolve(env: Env, sig: Signal, fill: nat): (p: Position)
    requires fill < |env.bars| && CutoffAfterFill(env)
    ensures p.fill == fill <= p.exit < |env.bars|
  {
    var last := Min(env.cutoff(fill), |env.bars| - 1);
    var stop, target := StopPrice(env, sig), TargetPrice(env, sig);
    var q := FirstExit(env.bars, sig.side, stop, target, fill + 1, last + 1);
    if q == last + 1 then Position(sig.side, sig.near, fill, last, Scratch, env.bars[last].close)
    else if StopHit(env.bars[q], sig.side, stop) then Position(sig.side, sig.near, fill, q, Loss, stop)
    else Position(sig.side, sig.near, fill, q, Win, target)
  }

  /** The breaker after an outcome: (losses in a row, signals still to skip, tripped now). */
  function Breaker(cfg: Config, losses: nat, skip: nat, outcome: Outcome): (nat, nat, bool) {
    if outcome == Loss then
      if losses + 1 >= cfg.breakerThreshold then (0, cfg.breakerSkip, true) else (losses + 1, skip, false)
    else if outcome == Win then (0, skip, false)
    else (losses, skip, false)
  }

  ghost function Step(env: Env, b: Book, sig: Signal): (Book, Category)
    requires CutoffAfterFill(env)
  {
    var start := sig.mss + 1;
    if start >= |env.bars| then (b, OutOfRange)
    else
      var exits := Keep(b.openExits, start);
      if b.skip > 0 then (b.(openExits := exits, skip := b.skip - 1), BreakerSkipped)
      else if |exits| >= env.cfg.maxPositions then (b.(openExits := exits), CapRejected)
      else
        var fill := FillOf(env, sig);
        if fill == FillEnd(env, sig) then (b.(openExits := exits), Unfilled)
        else
          var exits' := Keep(exits, fill);
          if |exits'| >= env.cfg.maxPositions then (b.(openExits := exits'), CapRejectedAtFill)
          else
            var p := Resolve(env, sig, fill);
            var (losses, skip, trip) := Breaker(env.cfg, b.losses, b.skip, p.outcome);
            (Book(exits' + [p.exit], losses, skip, b.trades + [p]), Traded(p.outcome, trip))
  }

  ghost function RunBook(env: Env, b: Book, signals: seq<Signal>): (Book, seq<Category>)
    requires CutoffAfterFill(env)
    ensures |RunBook(env, b, signals).1| == |signals|
  {
    if signals == [] then (b, [])
    else
      var (b', cs) := RunBook(env, b, signals[..|signals| - 1]);
      var (b'', c) := Step(env, b', signals[|signals| - 1]);
      (b'', cs + [c])
  }

  const EMPTY: Book := Book([], 0, 0, [])

  class PositionManager {
    const cfg: Config
    var openExits: seq<nat>
    var consecutiveLosses: nat
    var skipRemaining: nat
    var trades: seq<Position>

    ghost function View(): Book
      reads this
    {
      Book(openExits, consecutiveLosses, skipRemaining, trades)
    }

    constructor (cfg: Config)
      ensures View() == EMPTY && this.cfg == cfg
    {
      this.cfg, openExits, consecutiveLosses, skipRemaining, trades := cfg, [], 0, 0, [];
    }

    method ProcessSignals(signals: seq<Signal>, bars: seq<Bar>, cutoff: nat -> nat)
        returns (ghost categories: seq<Category>)
      requires CutoffAfterFill(Env(bars, cfg, cutoff))
      modifies this
      ensures (View(), categories) == RunBook(Env(bars, cfg, cutoff), old(View()), signals)
    {
      hide Step;
      ghost var env := Env(bars, cfg, cutoff);
      categories := [];
      var k := 0;
      while k < |signals|
        invariant 0 <= k <= |signals|
        invariant (View(), categories) == RunBook(env, old(View()), signals[..k])
      {
        assert signals[..k + 1][..k] == signals[..k];
        ghost var c := ProcessSignal(signals[k], bars, cutoff);
        categories := categories + [c];
        k := k + 1;
      }
      assert signals[..k] == signals;
    }

    method ProcessSignal(sig: Signal, bars: seq<Bar>, cutoff: nat -> nat) returns (ghost category: Category)
      requires CutoffAfterFill(Env(bars, cfg, cutoff))
      modifies this
      ensures (View(), category) == Step(Env(bars, cfg, cutoff), old(View()), sig)
    {
      hide FirstTouch, FirstExit, Keep;
      ghost var env := Env(bars, cfg, cutoff);
      var start := sig.mss + 1;
      if start >= |bars| {
        category := OutOfRange;
        return;
      }
      openExits := Keep(openExits, start);
      if skipRemaining > 0 {
        skipRemaining := skipRemaining - 1;
        category := BreakerSkipped;
        return;
      }
      if |openExits| >= cfg.maxPositions {
        category := CapRejected;
        return;
      }
      var fill := FindFill(sig, bars, start);
      if fill.None? {
        category := Unfilled;
        return;
      }
      openExits := Keep(openExits, fill.value);
      if |openExits| >= cfg.maxPositions {
        category := CapRejectedAtFill;
        return;
      }
      var p := FindExit(sig, bars, fill.value, cutoff);
      trades := trades + [p];
      openExits := openExits + [p.exit];
      category := Traded(p.outcome, Breaker(cfg, consecutiveLosses, skipRemaining, p.outcome).2);
      if p.outcome == Loss {
        consecutiveLosses := consecutiveLosses + 1;
        if consecutiveLosses >= cfg.breakerThreshold {
          skipRemaining := cfg.breakerSkip;
          consecutiveLosses := 0;
        }
      } else if p.outcome == Win {
        consecutiveLosses := 0;
      }
    }

    method FindFill(sig: Signal, bars: seq<Bar>, start: nat) returns (fill: Option<nat>)
      requires start == sig.mss + 1 < |bars|
      ensures forall cutoff: nat -> nat ::
                var env := Env(bars, cfg, cutoff);
                fill == if FillOf(env, sig) == FillEnd(env, sig) then None else Some(FillOf(env, sig))
    {
      var end := Min(|bars|, start + cfg.expiry);
      var j := start;
      while j < end
        invariant start <= j <= end
        invariant FirstTouch(bars, sig.side, sig.near, start, end) == FirstTouch(bars, sig.side, sig.near, j, end)
      {
        if sig.side == Short && bars[j].high >= sig.near {
          return Some(j);
        }
        if sig.side == Long && bars[j].low <= sig.near {
          return Some(j);
        }
        j := j + 1;
      }
      return None;
    }

    method FindExit(sig: Signal, bars: seq<Bar>, fill: nat, cutoff: nat -> nat) returns (p: Position)
      requires fill < |bars| && CutoffAfterFill(Env(bars, cfg, cutoff))
      ensures p == Resolve(Env(bars, cfg, cutoff), sig, fill)
    {
      ghost var env := Env(bars, cfg, cutoff);
      var stop := if sig.side == Short then sig.near + cfg.slPips * 0.0001 else sig.near - cfg.slPips * 0.0001;
      var target := if sig.side == Short then sig.near - cfg.tpPips * 0.0001 else sig.near + cfg.tpPips * 0.0001;
      var last := Min(cutoff(fill), |bars| - 1);
      assert fill <= env.cutoff(fill);
      var j := fill + 1;
      while j < last + 1
        invariant fill + 1 <= j <= last + 1
        invariant FirstExit(bars, sig.side, stop, target, fill + 1, last + 1) ==
                  FirstExit(bars, sig.side, stop, target, j, last + 1)
      {
        var stopHit := if sig.side == Short then bars[j].high >= stop else bars[j].low <= stop;
        var targetHit := if sig.side == Short then bars[j].low <= target else bars[j].high >= target;
        if stopHit {
          return Position(sig.side, sig.near, fill, j, Loss, stop);
        }
        if targetHit {
          return Position(sig.side, sig.near, fill, j, Win, target);
        }
        j := j + 1;
      }
      return Position(sig.side, sig.near, fill, last, Scratch, bars[last].close);
    }
  }

  // ---------- breaker accounting ----------

  function Skipped(cs: seq<Category>): nat {
    if cs == [] then 0
    else Skipped(cs[..|cs| - 1]) + if cs[|cs| - 1].BreakerSkipped? then 1 else 0
  }

  function Trips(cs: seq<Category>): nat {
    if cs == [] then 0
    else Trips(cs[..|cs| - 1]) + if cs[|cs| - 1].Traded? && cs[|cs| - 1].trip then 1 else 0
  }

  function Losses(cs: seq<Category>): nat {
    if cs == [] then 0
    else Losses(cs[..|cs| - 1]) + if cs[|cs| - 1].Traded? && cs[|cs| - 1].outcome == Loss then 1 else 0
  }

  function TradedCount(cs: seq<Category>): nat {
    if cs == [] then 0
    else TradedCount(cs[..|cs| - 1]) + if cs[|cs| - 1].Traded? then 1 else 0
  }

  lemma CategoriesAppend(cs: seq<Category>, c: Category)
    ensures Skipped(cs + [c]) == Skipped(cs) + if c.BreakerSkipped? then 1 else 0
    ensures Trips(cs + [c]) == Trips(cs) + if c.Traded? && c.trip then 1 else 0
    ensures Losses(cs + [c]) == Losses(cs) + if c.Traded? && c.outcome == Loss then 1 else 0
    ensures TradedCount(cs + [c]) == TradedCount(cs) + if c.Traded? then 1 else 0
  {
    assert (cs + [c])[..|cs|] == cs;
  }

  /** Over any signal list: skips done plus skips owed are breakerSkip per trip; losses cover threshold per trip plus
      the running streak, which never reaches the threshold; exactly the traded signals have positions. */
  lemma {:induction false} BreakerAccounting(env: Env, signals: seq<Signal>)
    requires CutoffAfterFill(env)
    ensures var (b, cs) := RunBook(env, EMPTY, signals);
            && Skipped(cs) + b.skip == env.cfg.breakerSkip * Trips(cs)
            && Losses(cs) >= env.cfg.breakerThreshold * Trips(cs) + b.losses
            && (env.cfg.breakerThreshold > 0 ==> b.losses < env.cfg.breakerThreshold)
            && TradedCount(cs) == |b.trades|
  {
    hide Resolve, FillOf, FillEnd, Keep;
    if signals != [] {
      var init := signals[..|signals| - 1];
      BreakerAccounting(env, init);
      var (b, cs) := RunBook(env, EMPTY, init);
      var (b', c) := Step(env, b, signals[|signals| - 1]);
      CategoriesAppend(cs, c);
      OneMore(env.cfg.breakerSkip, Trips(cs));
      OneMore(env.cfg.breakerThreshold, Trips(cs));
    }
  }

  lemma OneMore(x: nat, n: nat)
    ensures x * (n + 1) == x * n + x
  {
  }

  // ---------- slot cap ----------

  /** The tracked list never holds more than the allowed number of positions. */
  lemma {:induction false} TrackedWithinCap(env: Env, signals: seq<Signal>)
    requires CutoffAfterFill(env)
    ensures |RunBook(env, EMPTY, signals).0.openExits| <= env.cfg.maxPositions
  {
    hide Resolve, FillOf, FillEnd, Keep, Breaker;
    if signals != [] { TrackedWithinCap(env, signals[..|signals| - 1]); }
  }

  /** How many trades exit at bar t or later. */
  function ExitsFrom(trades: seq<Position>, t: int): nat {
    if trades == [] then 0
    else ExitsFrom(trades[..|trades| - 1], t) + if trades[|trades| - 1].exit >= t then 1 else 0
  }

  /** How many trades are open at bar b, entry and exit bar included. */
  function OpenAt(trades: seq<Position>, b: int): nat {
    if trades == [] then 0
    else OpenAt(trades[..|trades| - 1], b) +
         if trades[|trades| - 1].fill <= b <= trades[|trades| - 1].exit then 1 else 0
  }

  predicate Located(c: Category) { c.Traded? || c.CapRejectedAtFill? }

  predicate InRange(env: Env, sig: Signal) {
    sig.mss + 1 < |env.bars|
  }

  /** The signals come in the order of their bars, and the fills found for them come in that order too. */
  ghost predicate InOrder(env: Env, signals: seq<Signal>, cs: seq<Category>)
    requires |cs| == |signals|
  {
    && (forall x, y :: 0 <= x < y < |signals| ==> signals[x].mss <= signals[y].mss)
    && (forall x, y :: 0 <= x < y < |signals| && FillFound(env, signals, cs, x) && FillFound(env, signals, cs, y) ==>
          FillOf(env, signals[x]) <= FillOf(env, signals[y]))
  }

  /** Signal x got as far as a fill bar, whether or not it was then accepted. */
  predicate FillFound(env: Env, signals: seq<Signal>, cs: seq<Category>, x: nat)
    requires |cs| == |signals| && x < |signals|
  {
    Located(cs[x]) && InRange(env, signals[x])
  }

  /** From bar `floor` on, the tracked exits are all exits. */
  ghost predicate TracksFrom(b: Book, floor: int) {
    forall t: int :: t >= floor ==> |Keep(b.openExits, t)| == ExitsFrom(b.trades, t)
  }

  ghost predicate CapHolds(trades: seq<Position>, cap: nat) {
    forall b: int :: OpenAt(trades, b) <= cap
  }

  lemma {:induction false} KeepTwice(exits: seq<nat>, s: int, t: int)
    requires s <= t
    ensures Keep(Keep(exits, s), t) == Keep(exits, t)
  {
    if exits != [] {
      var init, e := exits[..|exits| - 1], exits[|exits| - 1];
      KeepTwice(init, s, t);
      if e >= s {
        var r := Keep(init, s) + [e];
        assert r[..|r| - 1] == Keep(init, s);
      }
    }
  }

  lemma {:induction false} OpenBound(trades: seq<Position>, b: int, f: int)
    requires f <= b
    ensures OpenAt(trades, b) <= ExitsFrom(trades, f)
  {
    if trades != [] { OpenBound(trades[..|trades| - 1], b, f); }
  }

  lemma AddTrade(env: Env, b: Book, exits: seq<nat>, p: Position, cap: nat)
    requires |exits| < cap && p.fill <= p.exit && CapHolds(b.trades, cap)
    requires TracksFrom(b.(openExits := exits), p.fill) && Keep(exits, p.fill) == exits
    ensures CapHolds(b.trades + [p], cap)
    ensures TracksFrom(Book(exits + [p.exit], 0, 0, b.trades + [p]), p.fill)
  {
    var trades := b.trades + [p];
    assert trades[..|b.trades|] == b.trades;
    assert (exits + [p.exit])[..|exits|] == exits;
    forall t: int | t >= p.fill ensures |Keep(exits + [p.exit], t)| == ExitsFrom(trades, t) {
      assert |Keep(exits, t)| == ExitsFrom(b.trades, t);
    }
    forall x: int ensures OpenAt(trades, x) <= cap {
      assert OpenAt(b.trades, x) <= cap;
      if p.fill <= x {
        OpenBound(b.trades, x, p.fill);
        assert |Keep(exits, p.fill)| == ExitsFrom(b.trades, p.fill);
      }
    }
  }

  /** `floor` is the bar of some filter applied so far: a signal's order start or a located fill. */
  ghost predicate FloorFits(env: Env, signals: seq<Signal>, cs: seq<Category>, floor: int)
    requires |cs| == |signals|
  {
    floor == 0 || exists x :: 0 <= x < |signals| && FloorFrom(env, signals, cs, x, floor)
  }

  predicate FloorFrom(env: Env, signals: seq<Signal>, cs: seq<Category>, x: nat, floor: int)
    requires |cs| == |signals| && x < |signals|
  {
    floor == signals[x].mss + 1 || (FillFound(env, signals, cs, x) && floor == FillOf(env, signals[x]))
  }

  lemma TracksAfterFilter(b: Book, floor: int, start: int)
    requires TracksFrom(b, floor)
    ensures TracksFrom(b.(openExits := Keep(b.openExits, start)), Max(floor, start))
  {
    forall t: int | t >= Max(floor, start) ensures |Keep(Keep(b.openExits, start), t)| == ExitsFrom(b.trades, t) {
      KeepTwice(b.openExits, start, t);
    }
  }

  /** One signal keeps the cap and moves the floor to its own filter; a located fill must not lie before the floor. */
  lemma StepKeepsCap(env: Env, b: Book, sig: Signal, floor: int) returns (floor': int)
    requires CutoffAfterFill(env) && TracksFrom(b, floor) && CapHolds(b.trades, env.cfg.maxPositions)
    requires InRange(env, sig) && Located(Step(env, b, sig).1) ==> floor <= FillOf(env, sig)
    ensures TracksFrom(Step(env, b, sig).0, floor') && CapHolds(Step(env, b, sig).0.trades, env.cfg.maxPositions)
    ensures floor' == if !InRange(env, sig) then floor
                      else if Located(Step(env, b, sig).1) then FillOf(env, sig) else Max(floor, sig.mss + 1)
  {
    hide Resolve, Breaker, CapHolds, ExitsFrom, Keep, FirstTouch, TracksFrom;
    var start := sig.mss + 1;
    var (b', c) := Step(env, b, sig);
    if !InRange(env, sig) {
      floor' := floor;
    } else if !Located(c) {
      floor' := Max(floor, start);
      TracksAfterFilter(b, floor, start);
      SameTracks(b.(openExits := Keep(b.openExits, start)), b', floor');
    } else {
      var fill := FillOf(env, sig);
      floor' := fill;
      KeepTwice(b.openExits, start, fill);
      TracksAfterFilter(b, floor, fill);
      KeepTwice(b.openExits, fill, fill);
      var exits := Keep(b.openExits, fill);
      if c.Traded? {
        var p := Resolve(env, sig, fill);
        AddTrade(env, b, exits, p, env.cfg.maxPositions);
        SameTracks(Book(exits + [p.exit], 0, 0, b.trades + [p]), b', fill);
      } else {
        SameTracks(b.(openExits := exits), b', fill);
      }
    }
  }

  lemma SameTracks(b: Book, b': Book, floor: int)
    requires TracksFrom(b, floor) && b.openExits == b'.openExits && b.trades == b'.trades
    ensures TracksFrom(b', floor)
  {
  }

  /** The floor that a run's last filter leaves, if the fills come in order. */
  lemma {:induction false} RunKeepsCap(env: Env, signals: seq<Signal>) returns (floor: int)
    requires CutoffAfterFill(env) && InOrder(env, signals, RunBook(env, EMPTY, signals).1)
    ensures var (b, cs) := RunBook(env, EMPTY, signals);
            TracksFrom(b, floor) && CapHolds(b.trades, env.cfg.maxPositions) && FloorFits(env, signals, cs, floor)
  {
    hide Step, Keep, CapHolds, TracksFrom, FirstTouch;
    if signals == [] {
      floor := 0;
      EmptyBook(env.cfg.maxPositions);
    } else {
      var n := |signals| - 1;
      var init, sig := signals[..n], signals[n];
      var (b, cs) := RunBook(env, EMPTY, init);
      var (b', c) := Step(env, b, sig);
      assert RunBook(env, EMPTY, signals) == (b', cs + [c]);
      InOrderInit(env, signals, cs + [c]);
      var floor0 := RunKeepsCap(env, init);
      FloorBefore(env, signals, cs + [c], floor0);
      floor := StepKeepsCap(env, b, sig, floor0);
      FloorMoves(env, signals, cs + [c], floor0, floor);
    }
  }

  lemma InOrderInit(env: Env, signals: seq<Signal>, cs: seq<Category>)
    requires |cs| == |signals| > 0 && InOrder(env, signals, cs)
    ensures InOrder(env, signals[..|signals| - 1], cs[..|cs| - 1])
  {
    hide FillOf;
    var n := |signals| - 1;
    assert forall x :: 0 <= x < n ==>
      FillFound(env, signals[..n], cs[..n], x) == FillFound(env, signals, cs, x);
  }

  lemma FloorBefore(env: Env, signals: seq<Signal>, cs: seq<Category>, floor: int)
    requires |cs| == |signals| > 0 && InOrder(env, signals, cs)
    requires FloorFits(env, signals[..|signals| - 1], cs[..|cs| - 1], floor)
    ensures var n := |signals| - 1;
            FillFound(env, signals, cs, n) ==> floor <= FillOf(env, signals[n])
  {
    hide FirstTouch;
    var n := |signals| - 1;
    if floor != 0 {
      var x :| 0 <= x < n && FloorFrom(env, signals[..n], cs[..n], x, floor);
      assert FillFound(env, signals[..n], cs[..n], x) == FillFound(env, signals, cs, x);
    }
  }

  lemma FloorMoves(env: Env, signals: seq<Signal>, cs: seq<Category>, floor: int, floor': int)
    requires |cs| == |signals| > 0
    requires FloorFits(env, signals[..|signals| - 1], cs[..|cs| - 1], floor)
    requires floor' == floor || FloorFrom(env, signals, cs, |signals| - 1, floor')
    ensures FloorFits(env, signals, cs, floor')
  {
    hide FillOf;
    var n := |signals| - 1;
    if floor' == floor && floor != 0 {
      var x :| 0 <= x < n && FloorFrom(env, signals[..n], cs[..n], x, floor);
      assert FillFound(env, signals[..n], cs[..n], x) == FillFound(env, signals, cs, x);
      assert FloorFrom(env, signals, cs, x, floor');
    }
  }

  lemma EmptyBook(cap: nat)
    ensures TracksFrom(EMPTY, 0) && CapHolds(EMPTY.trades, cap)
  {
  }

  /** If located fills come in processing order, no bar ever has more than the allowed number of trades open, counting
      the exit bar. */
  lemma SlotCap(env: Env, signals: seq<Signal>, bar: int)
    requires CutoffAfterFill(env) && InOrder(env, signals, RunBook(env, EMPTY, signals).1)
    ensures OpenAt(RunBook(env, EMPTY, signals).0.trades, bar) <= env.cfg.maxPositions
  {
    var floor := RunKeepsCap(env, signals);
  }
}
