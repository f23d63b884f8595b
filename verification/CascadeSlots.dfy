/** When the Cascade simulator's slot cap bounds the number of open trades, whatever the market does: exactly when the
    cap is at most two.  Filtering the tracked exits at a late fill forgets positions that an earlier fill would still
    have met. */
module CascadeSlots {
  import opened Market
  import opened FvgModel
  import opened CascadeSignals
  import opened CascadePositions

  /** The order in which the caller passes the signals. */
  predicate Sorted(signals: seq<Signal>) {
    forall x, y :: 0 <= x < y < |signals| ==> signals[x].mss <= signals[y].mss
  }

  /** At no bar are more trades open, entry and exit bar included, than the cap allows. */
  ghost predicate CapKept(env: Env, signals: seq<Signal>)
    requires CutoffAfterFill(env)
  {
    CapHolds(RunBook(env, EMPTY, signals).0.trades, env.cfg.maxPositions)
  }

  /** The check repeated at the fill bar never rejects: filtering only removes positions. */
  lemma {:induction false} SecondCheckNeverRejects(env: Env, signals: seq<Signal>)
    requires CutoffAfterFill(env)
    ensures forall c :: c in RunBook(env, EMPTY, signals).1 ==> c != CapRejectedAtFill
  {
    hide Resolve, FillOf, FillEnd, Breaker, Keep;
    if signals != [] { SecondCheckNeverRejects(env, signals[..|signals| - 1]); }
  }

  // ---------- up to two slots ----------

  /** What a tracked list filtered at bar t says about the trades still open then. */
  ghost predicate Describes(tracked: seq<nat>, trades: seq<Position>, t: int) {
    && (|tracked| == 0 ==> ExitsFrom(trades, t) == 0)
    && (|tracked| == 1 ==> ExitsFrom(trades, tracked[0] + 1) == 0 && forall b: int :: b >= t ==> OpenAt(trades, b) <= 1)
  }

  ghost predicate DescribesFrom(exits: seq<nat>, trades: seq<Position>, floor: int) {
    forall t: int :: t >= floor ==> Describes(Keep(exits, t), trades, t)
  }

  lemma {:induction false} ExitsDecrease(trades: seq<Position>, t: int, t': int)
    requires t <= t'
    ensures ExitsFrom(trades, t') <= ExitsFrom(trades, t)
  {
    if trades != [] { ExitsDecrease(trades[..|trades| - 1], t, t'); }
  }

  lemma DescribesAfterFilter(exits: seq<nat>, trades: seq<Position>, floor: int, start: int)
    requires DescribesFrom(exits, trades, floor) && floor <= start
    ensures DescribesFrom(Keep(exits, start), trades, start)
  {
    forall t: int | t >= start ensures Describes(Keep(Keep(exits, start), t), trades, t) {
      KeepTwice(exits, start, t);
      assert Describes(Keep(exits, t), trades, t);
    }
  }

  lemma KeepOne(e: nat, t: int)
    ensures Keep([e], t) == if e >= t then [e] else []
  {
    assert [e][..0] == [];
  }

  lemma KeepTwo(c: nat, e: nat, t: int)
    ensures Keep([c, e], t) == Keep([c], t) + Keep([e], t)
  {
    assert [c, e][..1] == [c];
    KeepOne(c, t);
    KeepOne(e, t);
  }

  /** The counts after one more trade. */
  lemma Append(trades: seq<Position>, p: Position, t: int)
    ensures ExitsFrom(trades + [p], t) == ExitsFrom(trades, t) + if p.exit >= t then 1 else 0
    ensures OpenAt(trades + [p], t) == OpenAt(trades, t) + if p.fill <= t <= p.exit then 1 else 0
  {
    assert (trades + [p])[..|trades|] == trades;
  }

  /** Nothing exits at or after t, so nothing is open there. */
  lemma NoneOpen(trades: seq<Position>, t: int, b: int)
    requires ExitsFrom(trades, t) == 0 && t <= b
    ensures OpenAt(trades, b) == 0
  {
    OpenBound(trades, b, t);
  }

  lemma OneTracked(trades: seq<Position>, tracked: seq<nat>, start: int, p: Position, t: int)
    requires |tracked| <= 1 && start <= p.fill <= p.exit && start <= t
    requires DescribesFrom(tracked, trades, start) && Keep(tracked, start) == tracked
    ensures Describes(Keep(Keep(tracked, p.fill) + [p.exit], t), trades + [p], t)
    ensures OpenAt(trades + [p], t) <= |tracked| + 1
  {
    hide Keep, OpenAt, ExitsFrom;
    assert Describes(Keep(tracked, start), trades, start);
    if tracked == [] {
      KeepNone(p.fill);
      KeepOne(p.exit, t);
      assert Keep(tracked, p.fill) + [p.exit] == [p.exit];
      AddToNone(trades, p, start, t);
    } else {
      var c := tracked[0];
      assert tracked == [c];
      KeepOne(c, p.fill);
      KeepOne(c, t);
      KeepOne(p.exit, t);
      KeepTwo(c, p.exit, t);
      if c >= p.fill {
        assert Keep(tracked, p.fill) + [p.exit] == [c, p.exit];
      } else {
        assert Keep(tracked, p.fill) + [p.exit] == [p.exit];
      }
      AddToOne(trades, p, start, c, t);
    }
  }

  lemma KeepNone(t: int)
    ensures Keep([], t) == []
  {
  }

  lemma AddToNone(trades: seq<Position>, p: Position, start: int, t: int)
    requires start <= p.fill <= p.exit && start <= t && ExitsFrom(trades, start) == 0
    ensures OpenAt(trades + [p], t) <= 1
    ensures p.exit < t ==> ExitsFrom(trades + [p], t) == 0
    ensures ExitsFrom(trades + [p], p.exit + 1) == 0
    ensures forall b: int :: b >= t ==> OpenAt(trades + [p], b) <= 1
  {
    hide OpenAt, ExitsFrom;
    ExitsDecrease(trades, start, t);
    ExitsDecrease(trades, start, p.exit + 1);
    Append(trades, p, t);
    Append(trades, p, p.exit + 1);
    forall b: int | b >= start ensures OpenAt(trades + [p], b) <= 1 {
      NoneOpen(trades, start, b);
      Append(trades, p, b);
    }
  }

  lemma AddToOne(trades: seq<Position>, p: Position, start: int, c: nat, t: int)
    requires start <= p.fill <= p.exit && start <= t && ExitsFrom(trades, c + 1) == 0
    requires forall b: int :: b >= start ==> OpenAt(trades, b) <= 1
    ensures OpenAt(trades + [p], t) <= 2
    ensures c < t && p.exit < t ==> ExitsFrom(trades + [p], t) == 0
    ensures c < t || c < p.fill ==> ExitsFrom(trades + [p], Max(c, p.exit) + 1) == 0
    ensures p.exit < t <= c ==> ExitsFrom(trades + [p], c + 1) == 0
    ensures c < t || c < p.fill || p.exit < t ==> forall b: int :: b >= t ==> OpenAt(trades + [p], b) <= 1
  {
    hide OpenAt, ExitsFrom;
    Append(trades, p, t);
    Append(trades, p, c + 1);
    Append(trades, p, Max(c, p.exit) + 1);
    ExitsDecrease(trades, c + 1, Max(c, p.exit) + 1);
    if c < t { ExitsDecrease(trades, c + 1, t); }
    forall b: int | b >= t && (c < t || c < p.fill || p.exit < t) ensures OpenAt(trades + [p], b) <= 1 {
      Append(trades, p, b);
      if b > c { NoneOpen(trades, c + 1, b); }
    }
  }

  /** The bar from which a book describes its trades: the start of the last signal in range. */
  function Floor(env: Env, signals: seq<Signal>): int {
    if signals == [] then 0
    else if InRange(env, signals[|signals| - 1]) then signals[|signals| - 1].mss + 1
    else Floor(env, signals[..|signals| - 1])
  }

  lemma {:induction false} FloorReached(env: Env, signals: seq<Signal>, sig: Signal)
    requires forall x :: 0 <= x < |signals| ==> signals[x].mss <= sig.mss
    ensures Floor(env, signals) <= sig.mss + 1
  {
    if signals != [] { FloorReached(env, signals[..|signals| - 1], sig); }
  }

  lemma StepDescribes(env: Env, b: Book, sig: Signal, floor: int)
    requires CutoffAfterFill(env) && env.cfg.maxPositions <= 2 && floor <= sig.mss + 1 && InRange(env, sig)
    requires DescribesFrom(b.openExits, b.trades, floor) && CapHolds(b.trades, env.cfg.maxPositions)
    ensures var b' := Step(env, b, sig).0;
            DescribesFrom(b'.openExits, b'.trades, sig.mss + 1) && CapHolds(b'.trades, env.cfg.maxPositions)
  {
    hide Resolve, Breaker, CapHolds, ExitsFrom, OpenAt, Keep, FirstTouch, DescribesFrom;
    var start := sig.mss + 1;
    var tracked := Keep(b.openExits, start);
    DescribesAfterFilter(b.openExits, b.trades, floor, start);
    KeepTwice(b.openExits, start, start);
    var (b', c) := Step(env, b, sig);
    if c.Traded? {
      var p := Resolve(env, sig, FillOf(env, sig));
      AddDescribed(b.trades, tracked, start, p, env.cfg.maxPositions);
    }
  }

  lemma AddDescribed(trades: seq<Position>, tracked: seq<nat>, start: int, p: Position, cap: nat)
    requires |tracked| < cap <= 2 && start <= p.fill <= p.exit && CapHolds(trades, cap)
    requires DescribesFrom(tracked, trades, start) && Keep(tracked, start) == tracked
    ensures DescribesFrom(Keep(tracked, p.fill) + [p.exit], trades + [p], start) && CapHolds(trades + [p], cap)
  {
    hide ExitsFrom, OpenAt, Keep, Describes;
    forall t: int | t >= start ensures Describes(Keep(Keep(tracked, p.fill) + [p.exit], t), trades + [p], t) {
      OneTracked(trades, tracked, start, p, t);
    }
    forall b: int ensures OpenAt(trades + [p], b) <= cap {
      assert OpenAt(trades, b) <= cap;
      Append(trades, p, b);
      if b >= start { OneTracked(trades, tracked, start, p, b); }
    }
  }

  lemma {:induction false} RunDescribes(env: Env, signals: seq<Signal>)
    requires CutoffAfterFill(env) && env.cfg.maxPositions <= 2 && Sorted(signals)
    ensures var b := RunBook(env, EMPTY, signals).0;
            DescribesFrom(b.openExits, b.trades, Floor(env, signals)) && CapHolds(b.trades, env.cfg.maxPositions)
  {
    hide Step, CapHolds, DescribesFrom;
    if signals == [] {
      EmptyDescribes(env.cfg.maxPositions);
    } else {
      var n := |signals| - 1;
      RunDescribes(env, signals[..n]);
      if InRange(env, signals[n]) {
        FloorReached(env, signals[..n], signals[n]);
        StepDescribes(env, RunBook(env, EMPTY, signals[..n]).0, signals[n], Floor(env, signals[..n]));
      } else {
        OutOfRangeKeeps(env, RunBook(env, EMPTY, signals[..n]).0, signals[n]);
      }
    }
  }

  lemma OutOfRangeKeeps(env: Env, b: Book, sig: Signal)
    requires CutoffAfterFill(env) && !InRange(env, sig)
    ensures Step(env, b, sig).0 == b
  {
  }

  lemma EmptyDescribes(cap: nat)
    ensures DescribesFrom(EMPTY.openExits, EMPTY.trades, 0) && CapHolds(EMPTY.trades, cap)
  {
  }

  // ---------- three slots and more ----------

  /** A market that rises by less than twenty pips in all, and trades held for a fixed number of bars, with the
      configured stop of thirty pips and target of sixty; the orders live for the configured 150 bars if that is
      enough. */
  ghost function Rising(cap: nat, threshold: nat, skip: nat): Env
    requires cap > 0
  {
    Env(seq(16 * cap, j requires 0 <= j < 16 * cap => Bar(j, Level(cap, j), Level(cap, j), Level(cap, j))),
        Config(cap, threshold, skip, 30.0, 60.0, Max(150, 12 * cap)), f => f + 3 * cap)
  }

  function Rate(cap: nat): real
    requires cap > 0
  {
    0.0001 / cap as real
  }

  function Level(cap: nat, j: nat): real
    requires cap > 0
  {
    j as real * Rate(cap)
  }

  lemma LevelsRise(cap: nat, i: nat, j: nat)
    requires cap > 0
    ensures i < j <==> Level(cap, i) < Level(cap, j)
    ensures i <= j <= i + 16 * cap ==> Level(cap, j) - Level(cap, i) <= 0.0016
  {
    var c, r := cap as real, Rate(cap);
    assert r > 0.0 && c * r == 0.0001;
    var d := j as real - i as real;
    assert Level(cap, j) - Level(cap, i) == d * r;
    assert d > 0.0 ==> d * r > 0.0;
    assert d <= 0.0 ==> d * r <= 0.0;
    if d <= 16.0 * c { assert (16.0 * c - d) * r >= 0.0; }
  }

  /** A short with its shift at bar `mss` that the rising market fills at bar `fill`.  The position manager takes any
      signal list; the detector would not emit these in a market that never falls. */
  function ShortAt(cap: nat, mss: nat, fill: nat): Signal
    requires cap > 0 && mss > 0
  {
    Signal(Short, mss - 1, mss, Level(cap, fill), 0.0, 0.0, 0.0, 0.0)
  }

  function Held(cap: nat, fill: nat): Position
    requires cap > 0
  {
    Position(Short, Level(cap, fill), fill, fill + 3 * cap, Scratch, Level(cap, fill + 3 * cap))
  }

  /** n orders with their shifts and their fills on consecutive bars. */
  function Shorts(cap: nat, mss: nat, fill: nat, n: nat): (r: seq<Signal>)
    requires cap > 0 && mss > 0
    ensures |r| == n && forall x :: 0 <= x < n ==> r[x] == ShortAt(cap, mss + x, fill + x)
  {
    if n == 0 then [] else Shorts(cap, mss, fill, n - 1) + [ShortAt(cap, mss + n - 1, fill + n - 1)]
  }

  function HeldRow(cap: nat, fill: nat, n: nat): (r: seq<Position>)
    requires cap > 0
    ensures |r| == n
  {
    if n == 0 then [] else HeldRow(cap, fill, n - 1) + [Held(cap, fill + n - 1)]
  }

  function Count(from: nat, n: nat): (r: seq<nat>)
    ensures |r| == n && forall x :: 0 <= x < n ==> r[x] == from + x
  {
    if n == 0 then [] else Count(from, n - 1) + [from + n - 1]
  }

  /** Distinct orders, one for each shift bar: early fills, one late fill that makes the manager forget them, and early
      fills again. */
  function Forgetful(cap: nat): seq<Signal>
    requires cap > 0
  {
    Shorts(cap, 1, 3 * cap, cap - 1) + [ShortAt(cap, cap, 12 * cap)] + Shorts(cap, cap + 1, 4 * cap, cap - 1)
  }

  lemma HeldFor(cap: nat, threshold: nat, skip: nat, mss: nat, fill: nat)
    requires 0 < mss < fill <= 12 * cap
    ensures var env, sig := Rising(cap, threshold, skip), ShortAt(cap, mss, fill);
            && CutoffAfterFill(env) && sig.mss + 1 < |env.bars| && fill < FillEnd(env, sig) && fill < |env.bars|
            && FillOf(env, sig) == fill && Resolve(env, sig, fill) == Held(cap, fill)
  {
    hide FirstTouch, FirstExit, Level;
    var env, sig := Rising(cap, threshold, skip), ShortAt(cap, mss, fill);
    var p := FirstTouch(env.bars, Short, sig.near, mss + 1, FillEnd(env, sig));
    assert Touched(env.bars[fill], Short, sig.near);
    assert p <= fill && Touched(env.bars[p], Short, sig.near);
    LevelsRise(cap, p, fill);
    NotStopped(cap, threshold, skip, mss, fill);
  }

  /** Neither the stop nor the target is reached while the trade is held. */
  lemma NotStopped(cap: nat, threshold: nat, skip: nat, mss: nat, fill: nat)
    requires 0 < mss < fill <= 12 * cap
    ensures var env, sig := Rising(cap, threshold, skip), ShortAt(cap, mss, fill);
            && |env.bars| == 16 * cap
            && FirstExit(env.bars, Short, StopPrice(env, sig), TargetPrice(env, sig), fill + 1, fill + 3 * cap + 1) ==
               fill + 3 * cap + 1
  {
    hide FirstExit, Level;
    var env, sig := Rising(cap, threshold, skip), ShortAt(cap, mss, fill);
    var stop, target := StopPrice(env, sig), TargetPrice(env, sig);
    assert stop == Level(cap, fill) + 0.003 && target == Level(cap, fill) - 0.006;
    var q := FirstExit(env.bars, Short, stop, target, fill + 1, fill + 3 * cap + 1);
    LevelsRise(cap, fill, q);
  }

  lemma {:induction false} KeepAll(exits: seq<nat>, t: int)
    requires forall e :: e in exits ==> e >= t
    ensures Keep(exits, t) == exits
  {
    if exits != [] {
      var init := exits[..|exits| - 1];
      assert forall e :: e in init ==> e in exits;
      assert exits[|exits| - 1] in exits;
      KeepAll(init, t);
    }
  }

  lemma {:induction false} DropAll(exits: seq<nat>, t: int)
    requires forall e :: e in exits ==> e < t
    ensures Keep(exits, t) == []
  {
    if exits != [] {
      var init := exits[..|exits| - 1];
      assert forall e :: e in init ==> e in exits;
      assert exits[|exits| - 1] in exits;
      DropAll(init, t);
    }
  }

  /** One more held short, from a book whose exits all lie past its shift bar and leave a slot free. */
  lemma HoldOne(cap: nat, threshold: nat, skip: nat, b: Book, mss: nat, fill: nat)
    requires 0 < mss < fill <= 12 * cap && |b.openExits| < cap && b.skip == 0
    requires forall e :: e in b.openExits ==> e > mss
    ensures CutoffAfterFill(Rising(cap, threshold, skip))
    ensures Step(Rising(cap, threshold, skip), b, ShortAt(cap, mss, fill)).0 ==
            Book(Keep(b.openExits, fill) + [fill + 3 * cap], b.losses, 0, b.trades + [Held(cap, fill)])
  {
    hide FirstTouch, Keep, Resolve, FillOf, FillEnd, Level;
    HeldFor(cap, threshold, skip, mss, fill);
    KeepAll(b.openExits, mss + 1);
  }

  lemma RunOneMore(env: Env, b: Book, signals: seq<Signal>, sig: Signal)
    requires CutoffAfterFill(env)
    ensures RunBook(env, b, signals + [sig]).0 == Step(env, RunBook(env, b, signals).0, sig).0
  {
    hide Step;
    assert (signals + [sig])[..|signals|] == signals;
  }

  /** The book after n such orders in a row. */
  ghost function Holding(cap: nat, b: Book, fill: nat, n: nat): Book
    requires cap > 0
  {
    Book(b.openExits + Count(fill + 3 * cap, n), b.losses, 0, b.trades + HeldRow(cap, fill, n))
  }

  /** n held shorts in a row after a run that leaves room for them and whose exits they do not filter out. */
  lemma {:induction false} HoldMany(cap: nat, threshold: nat, skip: nat, before: seq<Signal>, n: nat, mss: nat,
                                    fill: nat)
    requires 0 < mss < fill && fill + n <= 12 * cap && CutoffAfterFill(Rising(cap, threshold, skip))
    requires var b := RunBook(Rising(cap, threshold, skip), EMPTY, before).0;
             |b.openExits| + n <= cap && b.skip == 0 && forall e :: e in b.openExits ==> e >= fill + n
    ensures RunBook(Rising(cap, threshold, skip), EMPTY, before + Shorts(cap, mss, fill, n)).0 ==
            Holding(cap, RunBook(Rising(cap, threshold, skip), EMPTY, before).0, fill, n)
  {
    hide Step, Rising, Keep, RunBook, ShortAt, Held;
    var env := Rising(cap, threshold, skip);
    var b := RunBook(env, EMPTY, before).0;
    if n == 0 {
      assert before + Shorts(cap, mss, fill, n) == before;
      assert b.openExits + Count(fill + 3 * cap, n) == b.openExits && b.trades + HeldRow(cap, fill, n) == b.trades;
    } else {
      HoldMany(cap, threshold, skip, before, n - 1, mss, fill);
      var s, sig := before + Shorts(cap, mss, fill, n - 1), ShortAt(cap, mss + n - 1, fill + n - 1);
      assert before + Shorts(cap, mss, fill, n) == s + [sig];
      RunOneMore(env, EMPTY, s, sig);
      var b' := RunBook(env, EMPTY, s).0;
      HoldOne(cap, threshold, skip, b', mss + n - 1, fill + n - 1);
      KeepAll(b'.openExits, fill + n - 1);
      assert b'.openExits + [fill + n - 1 + 3 * cap] == b.openExits + Count(fill + 3 * cap, n);
      assert b'.trades + [Held(cap, fill + n - 1)] == b.trades + HeldRow(cap, fill, n);
    }
  }

  lemma {:induction false} OpenSum(xs: seq<Position>, ys: seq<Position>, b: int)
    ensures OpenAt(xs + ys, b) == OpenAt(xs, b) + OpenAt(ys, b)
  {
    if ys == [] {
      assert xs + ys == xs;
    } else {
      assert (xs + ys)[..|xs + ys| - 1] == xs + ys[..|ys| - 1];
      OpenSum(xs, ys[..|ys| - 1], b);
    }
  }

  lemma {:induction false} OpenRow(cap: nat, fill: nat, n: nat, b: int)
    requires cap > 0 && fill + n <= b + 1 && b <= fill + 3 * cap
    ensures OpenAt(HeldRow(cap, fill, n), b) == n
  {
    hide Level;
    if n > 0 {
      assert HeldRow(cap, fill, n)[..n - 1] == HeldRow(cap, fill, n - 1);
      OpenRow(cap, fill, n - 1, b);
    }
  }

  /** The late fill is accepted and leaves only its own exit tracked. */
  lemma LateFill(cap: nat, threshold: nat, skip: nat)
    requires cap >= 2
    ensures CutoffAfterFill(Rising(cap, threshold, skip))
    ensures RunBook(Rising(cap, threshold, skip), EMPTY,
                    Shorts(cap, 1, 3 * cap, cap - 1) + [ShortAt(cap, cap, 12 * cap)]).0 ==
            Book([15 * cap], 0, 0, HeldRow(cap, 3 * cap, cap - 1) + [Held(cap, 12 * cap)])
  {
    hide Step, Rising, Keep, RunBook, ShortAt, Held;
    var env := Rising(cap, threshold, skip);
    HeldFor(cap, threshold, skip, 1, 3 * cap);
    var early := Shorts(cap, 1, 3 * cap, cap - 1);
    EmptyRun(env);
    HoldMany(cap, threshold, skip, [], cap - 1, 1, 3 * cap);
    assert [] + early == early;
    var b := RunBook(env, EMPTY, early).0;
    assert b.openExits == Count(6 * cap, cap - 1) && b.trades == HeldRow(cap, 3 * cap, cap - 1);
    RunOneMore(env, EMPTY, early, ShortAt(cap, cap, 12 * cap));
    HoldOne(cap, threshold, skip, b, cap, 12 * cap);
    DropAll(b.openExits, 12 * cap);
    assert Keep(b.openExits, 12 * cap) + [15 * cap] == [15 * cap];
  }

  lemma EmptyRun(env: Env)
    requires CutoffAfterFill(env)
    ensures RunBook(env, EMPTY, []).0 == EMPTY
  {
  }

  lemma ForgetfulSorted(cap: nat)
    requires cap > 0
    ensures forall x, y :: 0 <= x < y < |Forgetful(cap)| ==> Forgetful(cap)[x].mss < Forgetful(cap)[y].mss
    ensures Sorted(Forgetful(cap))
  {
    hide Level;
  }

  /** With the late fill in between, 2 * (cap - 1) trades are open at bar 5 * cap, from orders with increasing shift
      bars. */
  lemma Forgotten(cap: nat, threshold: nat, skip: nat)
    requires cap >= 2
    ensures CutoffAfterFill(Rising(cap, threshold, skip)) && Sorted(Forgetful(cap))
    ensures forall x, y :: 0 <= x < y < |Forgetful(cap)| ==> Forgetful(cap)[x].mss < Forgetful(cap)[y].mss
    ensures OpenAt(RunBook(Rising(cap, threshold, skip), EMPTY, Forgetful(cap)).0.trades, 5 * cap) >= 2 * (cap - 1)
  {
    hide Step, Rising, Keep, OpenAt, RunBook, Shorts, HeldRow, ShortAt, Held, Sorted;
    ForgetfulSorted(cap);
    LateFill(cap, threshold, skip);
    HoldMany(cap, threshold, skip, Shorts(cap, 1, 3 * cap, cap - 1) + [ShortAt(cap, cap, 12 * cap)], cap - 1, cap + 1,
             4 * cap);
    var x, y, z := HeldRow(cap, 3 * cap, cap - 1), [Held(cap, 12 * cap)], HeldRow(cap, 4 * cap, cap - 1);
    OpenSum(x + y, z, 5 * cap);
    OpenSum(x, y, 5 * cap);
    OpenRow(cap, 3 * cap, cap - 1, 5 * cap);
    OpenRow(cap, 4 * cap, cap - 1, 5 * cap);
  }

  /** The cap bounds the open trades of every market and every list of signals exactly when it is at most two. */
  lemma CapHoldsExactlyUpToTwo(cap: nat)
    ensures cap <= 2 <==> forall env: Env, signals: seq<Signal> ::
              env.cfg.maxPositions == cap && CutoffAfterFill(env) && Sorted(signals) ==> CapKept(env, signals)
  {
    hide RunBook, CapHolds;
    if cap <= 2 {
      forall env: Env, signals: seq<Signal> | env.cfg.maxPositions == cap && CutoffAfterFill(env) && Sorted(signals)
        ensures CapKept(env, signals)
      {
        RunDescribes(env, signals);
      }
    } else {
      Forgotten(cap, 2, 6);
      NotKept(Rising(cap, 2, 6), Forgetful(cap), 5 * cap);
    }
  }

  lemma NotKept(env: Env, signals: seq<Signal>, b: int)
    requires CutoffAfterFill(env) && OpenAt(RunBook(env, EMPTY, signals).0.trades, b) > env.cfg.maxPositions
    ensures !CapKept(env, signals)
  {
  }
}
