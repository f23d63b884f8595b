/** The Cascade position simulator in bars and prices: which signal becomes a trade, where the trade ends, and when the
    breaker trips. */
module PlainPositions {
  import opened Market
  import opened FvgModel
  import opened CascadeSignals
  import opened CascadePositions

  // ---------- one signal ----------

  /** Bar f is the first in the order's life that reaches its price. */
  ghost predicate FillsAt(env: Env, sig: Signal, f: nat) {
    && sig.mss < f <= sig.mss + env.cfg.expiry && f < |env.bars| && Reached(env, sig, f)
    && forall m :: sig.mss < m < f ==> !Reached(env, sig, m)
  }

  predicate Reached(env: Env, sig: Signal, m: int)
    requires 0 <= m < |env.bars|
  {
    if sig.side == Short then env.bars[m].high >= sig.near else env.bars[m].low <= sig.near
  }

  lemma FillIs(env: Env, sig: Signal, f: nat)
    requires sig.mss + 1 < |env.bars|
    ensures FillsAt(env, sig, f) <==> f == FillOf(env, sig) && f < FillEnd(env, sig)
  {
    var g := FillOf(env, sig);
    if FillsAt(env, sig, f) {
      assert Touched(env.bars[f], sig.side, sig.near);
      if g < f { assert Reached(env, sig, g); }
    }
  }

  /** Where a position ends: at the first bar after its fill, up to the cutoff, that hits the stop or else the target,
      and otherwise at the cutoff's close. */
  ghost predicate EndsAs(env: Env, sig: Signal, p: Position) {
    var last := if env.cutoff(p.fill) < |env.bars| then env.cutoff(p.fill) else |env.bars| - 1;
    && p.side == sig.side && p.entry == sig.near && p.fill <= p.exit <= last < |env.bars|
    && (forall m :: p.fill < m < p.exit ==> !Stopped(env, sig, m) && !Won(env, sig, m))
    && match p.outcome
       case Loss => p.fill < p.exit && Stopped(env, sig, p.exit) && p.exitPrice == StopOf(env, sig)
       case Win =>
         p.fill < p.exit && !Stopped(env, sig, p.exit) && Won(env, sig, p.exit) && p.exitPrice == TargetOf(env, sig)
       case Scratch =>
         && p.exit == last && p.exitPrice == env.bars[last].close
         && (p.fill < last ==> !Stopped(env, sig, last) && !Won(env, sig, last))
  }

  function StopOf(env: Env, sig: Signal): real {
    if sig.side == Short then sig.near + env.cfg.slPips * 0.0001 else sig.near - env.cfg.slPips * 0.0001
  }

  function TargetOf(env: Env, sig: Signal): real {
    if sig.side == Short then sig.near - env.cfg.tpPips * 0.0001 else sig.near + env.cfg.tpPips * 0.0001
  }

  predicate Stopped(env: Env, sig: Signal, m: int)
    requires 0 <= m < |env.bars|
  {
    if sig.side == Short then env.bars[m].high >= StopOf(env, sig) else env.bars[m].low <= StopOf(env, sig)
  }

  predicate Won(env: Env, sig: Signal, m: int)
    requires 0 <= m < |env.bars|
  {
    if sig.side == Short then env.bars[m].low <= TargetOf(env, sig) else env.bars[m].high >= TargetOf(env, sig)
  }

  lemma ResolveEnds(env: Env, sig: Signal, f: nat)
    requires f < |env.bars| && CutoffAfterFill(env)
    ensures EndsAs(env, sig, Resolve(env, sig, f)) && Resolve(env, sig, f).fill == f
  {
    hide FirstExit;
    assert f <= env.cutoff(f);
  }

  /** Keeping the exits from bar t on keeps each as often as it was there. */
  lemma {:induction false} KeepMeans(exits: seq<nat>, t: int, e: nat)
    ensures multiset(Keep(exits, t))[e] == if e >= t then multiset(exits)[e] else 0
  {
    if exits != [] {
      var init, last := exits[..|exits| - 1], exits[|exits| - 1];
      KeepMeans(init, t, e);
      assert exits == init + [last];
      assert multiset(exits) == multiset(init) + multiset{last};
    }
  }

  ghost predicate TradedAs(env: Env, sig: Signal, p: Position) {
    FillsAt(env, sig, p.fill) && EndsAs(env, sig, p)
  }

  /** What becomes of a signal: nothing beyond the last bar or while a skip is owed; then it needs a free slot among the
      tracked exits from the bar after its shift on, and a bar that reaches its price within its life; a trade it then
      is, from that bar to where it ends. */
  lemma StepMeans(env: Env, b: Book, sig: Signal)
    requires CutoffAfterFill(env)
    ensures var (b', c) := Step(env, b, sig);
            && (c == OutOfRange <==> sig.mss + 1 >= |env.bars|)
            && (c == BreakerSkipped <==> sig.mss + 1 < |env.bars| && b.skip > 0)
            && (c == CapRejected <==> sig.mss + 1 < |env.bars| && b.skip == 0
                                      && |Keep(b.openExits, sig.mss + 1)| >= env.cfg.maxPositions)
            && (c.Traded? ==>
                  exists p :: TradedAs(env, sig, p) && p.outcome == c.outcome && b'.trades == b.trades + [p])
            && (!c.Traded? ==> b'.trades == b.trades)
            && (c == Unfilled ==> forall f: nat :: !FillsAt(env, sig, f))
  {
    hide Resolve, FillOf, FillEnd, Keep, EndsAs, FillsAt;
    var (b', c) := Step(env, b, sig);
    if sig.mss + 1 < |env.bars| {
      forall f: nat ensures FillsAt(env, sig, f) <==> f == FillOf(env, sig) && f < FillEnd(env, sig) {
        FillIs(env, sig, f);
      }
      FillInside(env, sig);
      if c.Traded? {
        var p := Resolve(env, sig, FillOf(env, sig));
        ResolveEnds(env, sig, FillOf(env, sig));
        assert TradedAs(env, sig, p) && b'.trades == b.trades + [p];
      }
    }
  }

  lemma FillInside(env: Env, sig: Signal)
    requires sig.mss + 1 < |env.bars|
    ensures FillOf(env, sig) <= FillEnd(env, sig) <= |env.bars|
  {
  }

  // ---------- the breaker ----------

  /** A win or a trip starts the count of losses afresh. */
  predicate Resets(c: Category) {
    c.Traded? && (c.outcome == Win || c.trip)
  }

  /** What a signal does to the streak and the skips owed. */
  ghost predicate BreakerStepped(env: Env, b: Book, sig: Signal)
    requires CutoffAfterFill(env)
  {
    var (b', c) := Step(env, b, sig);
    && b'.losses == (if Resets(c) then 0 else b.losses + if c.Traded? && c.outcome == Loss then 1 else 0)
    && b'.skip == (if Trip(c) then env.cfg.breakerSkip else if c.BreakerSkipped? then b.skip - 1 else b.skip)
    && (c.Traded? ==> b.skip == 0
                      && (c.trip <==> c.outcome == Loss && b.losses + 1 >= env.cfg.breakerThreshold))
    && (sig.mss + 1 < |env.bars| ==> (c.BreakerSkipped? <==> b.skip > 0))
    && (c.BreakerSkipped? ==> b.skip > 0)
  }

  lemma BreakerStep(env: Env, b: Book, sig: Signal)
    requires CutoffAfterFill(env)
    ensures BreakerStepped(env, b, sig)
  {
    hide Resolve, FillOf, FillEnd, Keep;
  }

  /** The signals from index r on are those since the last reset. */
  ghost predicate SinceReset(cs: seq<Category>, r: nat) {
    r <= |cs| && (r > 0 ==> Resets(cs[r - 1])) && forall x :: r <= x < |cs| ==> !Resets(cs[x])
  }

  lemma EmptyRunMeans(env: Env)
    requires CutoffAfterFill(env)
    ensures RunBook(env, EMPTY, []) == (EMPTY, [])
  {
  }

  lemma NextSignal(env: Env, signals: seq<Signal>)
    requires CutoffAfterFill(env) && signals != []
    ensures var (b, cs) := RunBook(env, EMPTY, signals[..|signals| - 1]);
            var (b', c) := Step(env, b, signals[|signals| - 1]);
            RunBook(env, EMPTY, signals) == (b', cs + [c])
  {
    hide Step;
  }

  /** One more signal: the count since the last reset, and what starts it afresh. */
  lemma SinceResetNext(cs: seq<Category>, c: Category, r: nat)
    requires SinceReset(cs, r)
    ensures if Resets(c) then SinceReset(cs + [c], |cs| + 1) && Losses((cs + [c])[|cs| + 1..]) == 0
            else SinceReset(cs + [c], r)
                 && Losses((cs + [c])[r..]) == Losses(cs[r..]) + if c.Traded? && c.outcome == Loss then 1 else 0
  {
    hide Resets;
    CategoriesAppend(cs[r..], c);
    assert (cs + [c])[r..] == cs[r..] + [c] && (cs + [c])[|cs| + 1..] == [];
  }

  /** The streak is the number of losses since the last win or trip. */
  lemma {:induction false} StreakMeans(env: Env, signals: seq<Signal>) returns (r: nat)
    requires CutoffAfterFill(env)
    ensures SinceReset(RunBook(env, EMPTY, signals).1, r)
    ensures RunBook(env, EMPTY, signals).0.losses == Losses(RunBook(env, EMPTY, signals).1[r..])
  {
    hide Step, RunBook, SinceReset, Resets;
    if signals == [] {
      EmptyRunMeans(env);
      r := 0;
      assert SinceReset([], 0) by { NothingSince(); }
    } else {
      var init, sig := signals[..|signals| - 1], signals[|signals| - 1];
      r := StreakMeans(env, init);
      var (b, cs) := RunBook(env, EMPTY, init);
      var c := Step(env, b, sig).1;
      NextSignal(env, signals);
      BreakerStep(env, b, sig);
      SinceResetNext(cs, c, r);
      if Resets(c) { r := |cs| + 1; }
    }
  }

  lemma NothingSince()
    ensures SinceReset([], 0) && SinceTrip([], 0)
  {
  }

  /** A trade trips the breaker exactly if it is a loss that brings the losses since the last win or trip to the
      threshold. */
  lemma TripMeans(env: Env, signals: seq<Signal>, sig: Signal) returns (r: nat)
    requires CutoffAfterFill(env)
    ensures var (b, cs) := RunBook(env, EMPTY, signals);
            var c := Step(env, b, sig).1;
            && SinceReset(cs, r)
            && (c.Traded? ==> (c.trip <==> c.outcome == Loss && Losses(cs[r..]) + 1 >= env.cfg.breakerThreshold))
  {
    hide Step, RunBook;
    r := StreakMeans(env, signals);
    BreakerStep(env, RunBook(env, EMPTY, signals).0, sig);
  }

  predicate Trip(c: Category) {
    c.Traded? && c.trip
  }

  /** The signals from index r on are those since the last trip; r is 0 if there was none. */
  ghost predicate SinceTrip(cs: seq<Category>, r: nat) {
    r <= |cs| && (r > 0 ==> Trip(cs[r - 1])) && forall x :: r <= x < |cs| ==> !Trip(cs[x])
  }

  lemma SinceTripNext(cs: seq<Category>, c: Category, r: nat)
    requires SinceTrip(cs, r)
    ensures if Trip(c) then SinceTrip(cs + [c], |cs| + 1) && Skipped((cs + [c])[|cs| + 1..]) == 0
            else SinceTrip(cs + [c], r)
                 && Skipped((cs + [c])[r..]) == Skipped(cs[r..]) + if c.BreakerSkipped? then 1 else 0
  {
    hide Trip;
    CategoriesAppend(cs[r..], c);
    assert (cs + [c])[r..] == cs[r..] + [c] && (cs + [c])[|cs| + 1..] == [];
  }

  /** The skips owed are those a trip costs less the signals skipped since the last one. */
  lemma {:induction false} OwedMeans(env: Env, signals: seq<Signal>) returns (r: nat)
    requires CutoffAfterFill(env)
    ensures SinceTrip(RunBook(env, EMPTY, signals).1, r)
    ensures RunBook(env, EMPTY, signals).0.skip ==
            if r == 0 then 0 else env.cfg.breakerSkip - Skipped(RunBook(env, EMPTY, signals).1[r..])
  {
    hide Step, RunBook, SinceTrip, Trip;
    if signals == [] {
      EmptyRunMeans(env);
      r := 0;
      assert SinceTrip([], 0) by { NothingSince(); }
    } else {
      var init, sig := signals[..|signals| - 1], signals[|signals| - 1];
      r := OwedMeans(env, init);
      var (b, cs) := RunBook(env, EMPTY, init);
      var c := Step(env, b, sig).1;
      NextSignal(env, signals);
      BreakerStep(env, b, sig);
      SinceTripNext(cs, c, r);
      if Trip(c) { r := |cs| + 1; }
    }
  }

  /** A signal in range is skipped exactly if fewer have been skipped since the last trip than a trip costs. */
  lemma SkipMeans(env: Env, signals: seq<Signal>, sig: Signal) returns (r: nat)
    requires CutoffAfterFill(env) && sig.mss + 1 < |env.bars|
    ensures var (b, cs) := RunBook(env, EMPTY, signals);
            && SinceTrip(cs, r)
            && (Step(env, b, sig).1.BreakerSkipped? <==> r > 0 && Skipped(cs[r..]) < env.cfg.breakerSkip)
  {
    hide Step, RunBook;
    r := OwedMeans(env, signals);
    BreakerStep(env, RunBook(env, EMPTY, signals).0, sig);
  }
}
