/** The streaming engine: every raid starts a watch, every confirmed shift with an accepted gap starts a search, all in
    parallel; the day's trade is the least (raid, shift) among the searches that filled. */
module Orchestrator {
  import opened Market
  import opened FvgModel
  import opened Journal
  import opened Causality
  import opened Detectors
  import opened TradeAttempts

  datatype Candidate = Candidate(raidBar: nat, watch: MssWatch)

  datatype Entry = Entry(key: Key, attempt: TradeAttempt)

  /** One watch per raid, in raid order. */
  ghost predicate CandidatesMatch(candidates: seq<Candidate>, day: seq<Bar>, s: Session, raids: seq<nat>) {
    && |candidates| == |raids|
    && forall k :: 0 <= k < |raids| ==>
      && BothSwings(day, raids[k])
      && candidates[k] == Candidate(raids[k], MssWatch(raids[k], s.side, Reference(day, s.side, raids[k])))
  }

  /** One object per search, each standing where the first |day| bars leave it. */
  ghost predicate AttemptsMatch(attempts: seq<Entry>, day: seq<Bar>, s: Session, keys: seq<Key>)
    reads set e | e in attempts :: e.attempt
  {
    && |attempts| == |keys|
    && (forall k :: 0 <= k < |keys| ==> attempts[k].key == keys[k])
    && (forall k :: 0 <= k < |keys| ==>
      attempts[k].attempt.side == s.side && attempts[k].attempt.Tracks(day, keys[k].mss))
  }

  ghost predicate Distinct(attempts: seq<Entry>) {
    forall x, y :: 0 <= x < y < |attempts| ==> attempts[x].attempt != attempts[y].attempt
  }

  ghost function Objects(attempts: seq<Entry>): set<TradeAttempt> {
    set e | e in attempts :: e.attempt
  }

  function FindTick(w: seq<Tick>, idx: nat): (r: Option<Tick>)
    ensures (exists k :: 0 <= k < |w| && w[k].idx == idx) ==> r.Some?
    ensures r.Some? ==> r.value in w && r.value.idx == idx
  {
    if w == [] then None else if w[0].idx == idx then Some(w[0]) else FindTick(w[1..], idx)
  }

  class DayOrchestrator {
    const s: Session
    const swingDet: IntradaySwingDetector
    const raidDet: RaidDetector
    const fvgDet: FvgDetector
    var candidates: seq<Candidate>
    var attempts: seq<Entry>
    var recent: seq<Tick>
    var log: seq<Event>       // everything handed to the event sink
    ghost var day: seq<Bar>   // the bars fed so far

    /** The objects this engine owns and may change. */
    ghost function Repr(): set<object>
      reads this
    {
      {this, swingDet, raidDet, fvgDet} + set a: object | a in Objects(attempts)
    }

    ghost predicate Valid()
      reads this, Repr()
    {
      && swingDet.Tracks(day)
      && raidDet.Tracks(day)
      && fvgDet.Tracks(day)
      && IsWindow(recent, day, TARGET_LOOKBACK)
      && CandidatesMatch(candidates, day, s, Raids(day, s, |day|))
      && AttemptsMatch(attempts, day, s, Keys(day, s, |day|))
      && Distinct(attempts)
      && log == StreamLog(day, s, |day|)
    }

    constructor (s: Session)
      ensures Valid() && fresh(Repr())
      ensures this.s == s && day == [] && attempts == []
    {
      this.s := s;
      swingDet := new IntradaySwingDetector();
      raidDet := new RaidDetector();
      fvgDet := new FvgDetector();
      candidates, attempts, recent, log, day := [], [], [], [], [];
      new;
      swingDet.StartNewDay();
      raidDet.StartNewDay();
    }

    method OnNewBar(bar: Bar, idx: nat)
      requires Valid() && idx == |day|
      modifies Repr()
      ensures Valid() && day == old(day) + [bar] && old(log) <= log
      ensures fresh(Repr() - old(Repr()))
    {
      hide StreamLog, Keys, Raids, Spawns, AllAttemptEvents, AllWatchEvents, IsRaid, IsMss, Accepted, SetupAt,
           AttemptAt, SwingEvents, RaidEvents, IsWindow, LatestPivot, IsPivot, Reference, RaidLevel,
           TradeAttempt.Tracks, RaidDetector.Tracks, FvgDetector.Tracks, IntradaySwingDetector.Tracks,
           AttemptsMatch, Distinct, CandidatesMatch;
      ghost var day0, day1 := day, day + [bar];
      ghost var raids, keys := Raids(day0, s, idx), Keys(day0, s, idx);
      RaidsCausal(day0, day1, idx, s);
      KeysCausal(day0, day1, idx, s);
      StreamLogCausal(day0, day1, idx, s);

      PushWindow(recent, day0, bar, TARGET_LOOKBACK);
      recent := Push(recent, Tick(idx, bar.time, bar.high, bar.low), TARGET_LOOKBACK);
      var swingEvents := swingDet.OnNewBar(bar, day0);
      log := log + swingEvents;
      fvgDet.OnNewBar(idx, bar, day0);

      FeedAttempts(bar, idx, keys);
      day := day1;
      CandidatesCausal(candidates, day0, bar, s, raids);
      FeedWatches(bar, idx, raids, keys);

      DetectRaid(bar, idx, swingEvents, day0, raids);
      StepUnfold(day1, s, idx);
    }

    /** Raid detection, inside the Kill Zone only: every raid starts its own watch. */
    method DetectRaid(bar: Bar, idx: nat, swingEvents: seq<Event>, ghost day0: seq<Bar>, ghost raids: seq<nat>)
      requires idx == |day0| && day == day0 + [bar] && swingEvents == SwingEvents(day, idx)
      requires raidDet.Tracks(day0) && CandidatesMatch(candidates, day, s, raids)
      modifies this`log, this`candidates, raidDet
      ensures raidDet.Tracks(day) && log == old(log) + RaidEvents(day, s, idx)
      ensures CandidatesMatch(candidates, day, s, if IsRaid(day, s, idx) then raids + [idx] else raids)
    {
      hide IsRaid, SwingEvents, RaidEvents, LatestPivot, Reference, RaidLevel, RaidDetector.Tracks, CandidatesMatch;
      var inKillZone := s.start <= idx < s.end;
      var raidEvents := raidDet.OnNewBar(bar, idx, s.side, inKillZone, swingEvents, day0, s);
      log := log + raidEvents;
      RaidEventShape(day, s, idx);
      if |raidEvents| > 0 {
        var e := raidEvents[0];
        CandidatesExtend(candidates, day, s, raids, idx);
        candidates := candidates + [Candidate(e.bar, MssWatch(e.bar, e.side, e.reference.value))];
      }
    }

    /** Feeds the bar to every live search; searches that have ended stay as they are. */
    method FeedAttempts(bar: Bar, idx: nat, ghost keys: seq<Key>)
      requires idx == |day|
      requires AttemptsMatch(attempts, day, s, keys) && Distinct(attempts)
      modifies this`log, Objects(attempts)
      ensures AttemptsMatch(attempts, day + [bar], s, keys)
      ensures log == old(log) + AllAttemptEvents(day + [bar], s, keys, idx)
    {
      hide Keys, IsRaid, IsMss, AttemptEvents, AttemptAt, SetupAt, TradeAttempt.Tracks;
      ghost var day' := day + [bar];
      var k := 0;
      while k < |attempts|
        invariant 0 <= k <= |attempts|
        invariant forall x :: 0 <= x < k ==> attempts[x].attempt.Tracks(day', keys[x].mss)
        invariant forall x :: k <= x < |attempts| ==> attempts[x].attempt.Tracks(day, keys[x].mss)
        invariant log == old(log) + AllAttemptEvents(day', s, keys[..k], idx)
      {
        assert attempts[k].attempt in Objects(attempts);
        assert keys[..k + 1][..k] == keys[..k];
        var events := FeedAttempt(attempts[k].attempt, bar, idx, keys[k].mss);
        log := log + events;
        k := k + 1;
      }
      assert keys[..k] == keys;
    }

    method FeedAttempt(a: TradeAttempt, bar: Bar, idx: nat, ghost j: nat) returns (events: seq<Event>)
      requires a.Tracks(day, j) && idx == |day|
      modifies a
      ensures a.Tracks(day + [bar], j)
      ensures events == AttemptEvents(day + [bar], a.side, j, idx)
    {
      hide AttemptEvents, AttemptAt, SetupAt, TradeAttempt.Tracks;
      if a.IsActive() {
        events := a.OnNewBar(bar, idx, day, j);
      } else {
        Inactive(a, bar, j);
        events := [];
      }
    }

    /** A search that has ended neither changes nor emits anything. */
    lemma Inactive(a: TradeAttempt, bar: Bar, j: nat)
      requires a.Tracks(day, j) && !a.IsActive()
      ensures a.Tracks(day + [bar], j)
      ensures AttemptEvents(day + [bar], a.side, j, |day|) == []
    {
      hide AttemptAt, SetupAt, FirstTouch, FirstExit, Target, Accepted;
      AttemptCausal(day, day + [bar], |day|, a.side, j);
      AttemptStep(day + [bar], a.side, j, |day|);
    }

    /** Feeds the bar to every watch and starts a search for each shift backed by an accepted gap. */
    method FeedWatches(bar: Bar, idx: nat, ghost raids: seq<nat>, ghost keys: seq<Key>)
      requires |day| == idx + 1 && day[idx] == bar && raids == Raids(day, s, idx)
      requires CandidatesMatch(candidates, day, s, raids)
      requires fvgDet.Tracks(day) && IsWindow(recent, day, TARGET_LOOKBACK)
      requires AttemptsMatch(attempts, day, s, keys) && Distinct(attempts)
      modifies this`log, this`attempts
      ensures AttemptsMatch(attempts, day, s, keys + Spawns(day, s, raids, idx)) && Distinct(attempts)
      ensures log == old(log) + AllWatchEvents(day, s, raids, idx)
      ensures fresh(Objects(attempts) - old(Objects(attempts)))
    {
      hide Raids, IsRaid, IsMss, Accepted, WatchEvents, AttemptAt, SetupAt, LatestPivot, IsWindow, Reference,
           TradeAttempt.Tracks, AttemptsMatch, Distinct, Spawns, AllWatchEvents;
      var k := 0;
      FeedStart(day, s, raids, idx, keys);
      while k < |candidates|
        invariant 0 <= k <= |candidates|
        invariant AttemptsMatch(attempts, day, s, keys + Spawns(day, s, raids[..k], idx)) && Distinct(attempts)
        invariant log == old(log) + AllWatchEvents(day, s, raids[..k], idx)
        invariant fresh(Objects(attempts) - old(Objects(attempts)))
      {
        var c := candidates[k];
        ghost var sofar := keys + Spawns(day, s, raids[..k], idx);
        assert raids[k] in raids;
        FeedStep(day, s, raids, k, idx, keys);
        var spawned, events := FeedWatch(c, bar, idx);
        log := log + events;
        if spawned.Some? {
          var e := Entry(Key(c.raidBar, idx), spawned.value);
          AttemptsExtend(attempts, day, s, sofar, e);
          attempts := attempts + [e];
        }
        k := k + 1;
      }
      assert raids[..k] == raids;
    }

    method FeedWatch(c: Candidate, bar: Bar, idx: nat) returns (spawned: Option<TradeAttempt>, events: seq<Event>)
      requires |day| == idx + 1 && day[idx] == bar && BothSwings(day, c.raidBar) && c.raidBar < idx
      requires c.watch == MssWatch(c.raidBar, s.side, Reference(day, s.side, c.raidBar))
      requires fvgDet.Tracks(day) && IsWindow(recent, day, TARGET_LOOKBACK)
      ensures events == WatchEvents(day, s, c.raidBar, idx)
      ensures spawned.Some? <==> IsMss(day, s.side, c.raidBar, idx) && Accepted(day, s.side, idx)
      ensures spawned.Some? ==>
        fresh(spawned.value) && spawned.value.side == s.side && spawned.value.Tracks(day, idx)
    {
      hide LatestPivot, IsPivot, AttemptAt;
      spawned, events := None, [];
      if c.watch.IsExpired(idx) {
        return;
      }
      var shifts := c.watch.OnNewBar(bar, idx);
      if |shifts| == 0 {
        return;
      }
      events := shifts;
      var fvg := fvgDet.CheckFvg(bar.time, shifts[0].side, day);
      if fvg.None? {
        return;
      }
      events := events + [fvg.value];
      var e := fvg.value;
      var entry := (e.top + e.bottom) / 2.0;
      assert recent[|recent| - 3] == TickOf(day, idx - 2);
      var frame := FindTick(recent, e.frame);
      var stop := if s.side == Long then frame.value.low else frame.value.high;
      var attempt := new TradeAttempt(s.side, entry, stop, idx, recent, day);
      if attempt.status == RejectedMinStop {
        events := events + [MinStopRejected(bar.time, s.side, attempt.riskPips)];
      } else {
        spawned := Some(attempt);
        events := events + [CandidateReady(bar.time, s.side, entry, stop, c.raidBar, idx)];
      }
    }

    /** The day's trade: the least key among the searches that filled, scratched if still open. */
    method Finalize(lastTime: int, finalClose: real) returns (trade: Option<Trade>, winner: Option<Key>)
      requires Valid()
      requires day != [] ==> lastTime == day[|day| - 1].time && finalClose == day[|day| - 1].close
      modifies Repr()
      ensures day == old(day) && old(log) <= log && Repr() == old(Repr())
      ensures Verdict(day, s, winner) && trade == TradeFor(day, s, winner)
      ensures log == StreamLog(day, s, |day|) + ScratchEvents(day, s, winner)
    {
      hide StreamLog, Keys, Raids, IsRaid, IsMss, Accepted, SetupAt, AttemptAt, LatestPivot, IsWindow, Verdict, TradeOf,
           RaidDetector.Tracks, FvgDetector.Tracks, IntradaySwingDetector.Tracks, CandidatesMatch, Distinct;
      ghost var keys := Keys(day, s, |day|);
      var best := LeastFilled();
      BestIsVerdict(best);
      if best.None? {
        trade, winner := None, None;
        return;
      }
      winner := Some(attempts[best.value].key);
      var w := attempts[best.value].attempt;
      assert w in Objects(attempts);
      assert keys[best.value] in keys;
      ShownTrade(w, keys[best.value].mss);
      if w.status == Filled {
        var scratch := w.CloseAsScratch(lastTime, finalClose);
        log := log + scratch;
      }
      trade := Some(Trade(w.side, w.entry, w.stop, w.target.value, w.riskPips, w.outcome.value, w.exitPrice.value));
    }

    /** The index of the filled search with the least key, or None when none has filled. */
    method LeastFilled() returns (best: Option<nat>)
      ensures best.Some? ==> best.value < |attempts| && IsFilled(attempts[best.value].attempt)
      ensures best.Some? ==> forall x :: 0 <= x < |attempts| && IsFilled(attempts[x].attempt) ==>
        LexLe(attempts[best.value].key, attempts[x].key)
      ensures best.None? ==> forall x :: 0 <= x < |attempts| ==> !IsFilled(attempts[x].attempt)
    {
      best := None;
      var k := 0;
      while k < |attempts|
        invariant 0 <= k <= |attempts|
        invariant best.Some? ==> best.value < k && IsFilled(attempts[best.value].attempt)
        invariant best.Some? ==> forall x :: 0 <= x < k && IsFilled(attempts[x].attempt) ==>
          LexLe(attempts[best.value].key, attempts[x].key)
        invariant best.None? ==> forall x :: 0 <= x < k ==> !IsFilled(attempts[x].attempt)
      {
        if IsFilled(attempts[k].attempt) {
          if best.None? || !LexLe(attempts[best.value].key, attempts[k].key) {
            best := Some(k);
          }
        }
        k := k + 1;
      }
    }

    predicate IsFilled(a: TradeAttempt)
      reads a
    {
      a.status == Done || a.status == Filled
    }

    /** The least filled key among all searches is the day's winner. */
    lemma BestIsVerdict(best: Option<nat>)
      requires Valid()
      requires best.Some? ==> best.value < |attempts| && IsFilled(attempts[best.value].attempt)
      requires best.Some? ==> forall x :: 0 <= x < |attempts| && IsFilled(attempts[x].attempt) ==>
        LexLe(attempts[best.value].key, attempts[x].key)
      requires best.None? ==> forall x :: 0 <= x < |attempts| ==> !IsFilled(attempts[x].attempt)
      ensures Verdict(day, s, if best.None? then None else Some(attempts[best.value].key))
    {
      hide StreamLog, Raids, Keys, AttemptAt, SetupAt, IsRaid, IsMss, LatestPivot;
      var keys := Keys(day, s, |day|);
      if best.Some? {
        assert keys[best.value] in keys;
      }
      forall i: nat, j: nat | Fills(day, s, i, j)
        ensures exists x :: 0 <= x < |attempts| && attempts[x].key == Key(i, j) && IsFilled(attempts[x].attempt)
      {
        assert Key(i, j) in keys;
        var x :| 0 <= x < |keys| && keys[x] == Key(i, j);
        assert attempts[x].attempt.Tracks(day, keys[x].mss);
      }
    }

    /** The fields of a filled search spell out its trade. */
    lemma ShownTrade(w: TradeAttempt, j: nat)
      requires w.Tracks(day, j) && w.side == s.side && IsFilled(w)
      ensures var t := TradeOf(day, s.side, j);
              && t.side == w.side && t.entry == w.entry && t.stop == w.stop && t.riskPips == w.riskPips
              && Some(t.target) == w.target
              && (w.status == Filled ==> t.outcome == Scratch && t.exitPrice == day[|day| - 1].close)
              && (w.status == Done ==> Some(t.outcome) == w.outcome && Some(t.exitPrice) == w.exitPrice)
      ensures AttemptAt(day, s.side, j, |day|).Open? <==> w.status == Filled
    {
    }
  }

  lemma FeedStart(day: seq<Bar>, s: Session, raids: seq<nat>, b: nat, keys: seq<Key>)
    requires b < |day|
    ensures keys + Spawns(day, s, raids[..0], b) == keys && AllWatchEvents(day, s, raids[..0], b) == []
  {
  }

  lemma FeedStep(day: seq<Bar>, s: Session, raids: seq<nat>, k: nat, b: nat, keys: seq<Key>)
    requires b < |day| && k < |raids|
    ensures keys + Spawns(day, s, raids[..k + 1], b) ==
            if IsMss(day, s.side, raids[k], b) && Accepted(day, s.side, b)
            then keys + Spawns(day, s, raids[..k], b) + [Key(raids[k], b)]
            else keys + Spawns(day, s, raids[..k], b)
    ensures AllWatchEvents(day, s, raids[..k + 1], b) ==
            AllWatchEvents(day, s, raids[..k], b) + WatchEvents(day, s, raids[k], b)
  {
    hide IsMss, Accepted, WatchEvents;
    assert raids[..k + 1][..k] == raids[..k];
  }

  lemma AttemptsExtend(attempts: seq<Entry>, day: seq<Bar>, s: Session, keys: seq<Key>, e: Entry)
    requires AttemptsMatch(attempts, day, s, keys) && Distinct(attempts) && e.attempt !in Objects(attempts)
    requires e.attempt.side == s.side && e.attempt.Tracks(day, e.key.mss)
    ensures AttemptsMatch(attempts + [e], day, s, keys + [e.key]) && Distinct(attempts + [e])
  {
    hide TradeAttempt.Tracks;
    var attempts', keys' := attempts + [e], keys + [e.key];
    forall x, y | 0 <= x < y < |attempts'| ensures attempts'[x].attempt != attempts'[y].attempt {
      if y == |attempts| { assert attempts[x].attempt in Objects(attempts); }
    }
  }

  lemma CandidatesCausal(candidates: seq<Candidate>, day: seq<Bar>, bar: Bar, s: Session, raids: seq<nat>)
    requires CandidatesMatch(candidates, day, s, raids) && forall i :: i in raids ==> i < |day|
    ensures CandidatesMatch(candidates, day + [bar], s, raids)
  {
    forall k | 0 <= k < |raids|
      ensures BothSwings(day + [bar], raids[k]) &&
              Reference(day + [bar], s.side, raids[k]) == Reference(day, s.side, raids[k])
    {
      assert raids[k] in raids;
      RaidCausal(day, day + [bar], |day|, s, raids[k]);
    }
  }

  lemma CandidatesExtend(candidates: seq<Candidate>, day: seq<Bar>, s: Session, raids: seq<nat>, b: nat)
    requires CandidatesMatch(candidates, day, s, raids) && BothSwings(day, b)
    ensures var c := Candidate(b, MssWatch(b, s.side, Reference(day, s.side, b)));
            CandidatesMatch(candidates + [c], day, s, raids + [b])
  {
    hide LatestPivot, Reference;
  }

  lemma RaidEventShape(day: seq<Bar>, s: Session, b: nat)
    requires b < |day|
    ensures var events := RaidEvents(day, s, b);
            if IsRaid(day, s, b)
            then |events| == 1 && events[0].Raid? && events[0].bar == b && events[0].side == s.side &&
                 BothSwings(day, b) && events[0].reference == Some(Reference(day, s.side, b))
            else events == []
  {
  }

  lemma StepUnfold(day: seq<Bar>, s: Session, b: nat)
    requires b < |day|
    ensures Raids(day, s, b + 1) == if IsRaid(day, s, b) then Raids(day, s, b) + [b] else Raids(day, s, b)
    ensures Keys(day, s, b + 1) == Keys(day, s, b) + Spawns(day, s, Raids(day, s, b), b)
    ensures StreamLog(day, s, b + 1) ==
            StreamLog(day, s, b) + SwingEvents(day, b) + AllAttemptEvents(day, s, Keys(day, s, b), b) +
            AllWatchEvents(day, s, Raids(day, s, b), b) + RaidEvents(day, s, b)
  {
    hide IsRaid, IsMss, Accepted, SwingEvents, RaidEvents, AllAttemptEvents, AllWatchEvents, Spawns;
  }
}
