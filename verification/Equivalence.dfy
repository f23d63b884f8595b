/** The streaming engine against the batch model: the same trade for every day, and how the two journals relate. */
module Equivalence {
  import opened Market
  import opened FvgModel
  import opened Journal
  import opened BatchModel
  import opened Orchestrator
  import opened PlainDay

  /** Feeds a whole day to the streaming engine and finalizes it. */
  method RunStream(day: seq<Bar>, s: Session)
    returns (trade: Option<Trade>, winner: Option<Key>, log: seq<Event>)
    ensures Verdict(day, s, winner) && trade == TradeFor(day, s, winner)
    ensures log == StreamLog(day, s, |day|) + ScratchEvents(day, s, winner)
  {
    hide Verdict, StreamLog, AttemptAt, SetupAt, TradeFor, ScratchEvents, DayOrchestrator.Valid;
    var engine := new DayOrchestrator(s);
    var idx := 0;
    while idx < |day|
      invariant 0 <= idx <= |day|
      invariant engine.Valid() && engine.day == day[..idx] && engine.s == s
      invariant fresh(engine) && fresh(engine.Repr())
    {
      assert day[..idx] + [day[idx]] == day[..idx + 1];
      engine.OnNewBar(day[idx], idx);
      idx := idx + 1;
    }
    assert day[..idx] == day;
    if day == [] {
      trade, winner := engine.Finalize(0, 0.0);
    } else {
      trade, winner := engine.Finalize(day[|day| - 1].time, day[|day| - 1].close);
    }
    log := engine.log;
  }

  /** For every day and every Kill Zone within it, both engines produce the same trade, or none: the day's trade in
      plain terms. */
  method BothEngines(day: seq<Bar>, s: Session)
    returns (batch: Option<Trade>, stream: Option<Trade>, winner: Option<Key>, batchLog: seq<Event>,
      streamLog: seq<Event>)
    requires 0 <= s.start && s.end <= |day|
    ensures batch == stream && IsDayTrade(day, s, stream)
    ensures Verdict(day, s, winner) && stream == TradeFor(day, s, winner)
    ensures batchLog == BatchLog(day, s, winner)
    ensures streamLog == StreamLog(day, s, |day|) + ScratchEvents(day, s, winner)
  {
    hide Verdict, StreamLog, Keys, Raids, AttemptAt, SetupAt, BatchLog, IsDayTrade;
    var winner';
    batch, winner, batchLog := RunDay(day, s);
    stream, winner', streamLog := RunStream(day, s);
    VerdictUnique(day, s, winner, winner');
    VerdictIsDayTrade(day, s, winner);
  }
}
