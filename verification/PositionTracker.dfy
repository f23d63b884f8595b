/** The position tracker: one partial close at the entry day's 17:00, then the final close whenever it comes, under
    failing bridge calls, failing database commits and restarts.  A bridge error means that nothing was executed. */
module PositionTracking {
  import opened Market
  import opened PositionBooks

  datatype HistoryAnswer = NoAnswer | Lagging | Current

  /** What happens around one ticket during a poll: the broker's move before its turn, which way a tie is rounded,
      whether the partial close is accepted, what the history answers and whether the database commits. */
  datatype Visit = Visit(before: Move, tieUp: bool, accepts: bool, history: HistoryAnswer, commits: bool)

  datatype Outcome =
    | Kept
    | HalfInvalid
    | CloseRefused
    | ClosedInPart(recorded: bool)
    | HistoryFailed
    | StillOpen
    | WriteFailed
    | Resolved

  predicate ValidHalf(volume: real, tieUp: bool) {
    0.0 < Half(volume, tieUp) < volume
  }

  // ---------- one ticket's turn ----------

  /** A ticket that the listing does not show. */
  function VanishedOutcome(v: Visit): Outcome {
    if v.history.NoAnswer? then HistoryFailed
    else if v.history.Lagging? then StillOpen
    else if !v.commits then WriteFailed
    else Resolved
  }

  /** What comes of a ticket's turn, given the volume that the listing showed. */
  function TurnOutcome(b: Book, t: int, listed: Option<real>, now: int, v: Visit): Outcome
    requires t in b.tracked
  {
    if listed.None? then VanishedOutcome(v)
    else if !Due(b.tracked[t], now) then Kept
    else if !ValidHalf(listed.value, v.tieUp) then HalfInvalid
    else if !v.accepts || t !in b.volumes then CloseRefused
    else ClosedInPart(v.commits)
  }

  /** The book after it: only a partial close at the broker and a write of the table change anything. */
  function TurnBook(b: Book, t: int, listed: Option<real>, now: int, v: Visit): Book
    requires Follows(b, t) && (listed.None? ==> t in b.closes)
  {
    match TurnOutcome(b, t, listed, now, v)
    case ClosedInPart(recorded) => PartialDone(b, t, Half(listed.value, v.tieUp), now, recorded)
    case WriteFailed => FinalDone(b, t, false)
    case Resolved => FinalDone(b, t, true)
    case _ => b
  }

  predicate Listed(b: Book, t: int, listed: Option<real>) {
    && (listed.None? ==> t in b.closes)
    && (listed.Some? && t in b.volumes ==> b.volumes[t] == listed.value)
  }

  lemma TurnKeeps(b: Book, t: int, listed: Option<real>, now: int, v: Visit)
    requires Inv(b) && t in b.tracked && Listed(b, t, listed)
    ensures Follows(b, t) && Inv(TurnBook(b, t, listed, now, v))
    ensures Advances(b.rows, TurnBook(b, t, listed, now, v).rows)
  {
    hide Inv, Advances, ValidHalf, Half;
    FollowsTracked(b, t);
    SameRows(b.rows);
    match TurnOutcome(b, t, listed, now, v)
    case ClosedInPart(recorded) => PartialIsValid(b, t, listed.value, now, v, recorded);
    case WriteFailed => FinalKeeps(b, t, false);
    case Resolved => FinalKeeps(b, t, true);
    case _ =>
  }

  lemma FollowsTracked(b: Book, t: int)
    requires Inv(b) && t in b.tracked
    ensures Follows(b, t)
  {
  }

  lemma PartialIsValid(b: Book, t: int, volume: real, now: int, v: Visit, recorded: bool)
    requires Inv(b) && t in b.tracked && Due(b.tracked[t], now) && t in b.volumes && b.volumes[t] == volume
    requires ValidHalf(volume, v.tieUp)
    ensures Follows(b, t) && Inv(PartialDone(b, t, Half(volume, v.tieUp), now, recorded))
    ensures Advances(b.rows, PartialDone(b, t, Half(volume, v.tieUp), now, recorded).rows)
  {
    hide Inv, Advances;
    PartialKeeps(b, t, Half(volume, v.tieUp), now, recorded);
  }

  // ---------- what a poll promises ----------

  /** A position that ends while the poll is under way. */
  ghost predicate EndsDuring(b: Book, visit: int -> Visit, t: int) {
    exists u :: u in b.tracked && t in visit(u).before.ends
  }

  /** What a poll that starts in b and ends in b' has done about ticket t: its memory, its row, and how often and by how
      much the broker closed it in part. */
  ghost predicate OutcomeFits(b: Book, b': Book, t: int, now: int, visit: int -> Visit, o: Outcome) {
    t in b.tracked && b.tracked[t].tradeId in b.rows && b.tracked[t].tradeId in b'.rows &&
    var info, v, a := b.tracked[t], visit(t), b.tracked[t].tradeId;
    && Executions(b'.executed, t) == Executions(b.executed, t) + (if o.ClosedInPart? then 1 else 0)
    && (t in b.volumes && !EndsDuring(b, visit, t) ==>
          && t in b'.volumes
          && b'.volumes[t] == b.volumes[t] - (if o.ClosedInPart? then Half(b.volumes[t], v.tieUp) else 0.0))
    && if t !in b.volumes then
         && t in b.closes && o == VanishedOutcome(v)
         && b'.rows[a] == (if o.Resolved? then b.rows[a].(status := Closed, close := Some(b.closes[t])) else b.rows[a])
         && if o.Resolved? then t !in b'.tracked else t in b'.tracked && b'.tracked[t] == info
       else if !Due(info, now) then
         o == Kept && t in b'.tracked && b'.tracked[t] == info && b'.rows[a] == b.rows[a]
       else
         && (o == HalfInvalid <==> !ValidHalf(b.volumes[t], v.tieUp))
         && (ValidHalf(b.volumes[t], v.tieUp) ==> o == CloseRefused || (v.accepts && o == ClosedInPart(v.commits)))
         && (o == CloseRefused ==> !v.accepts || EndsDuring(b, visit, t))
         && t in b'.tracked && b'.tracked[t] == info.(partialClosed := o.ClosedInPart?)
         && b'.rows[a] == if o == ClosedInPart(true) then PartialRow(b.rows[a], Half(b.volumes[t], v.tieUp))
                          else b.rows[a]
  }

  /** What a whole poll from b to b' has done, given what came of each ticket. */
  ghost predicate PollFits(b: Book, b': Book, now: int, visit: int -> Visit, outcomes: map<int, Outcome>) {
    && outcomes.Keys == b.tracked.Keys
    && (forall t :: t in outcomes ==> OutcomeFits(b, b', t, now, visit, outcomes[t]))
    && Untouched(b, b', now)
  }

  /** The rest is left alone: nothing new is followed, rows of other tickets stay and those are not closed in part. */
  ghost predicate Untouched(b: Book, b': Book, now: int) {
    && b'.tracked.Keys <= b.tracked.Keys && b'.rows.Keys == b.rows.Keys && b.executed <= b'.executed
    && (forall a :: a in b.rows && b.rows[a].ticket !in b.tracked ==> b'.rows[a] == b.rows[a])
    && (forall t :: t !in b.tracked ==> Executions(b'.executed, t) == Executions(b.executed, t))
    && (forall i :: |b.executed| <= i < |b'.executed| ==> b'.executed[i].time == now)
  }

  // ---------- the proof of it, turn by turn ----------

  /** Ticket t has not had its turn: all is as at the start of the poll but for the broker's moves. */
  ghost predicate Standing(b0: Book, b: Book, visit: int -> Visit, t: int) {
    && t in b0.tracked && t in b.tracked && b.tracked[t] == b0.tracked[t]
    && SameRow(b0.rows, b.rows, b0.tracked[t].tradeId)
    && Executions(b.executed, t) == Executions(b0.executed, t)
    && (t in b.volumes ==> t in b0.volumes && b.volumes[t] == b0.volumes[t])
    && (t !in b0.volumes ==> t in b0.closes && t in b.closes && b.closes[t] == b0.closes[t])
    && (t in b0.volumes && t !in b.volumes ==> EndsDuring(b0, visit, t))
  }

  predicate SameRow(rows: map<int, TradeRow>, rows': map<int, TradeRow>, a: int) {
    a in rows && a in rows' && rows'[a] == rows[a]
  }

  /** The poll stands before the tickets in `left`. */
  ghost predicate Polled(b0: Book, b: Book, left: set<int>, now: int, visit: int -> Visit,
                         outcomes: map<int, Outcome>)
  {
    && left <= b0.tracked.Keys && outcomes.Keys == b0.tracked.Keys - left
    && (forall t :: t in left ==> Standing(b0, b, visit, t))
    && (forall t :: t in outcomes ==> OutcomeFits(b0, b, t, now, visit, outcomes[t]))
    && Untouched(b0, b, now)
  }

  /** A step from b to b' leaves ticket t, followed at first, alone but for an end of its position. */
  ghost predicate LeavesAlone(b0: Book, b: Book, b': Book, visit: int -> Visit, t: int) {
    && (t in b'.tracked <==> t in b.tracked) && (t in b.tracked ==> b'.tracked[t] == b.tracked[t])
    && (t in b0.tracked ==>
          var a := b0.tracked[t].tradeId;
          (a in b'.rows <==> a in b.rows) && (a in b.rows ==> b'.rows[a] == b.rows[a]))
    && Executions(b'.executed, t) == Executions(b.executed, t)
    && (t in b.volumes ==> (t in b'.volumes && b'.volumes[t] == b.volumes[t]) || EndsDuring(b0, visit, t))
    && (t in b'.volumes && t !in b.volumes ==> t !in b.closes)
    && (t in b'.volumes && t in b.volumes ==> b'.volumes[t] == b.volumes[t])
    && (t in b.closes ==> t in b'.closes && b'.closes[t] == b.closes[t])
  }

  lemma StillStands(b0: Book, b: Book, b': Book, visit: int -> Visit, t: int)
    requires Standing(b0, b, visit, t) && LeavesAlone(b0, b, b', visit, t) && Inv(b)
    ensures Standing(b0, b', visit, t)
  {
    hide Executions, EndsDuring;
    BrokerApart(b);
  }

  lemma StillFits(b0: Book, b: Book, b': Book, t: int, now: int, visit: int -> Visit, o: Outcome)
    requires OutcomeFits(b0, b, t, now, visit, o) && LeavesAlone(b0, b, b', visit, t)
    ensures OutcomeFits(b0, b', t, now, visit, o)
  {
    hide Executions, EndsDuring, ValidHalf, Half;
  }

  lemma PolledStart(b: Book, now: int, visit: int -> Visit)
    requires Inv(b)
    ensures Polled(b, b, b.tracked.Keys, now, visit, map[])
  {
    hide Executions;
    BrokerApart(b);
    forall t | t in b.tracked ensures Standing(b, b, visit, t) {
      FollowsTracked(b, t);
    }
  }

  /** The broker's move before a ticket's turn. */
  lemma PolledMove(b0: Book, b: Book, left: set<int>, now: int, visit: int -> Visit, outcomes: map<int, Outcome>,
                   u: int)
    requires Polled(b0, b, left, now, visit, outcomes) && u in left && Inv(b)
    ensures Inv(Moved(b, visit(u).before)) && Polled(b0, Moved(b, visit(u).before), left, now, visit, outcomes)
  {
    hide OutcomeFits, Standing, Inv, Executions;
    var b' := Moved(b, visit(u).before);
    BrokerMoveKeeps(b, visit(u).before);
    BrokerApart(b);
    forall t | t in b0.tracked ensures LeavesAlone(b0, b, b', visit, t) {
    }
    forall t | t in left ensures Standing(b0, b', visit, t) {
      StillStands(b0, b, b', visit, t);
    }
    forall t | t in outcomes ensures OutcomeFits(b0, b', t, now, visit, outcomes[t]) {
      StillFits(b0, b, b', t, now, visit, outcomes[t]);
    }
  }

  /** One turn concerns its own ticket alone. */
  lemma TurnElsewhere(b: Book, t: int, listed: Option<real>, now: int, v: Visit, s: int)
    requires Inv(b) && t in b.tracked && Listed(b, t, listed) && s != t
    ensures var b' := TurnBook(b, t, listed, now, v);
            && (s in b'.tracked <==> s in b.tracked) && (s in b.tracked ==> b'.tracked[s] == b.tracked[s])
            && Executions(b'.executed, s) == Executions(b.executed, s)
            && (s in b'.volumes <==> s in b.volumes) && (s in b.volumes ==> b'.volumes[s] == b.volumes[s])
  {
    hide Executions, Inv, Half;
    FollowsTracked(b, t);
    match TurnOutcome(b, t, listed, now, v)
    case ClosedInPart(recorded) =>
      ExecutionsAppend(b.executed, Execution(t, now, Half(listed.value, v.tieUp), b.volumes[t]), s);
    case _ =>
  }

  /** The rows of other tickets stay; executions are only added, at this time. */
  lemma TurnRows(b: Book, t: int, listed: Option<real>, now: int, v: Visit)
    requires Inv(b) && t in b.tracked && Listed(b, t, listed)
    ensures var b' := TurnBook(b, t, listed, now, v);
            && b'.rows.Keys == b.rows.Keys && b'.closes == b.closes && b.executed <= b'.executed
            && (forall a :: a in b.rows && b.rows[a].ticket != t ==> b'.rows[a] == b.rows[a])
            && (forall i :: |b.executed| <= i < |b'.executed| ==> b'.executed[i].time == now)
  {
    hide Inv, Half;
    FollowsTracked(b, t);
  }

  lemma TurnLeavesAlone(b0: Book, b: Book, t: int, listed: Option<real>, now: int, v: Visit, visit: int -> Visit,
                        s: int)
    requires Inv(b0) && Inv(b) && Advances(b0.rows, b.rows)
    requires t in b.tracked && Listed(b, t, listed) && s != t && s in b0.tracked
    ensures LeavesAlone(b0, b, TurnBook(b, t, listed, now, v), visit, s)
  {
    hide Inv, Executions, TurnBook, EndsDuring;
    TurnElsewhere(b, t, listed, now, v, s);
    TurnRows(b, t, listed, now, v);
    FollowsTracked(b0, s);
    assert b.rows[b0.tracked[s].tradeId].ticket == s;
  }

  /** A turn's own ticket. */
  lemma OwnTurn(b0: Book, b: Book, t: int, listed: Option<real>, now: int, visit: int -> Visit)
    requires Standing(b0, b, visit, t) && Inv(b) && Listed(b, t, listed)
    requires listed == if t in b0.volumes then Some(b0.volumes[t]) else None
    ensures OutcomeFits(b0, TurnBook(b, t, listed, now, visit(t)), t, now, visit,
                        TurnOutcome(b, t, listed, now, visit(t)))
  {
    hide Executions, Inv, EndsDuring, ValidHalf, Half;
    FollowsTracked(b, t);
    match TurnOutcome(b, t, listed, now, visit(t))
    case ClosedInPart(recorded) =>
      ExecutionsAppend(b.executed, Execution(t, now, Half(listed.value, visit(t).tieUp), b.volumes[t]), t);
    case _ =>
  }

  lemma ListedNow(b0: Book, b: Book, left: set<int>, now: int, visit: int -> Visit, outcomes: map<int, Outcome>, t: int,
                  listed: Option<real>)
    requires Polled(b0, b, left, now, visit, outcomes) && t in left
    requires listed == if t in b0.volumes then Some(b0.volumes[t]) else None
    ensures t in b.tracked && Listed(b, t, listed)
  {
    assert Standing(b0, b, visit, t);
  }

  lemma PolledTurn(b0: Book, b: Book, left: set<int>, now: int, visit: int -> Visit, outcomes: map<int, Outcome>,
                   t: int, listed: Option<real>)
    requires Polled(b0, b, left, now, visit, outcomes) && t in left && t in b.tracked && Listed(b, t, listed)
    requires listed == if t in b0.volumes then Some(b0.volumes[t]) else None
    requires Inv(b0) && Inv(b) && Advances(b0.rows, b.rows)
    ensures Follows(b, t)
    ensures Polled(b0, TurnBook(b, t, listed, now, visit(t)), left - {t}, now, visit,
                   outcomes[t := TurnOutcome(b, t, listed, now, visit(t))])
  {
    hide OutcomeFits, Inv, Standing, LeavesAlone, Executions, TurnBook, Advances, EndsDuring, Untouched, TurnOutcome;
    FollowsTracked(b, t);
    var b', o := TurnBook(b, t, listed, now, visit(t)), TurnOutcome(b, t, listed, now, visit(t));
    OwnTurn(b0, b, t, listed, now, visit);
    forall s | s in left - {t} ensures Standing(b0, b', visit, s) {
      TurnLeavesAlone(b0, b, t, listed, now, visit(t), visit, s);
      StillStands(b0, b, b', visit, s);
    }
    forall s | s in outcomes ensures OutcomeFits(b0, b', s, now, visit, outcomes[s]) {
      TurnLeavesAlone(b0, b, t, listed, now, visit(t), visit, s);
      StillFits(b0, b, b', s, now, visit, outcomes[s]);
    }
    var outcomes' := outcomes[t := o];
    assert outcomes'.Keys == b0.tracked.Keys - (left - {t});
    StillUntouched(b0, b, t, listed, now, visit(t));
  }

  lemma StillUntouched(b0: Book, b: Book, t: int, listed: Option<real>, now: int, v: Visit)
    requires Untouched(b0, b, now) && Inv(b0) && Inv(b) && Advances(b0.rows, b.rows)
    requires t in b0.tracked && t in b.tracked && Listed(b, t, listed)
    ensures Follows(b, t) && Untouched(b0, TurnBook(b, t, listed, now, v), now)
  {
    hide Inv, Executions, TurnBook;
    FollowsTracked(b, t);
    TurnRows(b, t, listed, now, v);
    var b' := TurnBook(b, t, listed, now, v);
    forall s | s in b'.tracked ensures s in b0.tracked {
      if s != t { TurnElsewhere(b, t, listed, now, v, s); }
    }
    forall s | s !in b0.tracked ensures Executions(b'.executed, s) == Executions(b0.executed, s) {
      TurnElsewhere(b, t, listed, now, v, s);
    }
  }

  lemma Inhabited(s: set<int>)
    requires s != {}
    ensures exists x :: x in s
  {
    assert (forall x: int :: x !in s) ==> s == {};
  }

  // ---------- the broker, the table and the tracker ----------

  class PositionBroker {
    var volumes: map<int, real>
    var closes: map<int, Close>
    var executed: seq<Execution>

    constructor (volumes: map<int, real>)
      ensures this.volumes == volumes && closes == map[] && executed == []
    {
      this.volumes, closes, executed := volumes, map[], [];
    }

    method Environment(m: Move)
      modifies this`volumes, this`closes
      ensures volumes == VolumesAfter(old(volumes), old(closes), m)
      ensures closes == ClosesAfter(old(volumes), old(closes), m)
    {
      volumes, closes := VolumesAfter(volumes, closes, m), ClosesAfter(volumes, closes, m);
    }

    /** An error means that nothing was executed. */
    method ClosePartial(t: int, half: real, now: int, accepts: bool) returns (ok: bool)
      modifies this`volumes, this`executed
      ensures ok <==> accepts && t in old(volumes) && half < old(volumes)[t]
      ensures !ok ==> volumes == old(volumes) && executed == old(executed)
      ensures ok ==> volumes == old(volumes)[t := old(volumes)[t] - half]
                     && executed == old(executed) + [Execution(t, now, half, old(volumes)[t])]
    {
      ok := accepts && t in volumes && half < volumes[t];
      if ok {
        executed := executed + [Execution(t, now, half, volumes[t])];
        volumes := volumes[t := volumes[t] - half];
      }
    }

    /** The record of an ended position, unless the call fails or the history lags behind. */
    method GetHistory(t: int, answer: HistoryAnswer) returns (failed: bool, close: Option<Close>)
      ensures failed == answer.NoAnswer?
      ensures close == if answer.Current? && t in closes then Some(closes[t]) else None
    {
      failed := answer.NoAnswer?;
      close := if answer.Current? && t in closes then Some(closes[t]) else None;
    }
  }

  class TradeTable {
    var rows: map<int, TradeRow>
    ghost var writes: seq<Write>   // every write of a row by a tracker, committed or rolled back

    constructor ()
      ensures rows == map[] && writes == []
    {
      rows, writes := map[], [];
    }

    /** Commits the update of one row, or rolls it back. */
    method Commit(a: int, row: TradeRow, commits: bool)
      modifies this
      ensures rows == if commits then old(rows)[a := row] else old(rows)
      ensures writes == old(writes) + [Write(row, commits)]
    {
      writes := writes + [Write(row, commits)];
      if commits { rows := rows[a := row]; }
    }
  }

  class PositionTracker {
    const broker: PositionBroker
    const table: TradeTable
    var tracked: map<int, Info>

    ghost function View(): Book
      reads this, broker, table
    {
      Book(tracked, table.rows, table.writes, broker.volumes, broker.closes, broker.executed)
    }

    ghost predicate Valid()
      reads this, broker, table
    {
      Inv(View())
    }

    /** A new process: the memory is what the table's open rows say. */
    constructor (broker: PositionBroker, table: TradeTable)
      ensures this.broker == broker && this.table == table && LoadedFrom(tracked, table.rows)
      ensures DistinctTickets(table.rows) ==> Rebuilt(tracked, table.rows)
    {
      this.broker, this.table, tracked := broker, table, map[];
      new;
      var left: set<int> := table.rows.Keys;
      while left != {}
        invariant left <= table.rows.Keys
        invariant forall t :: t in tracked ==>
                    && tracked[t].tradeId in table.rows && tracked[t].tradeId !in left
                    && var row := table.rows[tracked[t].tradeId];
                       row.ticket == t && row.status != Closed && tracked[t] == InfoOf(tracked[t].tradeId, row)
        invariant forall a :: a in table.rows && a !in left && table.rows[a].status != Closed ==>
                    table.rows[a].ticket in tracked
        decreases |left|
      {
        Inhabited(left);
        var a :| a in left;
        left := left - {a};
        var row := table.rows[a];
        if row.status == Open || row.status == PartialClosed {
          tracked := tracked[row.ticket := Info(a, row.entryTime, row.status == PartialClosed)];
        }
      }
    }

    /** A trade row was committed as open; follow it. */
    method RegisterNewPosition(ticket: int, tradeId: int, entryTime: int)
      requires Valid() && tradeId !in table.rows
      modifies this, table`rows
      ensures View() == Registered(old(View()), ticket, tradeId, entryTime)
      ensures Valid() <==> FreshTicket(old(View()), ticket)
    {
      hide Inv, FreshTicket;
      RegisterKeeps(View(), ticket, tradeId, entryTime);
      table.rows := table.rows[tradeId := TradeRow(ticket, entryTime, Open, None, None)];
      tracked := tracked[ticket := Info(tradeId, entryTime, false)];
    }

    /** Tries to close half of a listed position. */
    method DoPartialClose(ticket: int, volume: real, now: int, v: Visit) returns (outcome: Outcome)
      requires Valid() && ticket in tracked && Due(tracked[ticket], now)
      requires ticket in broker.volumes ==> broker.volumes[ticket] == volume
      modifies this, broker`volumes, broker`executed, table
      ensures Follows(old(View()), ticket)
      ensures outcome == TurnOutcome(old(View()), ticket, Some(volume), now, v)
      ensures View() == TurnBook(old(View()), ticket, Some(volume), now, v)
    {
      hide Inv;
      FollowsTracked(View(), ticket);
      var half := Half(volume, v.tieUp);
      if half <= 0.0 || half >= volume {
        return HalfInvalid;
      }
      var ok := broker.ClosePartial(ticket, half, now, v.accepts);
      if !ok {
        return CloseRefused;
      }
      var info := tracked[ticket];
      var row := table.rows[info.tradeId].(status := PartialClosed, partialVolume := Some(half));
      table.Commit(info.tradeId, row, v.commits);
      tracked := tracked[ticket := info.(partialClosed := true)];
      return ClosedInPart(v.commits);
    }

    /** Records the final close of a position that the listing does not show, once the history confirms it. */
    method HandleVanished(ticket: int, v: Visit) returns (outcome: Outcome)
      requires Valid() && ticket in tracked
      modifies this, table
      ensures Follows(old(View()), ticket)
      ensures ticket in broker.closes ==>
                outcome == VanishedOutcome(v) && View() == TurnBook(old(View()), ticket, None, 0, v)
      ensures ticket !in broker.closes ==>
                outcome == (if v.history.NoAnswer? then HistoryFailed else StillOpen) && View() == old(View())
    {
      hide Inv;
      FollowsTracked(View(), ticket);
      var failed, close := broker.GetHistory(ticket, v.history);
      if failed {
        return HistoryFailed;
      }
      if close.None? {
        return StillOpen;
      }
      var a := tracked[ticket].tradeId;
      table.Commit(a, table.rows[a].(status := Closed, close := close), v.commits);
      if !v.commits {
        return WriteFailed;
      }
      tracked := tracked - {ticket};
      return Resolved;
    }

    /** One ticket's turn. */
    method VisitTicket(ticket: int, listed: Option<real>, now: int, v: Visit) returns (outcome: Outcome)
      requires Valid() && ticket in tracked && Listed(View(), ticket, listed)
      modifies this, broker`volumes, broker`executed, table
      ensures Valid() && Advances(old(table.rows), table.rows) && Follows(old(View()), ticket)
      ensures outcome == TurnOutcome(old(View()), ticket, listed, now, v)
      ensures View() == TurnBook(old(View()), ticket, listed, now, v)
    {
      hide Inv, Advances;
      TurnKeeps(View(), ticket, listed, now, v);
      if listed.None? {
        outcome := HandleVanished(ticket, v);
      } else if !tracked[ticket].partialClosed && now >= Threshold(tracked[ticket].entryTime) {
        outcome := DoPartialClose(ticket, listed.value, now, v);
      } else {
        outcome := Kept;
      }
    }

    /** One poll over everything followed, on one listing of the broker's positions: every ticket has its turn, and what
        came of it is exactly what the calls around it answered. */
    method CheckPositions(now: int, lists: bool, visit: int -> Visit) returns (outcomes: map<int, Outcome>)
      requires Valid()
      modifies this, broker, table
      ensures Valid() && Advances(old(table.rows), table.rows)
      ensures !lists || old(tracked) == map[] ==> outcomes == map[] && View() == old(View())
      ensures lists ==> PollFits(old(View()), View(), now, visit, outcomes)
    {
      hide Inv, Advances, Polled, TurnBook, TurnOutcome, Listed;
      ghost var b0 := View();
      SameRows(table.rows);
      PolledStart(b0, now, visit);
      outcomes := map[];
      var left: set<int> := tracked.Keys;
      if tracked == map[] || !lists {
        PolledEnd(b0, b0, now, visit, map[]);
        return;
      }
      var openByTicket := broker.volumes;
      while left != {}
        invariant Valid() && Advances(b0.rows, table.rows) && Polled(b0, View(), left, now, visit, outcomes)
        decreases |left|
      {
        Inhabited(left);
        var ticket :| ticket in left;
        PolledMove(b0, View(), left, now, visit, outcomes, ticket);
        broker.Environment(visit(ticket).before);
        ghost var b := View();
        var listed := if ticket in openByTicket then Some(openByTicket[ticket]) else None;
        ListedNow(b0, b, left, now, visit, outcomes, ticket, listed);
        PolledTurn(b0, b, left, now, visit, outcomes, ticket, listed);
        var outcome := VisitTicket(ticket, listed, now, visit(ticket));
        AdvancesTwice(b0.rows, b.rows, table.rows);
        outcomes := outcomes[ticket := outcome];
        left := left - {ticket};
      }
      PolledEnd(b0, View(), now, visit, outcomes);
    }
  }

  lemma PolledEnd(b0: Book, b: Book, now: int, visit: int -> Visit, outcomes: map<int, Outcome>)
    ensures Polled(b0, b, {}, now, visit, outcomes) ==> PollFits(b0, b, now, visit, outcomes)
    ensures b0.tracked == map[] && Polled(b0, b, b0.tracked.Keys, now, visit, outcomes) ==>
              PollFits(b0, b, now, visit, outcomes)
  {
  }

  // ---------- a run with restarts ----------

  datatype Turn =
    | Poll(now: int, lists: bool, visit: int -> Visit)
    | BrokerMove(move: Move)
    | NewTrade(ticket: int, tradeId: int, entryTime: int)
    | Restart

  /** One turn of a run; a trade is registered once per ticket. */
  ghost predicate TurnFits(b: Book, b': Book, turn: Turn) {
    match turn
    case Poll(now, lists, visit) =>
      if lists then exists outcomes :: PollFits(b, b', now, visit, outcomes) else b' == b
    case BrokerMove(m) => b' == Moved(b, m)
    case NewTrade(t, a, entryTime) =>
      b' == if a !in b.rows && FreshTicket(b, t) then Registered(b, t, a, entryTime) else b
    case Restart => Rebuilt(b'.tracked, b.rows) && b' == b.(tracked := b'.tracked)
  }

  /** The states before and after each turn. */
  ghost predicate Trace(states: seq<Book>, turns: seq<Turn>) {
    && |states| == |turns| + 1
    && (forall k :: 0 <= k < |states| ==> Inv(states[k]))
    && (forall k :: 0 <= k < |turns| ==> TurnFits(states[k], states[k + 1], turns[k]))
    && (forall k :: 0 <= k < |turns| ==> Advances(states[k].rows, states[k + 1].rows))
  }

  /** Any interleaving of polls, broker moves, newly recorded trades and restarts, any pattern of failing calls and
      commits: every turn does what it says and every state keeps the invariants. */
  method Run(tracker: PositionTracker, turns: seq<Turn>) returns (last: PositionTracker, ghost states: seq<Book>)
    requires tracker.Valid()
    modifies tracker, tracker.broker, tracker.table
    ensures last.broker == tracker.broker && last.table == tracker.table && last.Valid()
    ensures Trace(states, turns) && states[0] == old(tracker.View()) && states[|turns|] == last.View()
  {
    hide Inv, Advances, TurnFits;
    last := tracker;
    states := [tracker.View()];
    for k := 0 to |turns|
      invariant last.broker == tracker.broker && last.table == tracker.table && (last == tracker || fresh(last))
      invariant last.Valid() && Trace(states, turns[..k])
      invariant states[0] == old(tracker.View()) && states[k] == last.View()
    {
      ghost var b := last.View();
      last := TakeTurn(last, turns[k]);
      TraceStep(states, turns, k, last.View());
      states := states + [last.View()];
    }
    assert turns[..|turns|] == turns;
  }

  method TakeTurn(tracker: PositionTracker, turn: Turn) returns (next: PositionTracker)
    requires tracker.Valid()
    modifies tracker, tracker.broker, tracker.table
    ensures next.broker == tracker.broker && next.table == tracker.table && (next == tracker || fresh(next))
    ensures next.Valid() && TurnFits(old(tracker.View()), next.View(), turn)
    ensures Advances(old(tracker.table.rows), tracker.table.rows)
  {
    hide Inv, Advances, PollFits;
    ghost var b := tracker.View();
    SameRows(b.rows);
    next := tracker;
    match turn
    case Poll(now, lists, visit) =>
      var outcomes := tracker.CheckPositions(now, lists, visit);
      assert lists ==> PollFits(b, tracker.View(), now, visit, outcomes);
    case BrokerMove(m) =>
      BrokerMoveKeeps(b, m);
      tracker.broker.Environment(m);
    case NewTrade(t, a, entryTime) =>
      if a !in tracker.table.rows && (t in tracker.broker.volumes || t in tracker.broker.closes)
         && !HasTicket(tracker.table.rows, t)
      {
        tracker.RegisterNewPosition(t, a, entryTime);
        RegisterKeeps(b, t, a, entryTime);
      }
    case Restart =>
      next := new PositionTracker(tracker.broker, tracker.table);
      TicketsDistinct(b);
      RestartKeeps(b, next.tracked);
  }

  lemma TicketsDistinct(b: Book)
    requires Inv(b)
    ensures DistinctTickets(b.rows)
  {
  }

  lemma TraceStep(states: seq<Book>, turns: seq<Turn>, k: nat, b: Book)
    requires k < |turns| && Trace(states, turns[..k]) && Inv(b) && TurnFits(states[k], b, turns[k])
    requires Advances(states[k].rows, b.rows)
    ensures Trace(states + [b], turns[..k + 1])
  {
    hide Inv, TurnFits, Advances;
    var states' := states + [b];
    forall m | 0 <= m < k + 1
      ensures TurnFits(states'[m], states'[m + 1], turns[..k + 1][m]) && Advances(states'[m].rows, states'[m + 1].rows)
    {
      if m < k { assert TurnFits(states[m], states[m + 1], turns[..k][m]); }
    }
  }

  // ---------- final closes: retried until recorded ----------

  /** A poll that could not record the end of ticket t: the listing, the history or the commit failed it. */
  predicate PollFails(turn: Turn, t: int)
    requires turn.Poll?
  {
    !turn.lists || !turn.visit(t).history.Current? || !turn.visit(t).commits
  }

  /** A ticket that is no longer followed, and has been. */
  ghost predicate Finished(b: Book, t: int) {
    t !in b.tracked && HasTicket(b.rows, t)
  }

  lemma HasTicketStays(b: Book, b': Book, t: int)
    requires Advances(b.rows, b'.rows) && HasTicket(b.rows, t)
    ensures HasTicket(b'.rows, t)
  {
    var a :| a in b.rows && b.rows[a].ticket == t;
    assert b'.rows[a].ticket == t;
  }

  lemma FinishedStays(b: Book, b': Book, turn: Turn, t: int)
    requires Inv(b) && TurnFits(b, b', turn) && Advances(b.rows, b'.rows) && Finished(b, t)
    ensures Finished(b', t)
  {
    hide Inv, OutcomeFits, Advances;
    HasTicketStays(b, b', t);
    match turn
    case Poll(now, lists, visit) =>
    case BrokerMove(m) =>
    case NewTrade(u, x, entryTime) =>
    case Restart => RestartKeeps(b, b'.tracked);
  }

  lemma {:induction false} FinishedLater(states: seq<Book>, turns: seq<Turn>, k: nat, n: nat, t: int)
    requires Trace(states, turns) && k <= n <= |turns| && Finished(states[k], t)
    ensures Finished(states[n], t)
  {
    hide Inv, TurnFits, Finished, Advances;
    if k < n {
      FinishedLater(states, turns, k, n - 1, t);
      FinishedStays(states[n - 1], states[n], turns[n - 1], t);
    }
  }

  /** The first poll after a position's end that gets its listing, its history and its commit records the broker's own
      close and lets go of the ticket. */
  lemma RecordedAtOnce(states: seq<Book>, turns: seq<Turn>, k: nat, t: int)
    requires Trace(states, turns) && k < |turns| && turns[k].Poll? && !PollFails(turns[k], t)
    requires t in states[k].tracked && t in states[k].closes
    ensures var a := states[k].tracked[t].tradeId;
            && a in states[k + 1].rows && states[k + 1].rows[a].ticket == t
            && states[k + 1].rows[a].status == Closed && states[k + 1].rows[a].close == Some(states[k].closes[t])
            && Finished(states[k + 1], t)
  {
    hide Inv, Advances;
    var b, b' := states[k], states[k + 1];
    assert TurnFits(b, b', turns[k]) && Inv(b);
    BrokerApart(b);
    FollowsTracked(b, t);
    var outcomes :| PollFits(b, b', turns[k].now, turns[k].visit, outcomes);
    assert t in outcomes && OutcomeFits(b, b', t, turns[k].now, turns[k].visit, outcomes[t]);
    assert b'.rows[b.tracked[t].tradeId].ticket == t;
  }

  /** A close stays unrecorded only while every poll since it fails, restarts or not: if the ticket is still followed at
      the end of the run, each poll that found its position ended got no listing, no history or no commit. */
  lemma RetriedUntilRecorded(states: seq<Book>, turns: seq<Turn>, k: nat, t: int)
    requires Trace(states, turns) && k < |turns| && turns[k].Poll?
    requires t in states[k].tracked && t in states[k].closes && t in states[|turns|].tracked
    ensures PollFails(turns[k], t)
  {
    hide Inv, TurnFits, PollFails, Advances;
    if !PollFails(turns[k], t) {
      RecordedAtOnce(states, turns, k, t);
      FinishedLater(states, turns, k + 1, |turns|, t);
    }
  }

  /** A ticket is let go of only by a poll that got its listing without the ticket, its history and its commit, and then
      its close is recorded. */
  lemma ReleasedRecorded(states: seq<Book>, turns: seq<Turn>, k: nat, t: int)
    requires Trace(states, turns) && k < |turns| && t in states[k].tracked && t !in states[k + 1].tracked
    ensures turns[k].Poll? && !PollFails(turns[k], t) && t !in states[k].volumes
    ensures var a := states[k].tracked[t].tradeId;
            && t in states[k].closes && a in states[k + 1].rows
            && states[k + 1].rows[a].close == Some(states[k].closes[t])
  {
    hide Inv, Advances, Executions, EndsDuring, Half;
    var b, b' := states[k], states[k + 1];
    assert TurnFits(b, b', turns[k]);
    match turns[k]
    case Poll(now, lists, visit) =>
      if lists {
        var outcomes :| PollFits(b, b', now, visit, outcomes);
        assert OutcomeFits(b, b', t, now, visit, outcomes[t]);
      }
    case BrokerMove(m) =>
    case NewTrade(u, x, entryTime) =>
    case Restart => RestartKeeps(b, b'.tracked);
  }

  // ---------- partial closes: once in a process, again after a lost record and a restart ----------

  /** Nothing in this process will close ticket t in part any more. */
  ghost predicate Spent(b: Book, t: int) {
    if t in b.tracked then b.tracked[t].partialClosed else HasTicket(b.rows, t)
  }

  /** A turn other than a restart closes a ticket in part at most once, and none that is spent; then it is spent. */
  lemma TurnCloses(b: Book, b': Book, turn: Turn, t: int)
    requires Inv(b) && TurnFits(b, b', turn) && Advances(b.rows, b'.rows) && !turn.Restart?
    ensures Executions(b'.executed, t) <= Executions(b.executed, t) + if Spent(b, t) then 0 else 1
    ensures Executions(b.executed, t) <= Executions(b'.executed, t)
    ensures Spent(b, t) || Executions(b'.executed, t) > Executions(b.executed, t) ==> Spent(b', t)
  {
    hide Inv, Executions, Advances, EndsDuring, ValidHalf, Half;
    if HasTicket(b.rows, t) { HasTicketStays(b, b', t); }
    if t in b.tracked { FollowsTracked(b, t); TicketAt(b.rows, b.tracked[t].tradeId); HasTicketStays(b, b', t); }
    match turn
    case Poll(now, lists, visit) =>
      if lists {
        var outcomes :| PollFits(b, b', now, visit, outcomes);
        if t in b.tracked { assert OutcomeFits(b, b', t, now, visit, outcomes[t]); }
      }
    case BrokerMove(m) =>
    case NewTrade(u, x, entryTime) =>
  }

  ghost predicate NoRestart(turns: seq<Turn>, k: nat, n: nat) {
    forall i :: k <= i < n && i < |turns| ==> !turns[i].Restart?
  }

  /** One process closes each ticket in part at most once, and none whose partial close it knew of at its start. */
  lemma {:induction false} OncePerProcess(states: seq<Book>, turns: seq<Turn>, k: nat, n: nat, t: int)
    requires Trace(states, turns) && k <= n <= |turns| && NoRestart(turns, k, n)
    ensures Executions(states[n].executed, t) <=
            Executions(states[k].executed, t) + if Spent(states[k], t) then 0 else 1
    ensures Executions(states[k].executed, t) <= Executions(states[n].executed, t)
    ensures Spent(states[k], t) || Executions(states[n].executed, t) > Executions(states[k].executed, t) ==>
              Spent(states[n], t)
  {
    hide Inv, TurnFits, Spent, Advances, Executions;
    if k < n {
      OncePerProcess(states, turns, k, n - 1, t);
      TurnCloses(states[n - 1], states[n], turns[n - 1], t);
    }
  }

  /** Over any run, restarts included, the broker closes a ticket in part at most once more often than the table lost
      its record, and the table records its final close at most once. */
  lemma LostClosesBound(states: seq<Book>, turns: seq<Turn>, k: nat, t: int)
    requires Trace(states, turns) && k <= |turns|
    ensures Executions(states[k].executed, t) <= 1 + Lost(states[k], t)
    ensures Writes(states[k].writes, t, Closed, true) <= 1
  {
    hide Inv;
    OnceAndLost(states[k], t);
  }

  /** A poll in which the partial close of t goes through if the tracker asks for it: the position is listed, open and
      past its time, half of it is a valid volume, and the broker accepts. */
  ghost predicate WouldClose(b: Book, turn: Turn, t: int)
    requires turn.Poll? && t in b.tracked
  {
    && turn.lists && t in b.volumes && !EndsDuring(b, turn.visit, t)
    && turn.now >= Threshold(b.tracked[t].entryTime)
    && 0.0 < Half(b.volumes[t], turn.visit(t).tieUp) < b.volumes[t] && turn.visit(t).accepts
  }

  /** In such a poll a ticket that the memory does not mark is closed in part, by half of what is open. */
  lemma ClosesWhenDue(states: seq<Book>, turns: seq<Turn>, k: nat, t: int)
    requires Trace(states, turns) && k < |turns| && turns[k].Poll? && t in states[k].tracked
    requires WouldClose(states[k], turns[k], t)
    ensures var b, b' := states[k], states[k + 1];
            && Executions(b'.executed, t) == Executions(b.executed, t) + (if b.tracked[t].partialClosed then 0 else 1)
            && t in b'.volumes
            && b'.volumes[t] == b.volumes[t] -
               (if b.tracked[t].partialClosed then 0.0 else Half(b.volumes[t], turns[k].visit(t).tieUp))
  {
    hide Inv, Advances, Executions, EndsDuring, Half;
    var b, b' := states[k], states[k + 1];
    assert TurnFits(b, b', turns[k]);
    var outcomes :| PollFits(b, b', turns[k].now, turns[k].visit, outcomes);
    assert OutcomeFits(b, b', t, turns[k].now, turns[k].visit, outcomes[t]);
  }

  /** In the first poll after a restart a close that would go through is carried out, once more if that was done before,
      exactly when the ticket's row still says open; without that it never is. */
  lemma RestartRepeats(states: seq<Book>, turns: seq<Turn>, k: nat, t: int)
    requires Trace(states, turns) && k + 1 < |turns| && turns[k].Restart? && turns[k + 1].Poll?
    requires t in states[k].tracked
    ensures var b, b' := states[k + 1], states[k + 2];
            && t in b.tracked && Follows(b, t)
            && (WouldClose(b, turns[k + 1], t) ==>
                  Executions(b'.executed, t) == Executions(states[k].executed, t)
                    + if b.rows[b.tracked[t].tradeId].status == Open then 1 else 0)
            && (b.rows[b.tracked[t].tradeId].status != Open ==>
                  Executions(b'.executed, t) == Executions(states[k].executed, t))
  {
    hide Inv, Advances, Executions, EndsDuring, Half;
    var b0, b, b' := states[k], states[k + 1], states[k + 2];
    assert TurnFits(b0, b, turns[k]) && TurnFits(b, b', turns[k + 1]);
    RestartKeeps(b0, b.tracked);
    FollowsTracked(b, t);
    if turns[k + 1].lists {
      var outcomes :| PollFits(b, b', turns[k + 1].now, turns[k + 1].visit, outcomes);
      assert OutcomeFits(b, b', t, turns[k + 1].now, turns[k + 1].visit, outcomes[t]);
    }
  }

  const CALM: Move := Move(map[], map[])
  const LOSE_RECORD: Visit := Visit(CALM, true, true, Current, false)
  const ALL_WELL: Visit := Visit(CALM, true, true, Current, true)

  function LostThenRestarted(): seq<Turn> {
    [Poll(1050, true, t => LOSE_RECORD), Restart, Poll(1100, true, t => ALL_WELL)]
  }

  /** Such a run: half of position 7 is closed at 17:30 and its record is lost; after a restart half of the rest is
      closed as well. */
  method RepeatedClose() returns (last: PositionTracker)
    ensures fresh(last) && fresh(last.broker) && last.Valid()
    ensures Executions(last.broker.executed, 7) == 2 && Lost(last.View(), 7) == 1
    ensures 7 in last.broker.volumes && last.broker.volumes[7] == 0.25
  {
    hide Inv, TurnFits;
    var broker := new PositionBroker(map[7 := 1.0]);
    var table := new TradeTable();
    var tracker := new PositionTracker(broker, table);
    NothingYet();
    assert forall t :: t !in tracker.tracked;
    assert tracker.tracked == map[] && tracker.View() == EMPTY;
    tracker.RegisterNewPosition(7, 1, 600);
    ghost var states;
    last, states := Run(tracker, LostThenRestarted());
    ClosedTwice(states);
  }

  const EMPTY: Book := Book(map[], map[], [], map[7 := 1.0], map[], [])

  lemma NothingYet()
    ensures Inv(EMPTY) && Inv(Registered(EMPTY, 7, 1, 600)) && FreshTicket(EMPTY, 7)
    ensures Executions(EMPTY.executed, 7) == 0
  {
    assert Inv(EMPTY);
    RegisterFresh(EMPTY, 7, 1, 600);
  }

  lemma Quiet(b: Book, v: Visit, t: int)
    requires v.before == CALM
    ensures !EndsDuring(b, u => v, t)
  {
  }

  lemma Halves()
    ensures Half(1.0, true) == 0.5 && ValidHalf(1.0, true) && Half(0.5, true) == 0.25 && ValidHalf(0.5, true)
  {
  }

  lemma ClosedTwice(states: seq<Book>)
    requires Trace(states, LostThenRestarted()) && states[0] == Registered(EMPTY, 7, 1, 600)
    ensures Executions(states[3].executed, 7) == 2 && Lost(states[3], 7) == 1
    ensures 7 in states[3].volumes && states[3].volumes[7] == 0.25
  {
    hide Inv, Advances, Executions, Writes, EndsDuring, ValidHalf, Half;
    var turns, b0, b1, b2, b3 := LostThenRestarted(), states[0], states[1], states[2], states[3];
    NothingYet();
    Halves();
    Quiet(b0, LOSE_RECORD, 7);
    Quiet(b2, ALL_WELL, 7);
    assert TurnFits(b0, b1, turns[0]) && TurnFits(b1, b2, turns[1]) && TurnFits(b2, b3, turns[2]);
    var first :| PollFits(b0, b1, 1050, turns[0].visit, first);
    assert OutcomeFits(b0, b1, 7, 1050, turns[0].visit, first[7]);
    RestartKeeps(b1, b2.tracked);
    var second :| PollFits(b2, b3, 1100, turns[2].visit, second);
    assert OutcomeFits(b2, b3, 7, 1100, turns[2].visit, second[7]);
    OnceAndLost(b3, 7);
  }
}
