/** The book of overnight positions: what the tracker remembers, what the table holds and what the broker has done, and
    which steps keep them in agreement.  Times are minutes. */
module PositionBooks {
  import opened Market

  const MINUTES_PER_DAY: int := 1440
  const PARTIAL_CLOSE_MINUTE: int := 1020

  datatype RealStatus = Open | PartialClosed | Closed

  /** The broker's own account of how a position ended. */
  datatype Close = Close(price: real, profit: real, reason: string)

  datatype TradeRow = TradeRow(ticket: int, entryTime: int, status: RealStatus, partialVolume: Option<real>,
                               close: Option<Close>)

  /** A write of a row that the table committed or rolled back. */
  datatype Write = Write(row: TradeRow, committed: bool)

  datatype Info = Info(tradeId: int, entryTime: int, partialClosed: bool)

  /** A partial close that the broker carried out. */
  datatype Execution = Execution(ticket: int, time: int, closed: real, before: real)

  /** The tracker's memory, the trade table with all writes to it so far, and the broker: open volumes, ended positions,
      executed partial closes. */
  datatype Book = Book(tracked: map<int, Info>, rows: map<int, TradeRow>, writes: seq<Write>,
                       volumes: map<int, real>, closes: map<int, Close>, executed: seq<Execution>)

  /** 17:00 on the day of the entry. */
  function Threshold(entryTime: int): int {
    entryTime / MINUTES_PER_DAY * MINUTES_PER_DAY + PARTIAL_CLOSE_MINUTE
  }

  /** That is 17 hours after the midnight that starts the entry's day. */
  lemma ThresholdMeans(entryTime: int, midnight: int)
    requires midnight % 1440 == 0 && midnight <= entryTime < midnight + 1440
    ensures Threshold(entryTime) == midnight + 17 * 60
  {
  }

  predicate Due(info: Info, now: int) {
    !info.partialClosed && now >= Threshold(info.entryTime)
  }

  /** `half` is half the volume rounded to two decimals, in either direction on a tie. */
  predicate RoundedHalf(half: real, volume: real) {
    -0.005 <= half - volume / 2.0 <= 0.005
  }

  /** Half a volume rounded to two decimals; on a tie floating point may go either way. */
  function Half(volume: real, tieUp: bool): (half: real)
    ensures RoundedHalf(half, volume)
  {
    var cents := volume * 50.0;
    var low := cents.Floor as real;
    (if cents - low > 0.5 || (cents - low == 0.5 && tieUp) then low + 1.0 else low) / 100.0
  }

  /** It is a whole number of hundredths, and on a tie the one the rounding chose. */
  lemma HalfMeans(volume: real, tieUp: bool)
    ensures var half := Half(volume, tieUp);
            && half * 100.0 == (half * 100.0).Floor as real
            && (half - volume / 2.0 == 0.005 ==> tieUp) && (half - volume / 2.0 == -0.005 ==> !tieUp)
  {
    var cents := volume * 50.0;
    var low := cents.Floor;
    var n := if cents - low as real > 0.5 || (cents - low as real == 0.5 && tieUp) then low + 1 else low;
    assert Half(volume, tieUp) == n as real / 100.0;
    assert Half(volume, tieUp) * 100.0 == n as real;
  }

  // ---------- counting ----------

  /** How often the broker has closed a ticket in part. */
  function Executions(executed: seq<Execution>, t: int): nat {
    if executed == [] then 0
    else Executions(executed[..|executed| - 1], t) + if executed[|executed| - 1].ticket == t then 1 else 0
  }

  /** How often a ticket's row was written with a status, and committed or not. */
  function Writes(writes: seq<Write>, t: int, status: RealStatus, committed: bool): nat {
    if writes == [] then 0
    else
      var w := writes[|writes| - 1];
      Writes(writes[..|writes| - 1], t, status, committed)
      + if w.row.ticket == t && w.row.status == status && w.committed == committed then 1 else 0
  }

  /** Partial closes of a ticket whose record was rolled back. */
  function Lost(b: Book, t: int): nat {
    Writes(b.writes, t, PartialClosed, false)
  }

  lemma ExecutionsAppend(executed: seq<Execution>, e: Execution, t: int)
    ensures Executions(executed + [e], t) == Executions(executed, t) + if e.ticket == t then 1 else 0
  {
    assert (executed + [e])[..|executed|] == executed;
  }

  lemma WritesAppend(writes: seq<Write>, w: Write, t: int, status: RealStatus, committed: bool)
    ensures Writes(writes + [w], t, status, committed) == Writes(writes, t, status, committed)
              + if w.row.ticket == t && w.row.status == status && w.committed == committed then 1 else 0
  {
    assert (writes + [w])[..|writes|] == writes;
  }

  /** Counting finds what is there. */
  lemma {:induction false} ExecutionsIndex(executed: seq<Execution>, t: int)
    ensures Executions(executed, t) > 0 <==> exists i :: 0 <= i < |executed| && executed[i].ticket == t
  {
    if executed != [] {
      var n := |executed| - 1;
      ExecutionsIndex(executed[..n], t);
      if Executions(executed[..n], t) > 0 {
        var i :| 0 <= i < n && executed[..n][i].ticket == t;
        assert executed[i].ticket == t;
      }
      if exists i :: 0 <= i < n && executed[i].ticket == t {
        var i :| 0 <= i < n && executed[i].ticket == t;
        assert executed[..n][i].ticket == t;
      }
    }
  }

  // ---------- what every step keeps ----------

  /** The trade of ticket t that the tracker still follows. */
  predicate Follows(b: Book, t: int) {
    && t in b.tracked && b.tracked[t].tradeId in b.rows
    && var row := b.rows[b.tracked[t].tradeId];
       row.ticket == t && row.entryTime == b.tracked[t].entryTime && row.status != Closed
  }

  /** Each registered trade has its own ticket, and is followed until its final close is recorded. */
  ghost predicate NoneForgotten(b: Book) {
    && (forall t :: t in b.tracked ==> Follows(b, t))
    && (forall a :: a in b.rows && b.rows[a].status != Closed ==>
          b.rows[a].ticket in b.tracked && b.tracked[b.rows[a].ticket].tradeId == a)
    && (forall a, a' :: a in b.rows && a' in b.rows && b.rows[a].ticket == b.rows[a'].ticket ==> a == a')
  }

  /** A followed position is open at the broker or has ended there; a recorded end is the broker's own. */
  ghost predicate EndsRecorded(b: Book) {
    && (forall t :: t in b.tracked ==> t in b.volumes || t in b.closes)
    && (forall t :: t in b.volumes ==> t !in b.closes)
    && (forall a :: a in b.rows ==>
          (b.rows[a].status == Closed <==> b.rows[a].close.Some?)
          && (b.rows[a].close.Some? ==>
            b.rows[a].ticket in b.closes && b.rows[a].close.value == b.closes[b.rows[a].ticket]))
  }

  predicate ExecutionFits(e: Execution, row: TradeRow) {
    && e.ticket == row.ticket && e.time >= Threshold(row.entryTime)
    && 0.0 < e.closed < e.before && RoundedHalf(e.closed, e.before)
  }

  /** Every partial close was one of half a registered trade's volume, not before its time. */
  ghost predicate HasRow(rows: map<int, TradeRow>, e: Execution) {
    exists a :: a in rows && ExecutionFits(e, rows[a])
  }

  ghost predicate NoneEarly(b: Book) {
    forall i :: 0 <= i < |b.executed| ==> HasRow(b.rows, b.executed[i])
  }

  /** The partial volume of a row, if any, is that of an execution on its ticket, and its status says whether there is
      one. */
  ghost predicate Backed(executed: seq<Execution>, row: TradeRow) {
    && (row.partialVolume.Some? ==>
          exists i :: && 0 <= i < |executed| && executed[i].ticket == row.ticket
                      && executed[i].closed == row.partialVolume.value)
    && (row.status == Open ==> row.partialVolume.None?)
    && (row.status == PartialClosed ==> row.partialVolume.Some?)
  }

  ghost predicate AllBacked(b: Book) {
    forall a :: a in b.rows ==> Backed(b.executed, b.rows[a])
  }

  /** The memory claims no partial close that did not happen and knows those that the table records. */
  ghost predicate Remembers(b: Book) {
    forall t :: t in b.tracked ==> RemembersTicket(b, t)
  }

  ghost predicate RemembersTicket(b: Book, t: int)
    requires t in b.tracked
  {
    && (b.tracked[t].partialClosed ==> Executions(b.executed, t) > 0)
    && (b.tracked[t].tradeId in b.rows && b.rows[b.tracked[t].tradeId].status == PartialClosed ==>
          b.tracked[t].partialClosed)
  }

  predicate HasTicket(rows: map<int, TradeRow>, t: int) {
    exists a :: a in rows && rows[a].ticket == t
  }

  /** The broker has closed a ticket in part once for each record of it, committed or lost; the table holds at most one
      partial close and one final close of a trade, and says which. */
  ghost predicate Tally(b: Book, t: int) {
    && Executions(b.executed, t) == Writes(b.writes, t, PartialClosed, true) + Lost(b, t)
    && (!HasTicket(b.rows, t) ==>
          Executions(b.executed, t) == 0 && Writes(b.writes, t, Closed, true) == 0)
    && forall a :: a in b.rows && b.rows[a].ticket == t ==>
         && Writes(b.writes, t, PartialClosed, true) == (if b.rows[a].partialVolume.Some? then 1 else 0)
         && Writes(b.writes, t, Closed, true) == (if b.rows[a].status == Closed then 1 else 0)
  }

  ghost predicate Accounted(b: Book) {
    forall t :: Tally(b, t)
  }

  /** What survives every step, restarts included. */
  ghost predicate Inv(b: Book) {
    NoneForgotten(b) && EndsRecorded(b) && NoneEarly(b) && AllBacked(b) && Remembers(b) && Accounted(b)
  }

  /** At all times the broker has closed a ticket in part at most once more often than records of it were lost, and its
      final close was recorded at most once. */
  lemma OnceAndLost(b: Book, t: int)
    requires Inv(b)
    ensures Executions(b.executed, t) <= 1 + Lost(b, t) && Writes(b.writes, t, Closed, true) <= 1
    ensures Executions(b.executed, t) == 1 + Lost(b, t) <==>
            exists a :: a in b.rows && b.rows[a].ticket == t && b.rows[a].partialVolume.Some?
  {
    assert Tally(b, t);
    if HasTicket(b.rows, t) {
      var a :| a in b.rows && b.rows[a].ticket == t;
      assert forall x :: x in b.rows && b.rows[x].ticket == t ==> x == a;
    }
  }

  function Rank(s: RealStatus): nat {
    match s case Open => 0 case PartialClosed => 1 case Closed => 2
  }

  /** Recorded trades stay; their status only moves forward and what was recorded of a close stands. */
  ghost predicate Advances(rows: map<int, TradeRow>, rows': map<int, TradeRow>) {
    forall a :: a in rows ==>
      && a in rows' && rows'[a].ticket == rows[a].ticket && rows'[a].entryTime == rows[a].entryTime
      && Rank(rows[a].status) <= Rank(rows'[a].status)
      && (rows[a].partialVolume.Some? ==> rows'[a].partialVolume == rows[a].partialVolume)
      && (rows[a].close.Some? ==> rows'[a].close == rows[a].close)
  }

  lemma AdvancesTwice(r: map<int, TradeRow>, r': map<int, TradeRow>, r'': map<int, TradeRow>)
    requires Advances(r, r') && Advances(r', r'')
    ensures Advances(r, r'')
  {
  }

  lemma SameRows(rows: map<int, TradeRow>)
    ensures Advances(rows, rows)
  {
  }

  lemma RowStays(rows: map<int, TradeRow>, rows': map<int, TradeRow>, e: Execution)
    requires Advances(rows, rows') && HasRow(rows, e)
    ensures HasRow(rows', e)
  {
    var a :| a in rows && ExecutionFits(e, rows[a]);
    assert ExecutionFits(e, rows'[a]);
  }

  lemma BackedStays(executed: seq<Execution>, e: Execution, row: TradeRow)
    requires Backed(executed, row)
    ensures Backed(executed + [e], row)
  {
    if row.partialVolume.Some? {
      var i :| 0 <= i < |executed| && executed[i].ticket == row.ticket && executed[i].closed == row.partialVolume.value;
      assert (executed + [e])[i] == executed[i];
    }
  }

  lemma BrokerApart(b: Book)
    requires Inv(b)
    ensures forall t :: t in b.volumes ==> t !in b.closes
    ensures forall t :: t in b.tracked ==> t in b.volumes || t in b.closes
  {
  }

  // ---------- the broker's own moves ----------

  /** What the broker does on its own: positions end, each with its record, and new ones open under tickets never used
      before. */
  datatype Move = Move(ends: map<int, Close>, opens: map<int, real>)

  function ClosesAfter(volumes: map<int, real>, closes: map<int, Close>, m: Move): map<int, Close> {
    closes + (map t | t in volumes && t in m.ends :: m.ends[t])
  }

  function VolumesAfter(volumes: map<int, real>, closes: map<int, Close>, m: Move): map<int, real> {
    (map t | t in volumes && t !in m.ends :: volumes[t]) +
    (map t | t in m.opens && t !in volumes && t !in closes :: m.opens[t])
  }

  function Moved(b: Book, m: Move): Book {
    b.(volumes := VolumesAfter(b.volumes, b.closes, m), closes := ClosesAfter(b.volumes, b.closes, m))
  }

  /** Open volumes stay, ends are final, and every position that was open still is or has ended. */
  lemma BrokerMoveKeeps(b: Book, m: Move)
    requires Inv(b)
    ensures Inv(Moved(b, m))
    ensures forall t :: t in b.volumes ==>
              if t in m.ends then t !in Moved(b, m).volumes && Moved(b, m).closes[t] == m.ends[t]
              else t in Moved(b, m).volumes && Moved(b, m).volumes[t] == b.volumes[t]
    ensures forall t :: t in b.closes ==> t in Moved(b, m).closes && Moved(b, m).closes[t] == b.closes[t]
  {
    hide NoneEarly, AllBacked, Accounted, Remembers, Executions;
    var b' := Moved(b, m);
    assert NoneForgotten(b') by {
      assert forall t :: Follows(b', t) == Follows(b, t);
    }
    SameEarly(b, b');
    SameBacked(b, b');
    SameAccounts(b, b');
  }

  lemma SameAccounts(b: Book, b': Book)
    requires b' == b.(volumes := b'.volumes, closes := b'.closes) && Accounted(b) && Remembers(b)
    ensures Accounted(b') && Remembers(b')
  {
    hide HasTicket, Executions, Writes;
    forall t ensures Tally(b', t) {
      assert Tally(b, t);
    }
    forall t | t in b'.tracked ensures RemembersTicket(b', t) {
      assert RemembersTicket(b, t);
    }
  }

  lemma SameEarly(b: Book, b': Book)
    requires b'.executed == b.executed && b'.rows == b.rows && NoneEarly(b)
    ensures NoneEarly(b')
  {
  }

  lemma SameBacked(b: Book, b': Book)
    requires b'.executed == b.executed && b'.rows == b.rows && AllBacked(b)
    ensures AllBacked(b')
  {
  }

  // ---------- a partial close ----------

  /** The row as a partial close of `half` writes it. */
  function PartialRow(row: TradeRow, half: real): TradeRow {
    row.(status := PartialClosed, partialVolume := Some(half))
  }

  /** A partial close of `half` went through at the broker; its record was committed or lost. */
  function PartialDone(b: Book, t: int, half: real, now: int, committed: bool): Book
    requires t in b.tracked && b.tracked[t].tradeId in b.rows && t in b.volumes
  {
    var a := b.tracked[t].tradeId;
    var row := PartialRow(b.rows[a], half);
    b.(tracked := b.tracked[t := b.tracked[t].(partialClosed := true)],
       volumes := b.volumes[t := b.volumes[t] - half],
       executed := b.executed + [Execution(t, now, half, b.volumes[t])],
       writes := b.writes + [Write(row, committed)],
       rows := if committed then b.rows[a := row] else b.rows)
  }

  /** A followed ticket whose partial close is not remembered is recorded as open. */
  lemma RecordedOpen(b: Book, t: int)
    requires Inv(b) && t in b.tracked && !b.tracked[t].partialClosed
    ensures Follows(b, t) && b.rows[b.tracked[t].tradeId].status == Open
    ensures b.rows[b.tracked[t].tradeId].partialVolume.None?
  {
    assert Follows(b, t) && RemembersTicket(b, t);
    assert Backed(b.executed, b.rows[b.tracked[t].tradeId]);
  }

  lemma PartialAdvances(b: Book, t: int, half: real, now: int, committed: bool)
    requires Inv(b) && t in b.tracked && !b.tracked[t].partialClosed && t in b.volumes
    ensures b.tracked[t].tradeId in b.rows && Advances(b.rows, PartialDone(b, t, half, now, committed).rows)
  {
    RecordedOpen(b, t);
  }

  lemma PartialEarly(b: Book, t: int, half: real, now: int, committed: bool)
    requires Inv(b) && t in b.tracked && Due(b.tracked[t], now) && t in b.volumes
    requires 0.0 < half < b.volumes[t] && RoundedHalf(half, b.volumes[t])
    ensures Follows(b, t) && NoneEarly(PartialDone(b, t, half, now, committed))
  {
    hide HasRow;
    RecordedOpen(b, t);
    PartialAdvances(b, t, half, now, committed);
    var b', n, a := PartialDone(b, t, half, now, committed), |b.executed|, b.tracked[t].tradeId;
    forall i | 0 <= i < n + 1 ensures HasRow(b'.rows, b'.executed[i]) {
      if i < n {
        assert HasRow(b.rows, b.executed[i]);
        RowStays(b.rows, b'.rows, b.executed[i]);
      } else {
        FindsRow(b'.rows, b'.executed[n], a);
      }
    }
  }

  lemma FindsRow(rows: map<int, TradeRow>, e: Execution, a: int)
    requires a in rows && ExecutionFits(e, rows[a])
    ensures HasRow(rows, e)
  {
  }

  lemma PartialBacked(b: Book, t: int, half: real, now: int, committed: bool)
    requires Inv(b) && t in b.tracked && !b.tracked[t].partialClosed && t in b.volumes
    ensures Follows(b, t) && AllBacked(PartialDone(b, t, half, now, committed))
  {
    hide Backed;
    RecordedOpen(b, t);
    var b', a := PartialDone(b, t, half, now, committed), b.tracked[t].tradeId;
    var e := b'.executed[|b.executed|];
    forall x | x in b'.rows ensures Backed(b'.executed, b'.rows[x]) {
      assert Backed(b.executed, b.rows[x]);
      if committed && x == a {
        BackedNow(b.executed, e, b'.rows[x]);
      } else {
        BackedStays(b.executed, e, b'.rows[x]);
      }
    }
  }

  lemma BackedNow(executed: seq<Execution>, e: Execution, row: TradeRow)
    requires e.ticket == row.ticket && row.partialVolume == Some(e.closed) && row.status == PartialClosed
    ensures Backed(executed + [e], row)
  {
    assert (executed + [e])[|executed|] == e;
  }

  lemma PartialRemembers(b: Book, t: int, half: real, now: int, committed: bool)
    requires Inv(b) && t in b.tracked && !b.tracked[t].partialClosed && t in b.volumes
    ensures Follows(b, t) && Remembers(PartialDone(b, t, half, now, committed))
  {
    hide Executions;
    RecordedOpen(b, t);
    var b' := PartialDone(b, t, half, now, committed);
    forall s | s in b'.tracked ensures RemembersTicket(b', s) {
      assert RemembersTicket(b, s) && Follows(b, s);
      ExecutionsAppend(b.executed, b'.executed[|b.executed|], s);
    }
  }

  lemma PartialAccounted(b: Book, t: int, half: real, now: int, committed: bool)
    requires Inv(b) && t in b.tracked && !b.tracked[t].partialClosed && t in b.volumes
    ensures Follows(b, t) && Accounted(PartialDone(b, t, half, now, committed))
  {
    hide Executions, Writes, HasTicket;
    RecordedOpen(b, t);
    var b', a := PartialDone(b, t, half, now, committed), b.tracked[t].tradeId;
    var e, w := b'.executed[|b.executed|], b'.writes[|b.writes|];
    forall s ensures Tally(b', s) {
      assert Tally(b, s);
      ExecutionsAppend(b.executed, e, s);
      WritesAppend(b.writes, w, s, PartialClosed, true);
      WritesAppend(b.writes, w, s, PartialClosed, false);
      WritesAppend(b.writes, w, s, Closed, true);
      SameTickets(b.rows, b'.rows, s);
      if s == t { TicketAt(b.rows, a); }
    }
  }

  lemma TicketAt(rows: map<int, TradeRow>, a: int)
    requires a in rows
    ensures HasTicket(rows, rows[a].ticket)
  {
  }

  lemma SameTickets(rows: map<int, TradeRow>, rows': map<int, TradeRow>, t: int)
    requires rows'.Keys == rows.Keys && forall a :: a in rows ==> rows'[a].ticket == rows[a].ticket
    ensures HasTicket(rows', t) == HasTicket(rows, t)
  {
    if HasTicket(rows, t) {
      var a :| a in rows && rows[a].ticket == t;
      assert a in rows' && rows'[a].ticket == t;
    }
    if HasTicket(rows', t) {
      var a :| a in rows' && rows'[a].ticket == t;
      assert a in rows && rows[a].ticket == t;
    }
  }

  lemma PartialKeeps(b: Book, t: int, half: real, now: int, committed: bool)
    requires Inv(b) && t in b.tracked && Due(b.tracked[t], now) && t in b.volumes
    requires 0.0 < half < b.volumes[t] && RoundedHalf(half, b.volumes[t])
    ensures Follows(b, t) && Inv(PartialDone(b, t, half, now, committed))
    ensures Advances(b.rows, PartialDone(b, t, half, now, committed).rows)
  {
    hide NoneEarly, AllBacked, Remembers, Accounted, Advances;
    RecordedOpen(b, t);
    PartialEarly(b, t, half, now, committed);
    PartialBacked(b, t, half, now, committed);
    PartialRemembers(b, t, half, now, committed);
    PartialAccounted(b, t, half, now, committed);
    PartialAdvances(b, t, half, now, committed);
    var b' := PartialDone(b, t, half, now, committed);
    forall s | s in b'.tracked ensures Follows(b', s) {
      assert Follows(b, s);
    }
  }

  // ---------- a final close ----------

  /** The final close was written; only a committed write lets go of the ticket. */
  function FinalDone(b: Book, t: int, committed: bool): Book
    requires t in b.tracked && b.tracked[t].tradeId in b.rows && t in b.closes
  {
    var a := b.tracked[t].tradeId;
    var row := b.rows[a].(status := Closed, close := Some(b.closes[t]));
    b.(tracked := if committed then b.tracked - {t} else b.tracked, writes := b.writes + [Write(row, committed)],
       rows := if committed then b.rows[a := row] else b.rows)
  }

  lemma FinalAccounted(b: Book, t: int, committed: bool)
    requires Inv(b) && t in b.tracked && t in b.closes
    ensures Follows(b, t) && Accounted(FinalDone(b, t, committed))
  {
    hide Executions, Writes, HasTicket;
    assert Follows(b, t);
    var b', a := FinalDone(b, t, committed), b.tracked[t].tradeId;
    var w := b'.writes[|b.writes|];
    forall s ensures Tally(b', s) {
      assert Tally(b, s);
      WritesAppend(b.writes, w, s, PartialClosed, true);
      WritesAppend(b.writes, w, s, PartialClosed, false);
      WritesAppend(b.writes, w, s, Closed, true);
      SameTickets(b.rows, b'.rows, s);
      if s == t { TicketAt(b.rows, a); }
    }
  }

  lemma FinalKeeps(b: Book, t: int, committed: bool)
    requires Inv(b) && t in b.tracked && t in b.closes
    ensures Follows(b, t) && Inv(FinalDone(b, t, committed)) && Advances(b.rows, FinalDone(b, t, committed).rows)
  {
    hide HasRow, Backed, Executions, Accounted;
    assert Follows(b, t);
    FinalAccounted(b, t, committed);
    var b', a := FinalDone(b, t, committed), b.tracked[t].tradeId;
    forall x | x in b'.rows ensures Backed(b'.executed, b'.rows[x]) {
      SameBacking(b.executed, b.rows[x], b'.rows[x]);
    }
    forall s | s in b'.tracked ensures Follows(b', s) && RemembersTicket(b', s) {
      assert Follows(b, s) && RemembersTicket(b, s);
    }
    forall i | 0 <= i < |b'.executed| ensures HasRow(b'.rows, b'.executed[i]) {
      RowStays(b.rows, b'.rows, b.executed[i]);
    }
  }

  lemma SameBacking(executed: seq<Execution>, row: TradeRow, row': TradeRow)
    requires Backed(executed, row) && row'.ticket == row.ticket && row'.partialVolume == row.partialVolume
    requires row'.status == row.status || row'.status == Closed
    ensures Backed(executed, row')
  {
  }

  // ---------- a new trade ----------

  function Registered(b: Book, t: int, a: int, entryTime: int): Book {
    b.(tracked := b.tracked[t := Info(a, entryTime, false)],
       rows := b.rows[a := TradeRow(t, entryTime, Open, None, None)])
  }

  predicate FreshTicket(b: Book, t: int) {
    (t in b.volumes || t in b.closes) && !HasTicket(b.rows, t)
  }

  /** Following a newly recorded trade keeps every invariant exactly when no other row has its ticket and the broker
      knows it. */
  lemma RegisterKeeps(b: Book, t: int, a: int, entryTime: int)
    requires Inv(b) && a !in b.rows
    ensures Advances(b.rows, Registered(b, t, a, entryTime).rows)
    ensures Inv(Registered(b, t, a, entryTime)) <==> FreshTicket(b, t)
  {
    hide Inv;
    var b' := Registered(b, t, a, entryTime);
    if FreshTicket(b, t) { RegisterFresh(b, t, a, entryTime); }
    if Inv(b') { RegisteredFresh(b, t, a, entryTime); }
  }

  lemma RegisteredFresh(b: Book, t: int, a: int, entryTime: int)
    requires Inv(b) && a !in b.rows && Inv(Registered(b, t, a, entryTime))
    ensures FreshTicket(b, t)
  {
    hide NoneEarly, AllBacked, Remembers, Accounted;
    var b' := Registered(b, t, a, entryTime);
    assert b'.rows[a].ticket == t && forall x :: x in b.rows ==> x in b'.rows && b'.rows[x] == b.rows[x];
  }

  lemma RegisterFresh(b: Book, t: int, a: int, entryTime: int)
    requires Inv(b) && a !in b.rows && FreshTicket(b, t)
    ensures Inv(Registered(b, t, a, entryTime))
  {
    hide HasRow, Backed, Accounted, Remembers;
    var b' := Registered(b, t, a, entryTime);
    forall s | s in b'.tracked ensures Follows(b', s) {
      if s != t { assert Follows(b, s); }
    }
    forall i | 0 <= i < |b'.executed| ensures HasRow(b'.rows, b'.executed[i]) {
      RowStays(b.rows, b'.rows, b.executed[i]);
    }
    NewRowBacked(b.executed, b'.rows[a]);
    RegisterAccounted(b, t, a, entryTime);
  }

  lemma RegisterAccounted(b: Book, t: int, a: int, entryTime: int)
    requires Inv(b) && a !in b.rows && FreshTicket(b, t)
    ensures Accounted(Registered(b, t, a, entryTime)) && Remembers(Registered(b, t, a, entryTime))
  {
    hide Executions, Writes;
    var b' := Registered(b, t, a, entryTime);
    forall s ensures Tally(b', s) {
      assert Tally(b, s);
      if HasTicket(b.rows, s) {
        var x :| x in b.rows && b.rows[x].ticket == s;
        assert x in b'.rows && b'.rows[x].ticket == s;
      }
      if s == t { TicketAt(b'.rows, a); }
    }
    forall s | s in b'.tracked ensures RemembersTicket(b', s) {
      if s != t { assert RemembersTicket(b, s) && Follows(b, s); }
    }
  }

  lemma NewRowBacked(executed: seq<Execution>, row: TradeRow)
    requires row.partialVolume.None? && row.status == Open
    ensures Backed(executed, row)
  {
  }

  /** Registering a ticket a second time forgets its partial close: it is due again from the new entry's 17:00 on. */
  lemma RegisterAgain(b: Book, t: int, a: int, entryTime: int, now: int)
    requires t in b.tracked && b.tracked[t].partialClosed
    ensures !Due(b.tracked[t], now)
    ensures Due(Registered(b, t, a, entryTime).tracked[t], now) <==> now >= Threshold(entryTime)
  {
  }

  // ---------- restart ----------

  ghost predicate DistinctTickets(rows: map<int, TradeRow>) {
    forall a, a' :: a in rows && a' in rows && rows[a].ticket == rows[a'].ticket ==> a == a'
  }

  function InfoOf(a: int, row: TradeRow): Info {
    Info(a, row.entryTime, row.status == PartialClosed)
  }

  /** The memory of a new process: some row that is not closed for every ticket that has one. */
  ghost predicate LoadedFrom(tracked: map<int, Info>, rows: map<int, TradeRow>) {
    && (forall t :: t in tracked ==>
          && tracked[t].tradeId in rows
          && var row := rows[tracked[t].tradeId];
             row.ticket == t && row.status != Closed && tracked[t] == InfoOf(tracked[t].tradeId, row))
    && (forall a :: a in rows && rows[a].status != Closed ==> rows[a].ticket in tracked)
  }

  /** With tickets distinct, each row that is not closed is the one followed. */
  ghost predicate Rebuilt(tracked: map<int, Info>, rows: map<int, TradeRow>) {
    && LoadedFrom(tracked, rows)
    && (forall a :: a in rows && rows[a].status != Closed ==>
          rows[a].ticket in tracked && tracked[rows[a].ticket].tradeId == a)
  }

  /** A restart keeps everything, follows the same tickets, and remembers exactly the partial closes recorded. */
  lemma RestartKeeps(b: Book, tracked: map<int, Info>)
    requires Inv(b) && Rebuilt(tracked, b.rows)
    ensures Inv(b.(tracked := tracked)) && tracked.Keys == b.tracked.Keys
    ensures forall t :: t in tracked ==>
              && Follows(b, t) && tracked[t].tradeId == b.tracked[t].tradeId
              && tracked[t].entryTime == b.tracked[t].entryTime
              && (tracked[t].partialClosed <==> b.rows[tracked[t].tradeId].status == PartialClosed)
  {
    hide Executions, Accounted, HasTicket, NoneEarly;
    var b' := b.(tracked := tracked);
    assert NoneEarly(b') by { SameEarly(b, b'); }
    assert AllBacked(b');
    assert Accounted(b') by { SameTally(b, b'); }
    forall t | t in b.tracked ensures t in tracked && tracked[t].tradeId == b.tracked[t].tradeId {
      assert Follows(b, t) && b.rows[b.tracked[t].tradeId].ticket in tracked;
    }
    forall t | t in tracked ensures t in b.tracked && Follows(b, t) && Follows(b', t) && RemembersTicket(b', t) {
      var a := tracked[t].tradeId;
      assert b.rows[a].ticket == t && b.rows[a].status != Closed;
      assert Follows(b, t) && Backed(b.executed, b.rows[a]);
      if tracked[t].partialClosed {
        var i :| 0 <= i < |b.executed| && b.executed[i].ticket == t
                 && b.executed[i].closed == b.rows[a].partialVolume.value;
        ExecutionsIndex(b.executed, t);
      }
    }
    assert forall t :: t in tracked.Keys <==> t in b.tracked.Keys;
  }

  lemma SameTally(b: Book, b': Book)
    requires b' == b.(tracked := b'.tracked) && Accounted(b)
    ensures Accounted(b')
  {
    hide Executions, Writes;
    forall t ensures Tally(b', t) {
      assert Tally(b, t);
    }
  }

  /** The memory knows of every partial close of the tickets it follows, as it does within one process. */
  ghost predicate KnowsAll(b: Book) {
    forall t :: t in b.tracked && Executions(b.executed, t) > 0 ==> b.tracked[t].partialClosed
  }

  /** The table shows every partial close that the broker carried out on a position not yet closed. */
  ghost predicate AllRecorded(b: Book) {
    forall a :: a in b.rows && b.rows[a].status == Open ==> Executions(b.executed, b.rows[a].ticket) == 0
  }

  /** After a restart the memory knows of every partial close exactly when none went unrecorded. */
  lemma RestartKnows(b: Book, tracked: map<int, Info>)
    requires Inv(b) && Rebuilt(tracked, b.rows)
    ensures KnowsAll(b.(tracked := tracked)) <==> AllRecorded(b)
  {
    hide Executions;
    RestartKeeps(b, tracked);
    if KnowsAll(b.(tracked := tracked)) {
      forall a | a in b.rows && b.rows[a].status == Open ensures Executions(b.executed, b.rows[a].ticket) == 0 {
        assert b.rows[a].ticket in tracked;
      }
    }
    if AllRecorded(b) {
      forall t | t in tracked && Executions(b.executed, t) > 0 ensures tracked[t].partialClosed {
        assert Follows(b, t);
        assert b.rows[tracked[t].tradeId].status != Open;
      }
    }
  }
}
