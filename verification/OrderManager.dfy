/** One subscriber's order manager for one day: pending orders race, the first detected fill wins, siblings are
    cancelled or, when they filled too, closed. */
module OrderManagement {
  import opened Market
  import opened Brokers

  datatype Pending = Pending(key: Key, ticket: int, side: Side, entry: real, stop: real)

  datatype Reason = SiblingFilled | DayEnd

  datatype OrderEvent =
    | SkippedPaused
    | PlacementFailed(key: Key)
    | Placed(ticket: int)
    | CandidateFilled(ticket: int)
    | Cancelled(ticket: int, reason: Reason)
    | DuplicateClosed(ticket: int)
    | CancelSiblingFailed(ticket: int)
    | DuplicateCloseFailed(ticket: int)
    | CancelDayEndFailed(ticket: int)
    | RealClosed(ticket: int)

  /** What became of an order that reached the broker: `Vanished` was dropped as gone, `Raced` was dropped while its
      position was open, `Unrecorded` was accepted but the reply was lost. */
  datatype Fate = Waiting | Won | Ended(how: OrderEvent) | Vanished | Raced | Unrecorded

  function Tickets(pending: seq<Pending>): (r: set<int>)
    ensures forall t :: t in r <==> exists k :: 0 <= k < |pending| && pending[k].ticket == t
  {
    set p | p in pending :: p.ticket
  }

  predicate HasKey(pending: seq<Pending>, key: Key) {
    exists p :: p in pending && p.key == key
  }

  /** No two orders share a ticket or a candidate. */
  ghost predicate DistinctOrders(pending: seq<Pending>) {
    forall x, y :: 0 <= x < y < |pending| ==>
      pending[x].ticket != pending[y].ticket && pending[x].key != pending[y].key
  }

  /** The end of a ticket's story that a journal entry may record. */
  predicate IsEnding(e: OrderEvent, ticket: int) {
    match e
    case Cancelled(t, _) => t == ticket
    case DuplicateClosed(t) => t == ticket
    case CancelSiblingFailed(t) => t == ticket
    case DuplicateCloseFailed(t) => t == ticket
    case CancelDayEndFailed(t) => t == ticket
    case _ => false
  }

  /** How often the journal ends a ticket's story. */
  function Endings(log: seq<OrderEvent>, t: int): nat {
    if log == [] then 0 else Endings(log[..|log| - 1], t) + if IsEnding(log[|log| - 1], t) then 1 else 0
  }

  /** How often the journal reports a ticket as filled. */
  function Wins(log: seq<OrderEvent>, t: int): nat {
    if log == [] then 0 else Wins(log[..|log| - 1], t) + if log[|log| - 1] == CandidateFilled(t) then 1 else 0
  }

  lemma LogAppend(log: seq<OrderEvent>, e: OrderEvent, t: int)
    ensures Endings(log + [e], t) == Endings(log, t) + if IsEnding(e, t) then 1 else 0
    ensures Wins(log + [e], t) == Wins(log, t) + if e == CandidateFilled(t) then 1 else 0
  {
    assert (log + [e])[..|log|] == log;
  }

  /** Everything the accounting speaks about: the manager's journal and fates, the broker's book, the first ticket the
      broker could issue to this manager, and the tickets on which a call failed for a reason other than the
      broker's state. */
  datatype Ledger = Ledger(first: int, fate: map<int, Fate>, log: seq<OrderEvent>,
                           orders: set<int>, positions: set<int>, next: int, failed: set<int>)

  /** Every order the broker issued to this manager has one fate; the fates agree with the broker's book, the winner,
      the waiting set and the journal. */
  ghost predicate Consistent(l: Ledger, w: Option<int>, waiting: set<int>) {
    && BookValid(l.orders, l.positions, l.next) && l.first <= l.next
    && waiting <= l.fate.Keys && l.failed <= l.fate.Keys
    && (forall t :: t in l.fate <==> l.first <= t < l.next)
    && (forall t :: t in l.fate ==> FateFits(l, w, waiting, t))
    && (w.Some? ==> w.value in l.fate)
    && (forall t :: Endings(l.log, t) == if t in l.fate && l.fate[t].Ended? then 1 else 0)
    && (forall t :: Wins(l.log, t) == if w == Some(t) then 1 else 0)
  }

  /** An order whose story has ended is gone from the broker: unless a call on it failed it is no pending order, and no
      position either unless its day-end cancel came too late. */
  ghost predicate FateFits(l: Ledger, w: Option<int>, waiting: set<int>, t: int)
    requires t in l.fate
  {
    match l.fate[t]
    case Waiting => t in waiting && w != Some(t) && t !in l.failed
    case Won => w == Some(t) && t !in waiting && t !in l.orders && t !in l.failed
    case Ended(how) =>
      && t !in waiting && w != Some(t) && IsEnding(how, t) && how in l.log
      && (t in l.orders ==> t in l.failed)
      && (t in l.positions ==> how == CancelDayEndFailed(t) || t in l.failed)
    case Vanished => t !in waiting && w != Some(t) && t !in l.orders && t !in l.positions && t !in l.failed
    case Raced => t !in waiting && w != Some(t) && t !in l.orders && t !in l.failed
    case Unrecorded => t !in waiting && w != Some(t) && t in l.failed
  }

  lemma BookIsValid(l: Ledger, w: Option<int>, waiting: set<int>)
    requires Consistent(l, w, waiting)
    ensures BookValid(l.orders, l.positions, l.next) && waiting <= l.fate.Keys && l.first <= l.next
    ensures forall t :: t in l.fate <==> l.first <= t < l.next
    ensures forall t :: t in l.fate ==> (l.fate[t] == Waiting <==> t in waiting)
  {
    assert forall t :: t in l.fate ==> FateFits(l, w, waiting, t);
  }

  lemma MoveKeeps(l: Ledger, w: Option<int>, waiting: set<int>, m: Move)
    requires Consistent(l, w, waiting)
    ensures Consistent(l.(orders := OrdersAfter(l.orders, m), positions := PositionsAfter(l.orders, l.positions, m)),
                       w, waiting)
  {
    hide Endings, Wins;
    var l' := l.(orders := OrdersAfter(l.orders, m), positions := PositionsAfter(l.orders, l.positions, m));
    forall t | t in l.fate ensures FateFits(l', w, waiting, t) {
      assert FateFits(l, w, waiting, t);
    }
  }

  /** The broker has issued the next ticket; the manager may or may not know it. */
  lemma PlaceKeeps(l: Ledger, waiting: set<int>, e: OrderEvent, known: bool)
    requires Consistent(l, None, waiting)
    requires !e.CandidateFilled? && forall t :: !IsEnding(e, t)
    ensures Consistent(l.(fate := l.fate[l.next := if known then Waiting else Unrecorded], log := l.log + [e],
                          orders := l.orders + {l.next}, next := l.next + 1,
                          failed := if known then l.failed else l.failed + {l.next}),
                       None, if known then waiting + {l.next} else waiting)
  {
    hide Endings, Wins;
    var t0 := l.next;
    var l' := l.(fate := l.fate[t0 := if known then Waiting else Unrecorded], log := l.log + [e],
                 orders := l.orders + {t0}, next := t0 + 1,
                 failed := if known then l.failed else l.failed + {t0});
    var waiting' := if known then waiting + {t0} else waiting;
    forall t | t in l'.fate ensures FateFits(l', None, waiting', t) {
      if t in l.fate { assert FateFits(l, None, waiting, t); }
    }
    forall t
      ensures Endings(l'.log, t) == (if t in l'.fate && l'.fate[t].Ended? then 1 else 0) && Wins(l'.log, t) == 0
    {
      LogAppend(l.log, e, t);
    }
  }

  lemma NoteKeeps(l: Ledger, w: Option<int>, waiting: set<int>, e: OrderEvent)
    requires Consistent(l, w, waiting) && !e.CandidateFilled? && forall t :: !IsEnding(e, t)
    ensures Consistent(l.(log := l.log + [e]), w, waiting)
  {
    hide Endings, Wins;
    var l' := l.(log := l.log + [e]);
    forall t | t in l.fate ensures FateFits(l', w, waiting, t) {
      assert FateFits(l, w, waiting, t);
    }
    forall t ensures Endings(l'.log, t) == Endings(l.log, t) && Wins(l'.log, t) == Wins(l.log, t) {
      LogAppend(l.log, e, t);
    }
  }

  /** A waiting order's story ends with event e, after the calls and moves that led there. */
  lemma EndKeeps(l: Ledger, w: Option<int>, waiting: set<int>, ticket: int, e: OrderEvent,
                 orders: set<int>, positions: set<int>, failed: bool)
    requires Consistent(l, w, waiting) && ticket in waiting && IsEnding(e, ticket)
    requires orders <= l.orders && positions <= l.positions + (l.orders - orders)
    requires ticket in orders ==> failed
    requires ticket in positions ==> e == CancelDayEndFailed(ticket) || failed
    ensures Consistent(l.(fate := l.fate[ticket := Ended(e)], log := l.log + [e], orders := orders,
                          positions := positions, failed := l.failed + if failed then {ticket} else {}),
                       w, waiting - {ticket})
  {
    hide Endings, Wins;
    var l' := l.(fate := l.fate[ticket := Ended(e)], log := l.log + [e], orders := orders, positions := positions,
                 failed := l.failed + if failed then {ticket} else {});
    assert FateFits(l, w, waiting, ticket);
    forall t | t in l'.fate ensures FateFits(l', w, waiting - {ticket}, t) {
      assert FateFits(l, w, waiting, t);
    }
    forall t ensures Endings(l'.log, t) == if t in l'.fate && l'.fate[t].Ended? then 1 else 0 {
      LogAppend(l.log, e, t);
    }
    forall t ensures Wins(l'.log, t) == Wins(l.log, t) {
      LogAppend(l.log, e, t);
    }
  }

  /** An order is dropped that is no longer pending; it raced if its position is open. */
  lemma DropKeeps(l: Ledger, waiting: set<int>, ticket: int)
    requires Consistent(l, None, waiting) && ticket in waiting && ticket !in l.orders
    ensures Consistent(l.(fate := l.fate[ticket := if ticket in l.positions then Raced else Vanished]),
                       None, waiting - {ticket})
  {
    hide Endings, Wins;
    var l' := l.(fate := l.fate[ticket := if ticket in l.positions then Raced else Vanished]);
    assert FateFits(l, None, waiting, ticket);
    forall t | t in l'.fate ensures FateFits(l', None, waiting - {ticket}, t) {
      assert FateFits(l, None, waiting, t);
    }
  }

  lemma WinKeeps(l: Ledger, waiting: set<int>, ticket: int)
    requires Consistent(l, None, waiting) && ticket in waiting && ticket !in l.orders
    ensures Consistent(l.(fate := l.fate[ticket := Won], log := l.log + [CandidateFilled(ticket)]),
                       Some(ticket), waiting - {ticket})
  {
    hide Endings, Wins;
    var l' := l.(fate := l.fate[ticket := Won], log := l.log + [CandidateFilled(ticket)]);
    assert FateFits(l, None, waiting, ticket);
    forall t | t in l'.fate ensures FateFits(l', Some(ticket), waiting - {ticket}, t) {
      assert FateFits(l, None, waiting, t);
    }
    forall t ensures Endings(l'.log, t) == Endings(l.log, t) && Wins(l'.log, t) == if t == ticket then 1 else 0 {
      LogAppend(l.log, CandidateFilled(ticket), t);
    }
  }

  // ---------- what can happen around the calls ----------

  /** What happens while one sibling is got rid of: the broker's own moves before each call, and the calls' fortunes. */
  datatype Sibling = Sibling(beforeCancel: Move, cancel: Line, beforeRead: Move, readFails: bool,
                             beforeClose: Move, close: Line)

  predicate CleanSibling(s: Sibling) {
    s.cancel.Clear? && !s.readFails && s.close.Clear?
  }

  /** What dealing with one sibling, or several, leaves: the journal entries, the broker's book, and the tickets on
      which a call failed. */
  datatype Dealt = Dealt(events: seq<OrderEvent>, orders: set<int>, positions: set<int>, failed: set<int>)

  /** One sibling is cancelled; when that fails and it turns out to have a position, the position is closed. */
  function DealWith(orders: set<int>, positions: set<int>, ticket: int, s: Sibling): Dealt {
    var o1, p1 := OrdersAfter(orders, s.beforeCancel), PositionsAfter(orders, positions, s.beforeCancel);
    if s.cancel.Clear? && ticket in o1 then Dealt([Cancelled(ticket, SiblingFilled)], o1 - {ticket}, p1, {})
    else
      var o2 := if s.cancel.Dropped? then o1 else o1 - {ticket};
      var o3, p3 := OrdersAfter(o2, s.beforeRead), PositionsAfter(o2, p1, s.beforeRead);
      if s.readFails || ticket !in p3 then
        Dealt([CancelSiblingFailed(ticket)], o3, p3, if s.cancel.Clear? && !s.readFails then {} else {ticket})
      else
        var o4, p4 := OrdersAfter(o3, s.beforeClose), PositionsAfter(o3, p3, s.beforeClose);
        var e := if s.close.Clear? && ticket in p4 then DuplicateClosed(ticket) else DuplicateCloseFailed(ticket);
        Dealt([e], o4, if s.close.Dropped? then p4 else p4 - {ticket},
              if s.cancel.Clear? && s.close.Clear? then {} else {ticket})
  }

  /** Unless one of the calls made for it fails the sibling is neither an order nor a position any more, whatever the
      broker did meanwhile. */
  lemma SiblingGone(orders: set<int>, positions: set<int>, ticket: int, s: Sibling)
    requires orders !! positions
    ensures var d := DealWith(orders, positions, ticket, s);
            && (ticket in d.orders || ticket in d.positions ==> d.failed == {ticket})
            && (CleanSibling(s) ==> d.failed == {})
  {
  }

  /** Left alone by the broker and with clear lines, a sibling still pending is cancelled, one with a position is
      closed, and one that is neither is reported. */
  lemma Undisturbed(orders: set<int>, positions: set<int>, ticket: int, s: Sibling)
    requires orders !! positions && CleanSibling(s)
    requires !TouchesSibling(s, ticket)
    ensures DealWith(orders, positions, ticket, s).events ==
            [if ticket in orders then Cancelled(ticket, SiblingFilled)
             else if ticket in positions then DuplicateClosed(ticket)
             else CancelSiblingFailed(ticket)]
  {
  }

  /** With failing calls: without a read there is no close; a close is reported only if it went through, and its failure
      only after a read. */
  lemma FailedCalls(orders: set<int>, positions: set<int>, ticket: int, s: Sibling)
    ensures var d := DealWith(orders, positions, ticket, s);
            && (s.readFails && !(s.cancel.Clear? && ticket in OrdersAfter(orders, s.beforeCancel)) ==>
                  d.events == [CancelSiblingFailed(ticket)] && ticket in d.failed)
            && (d.events == [Cancelled(ticket, SiblingFilled)] ==>
                  s.cancel.Clear? && ticket in orders && ticket !in s.beforeCancel.left && ticket !in d.orders)
            && (d.events == [DuplicateClosed(ticket)] ==>
                  !s.readFails && s.close.Clear? && ticket !in d.positions)
            && (d.events == [DuplicateCloseFailed(ticket)] ==>
                  !s.readFails && (!s.close.Clear? || ticket !in d.positions))
  {
  }

  /** Without failing calls none is noted. */
  lemma {:induction false} AllCleanDealt(orders: set<int>, positions: set<int>, todo: seq<Pending>, w: nat, n: nat,
                                         siblings: int -> Sibling)
    requires n <= |todo| && AllClean(siblings)
    ensures DealWithAll(orders, positions, todo, w, n, siblings).failed == {}
  {
    if n > 0 { AllCleanDealt(orders, positions, todo, w, n - 1, siblings); }
  }

  /** The first n waiting orders but for the winner are dealt with in turn. */
  function DealWithAll(orders: set<int>, positions: set<int>, todo: seq<Pending>, w: nat, n: nat,
                       siblings: int -> Sibling): Dealt
    requires n <= |todo|
  {
    if n == 0 then Dealt([], orders, positions, {})
    else
      var before := DealWithAll(orders, positions, todo, w, n - 1, siblings);
      var t := todo[n - 1].ticket;
      if n - 1 == w then before
      else
        var d := DealWith(before.orders, before.positions, t, siblings(t));
        d.(events := before.events + d.events, failed := before.failed + d.failed)
  }

  /** How the story of sibling k ends. */
  function SiblingEnd(orders: set<int>, positions: set<int>, todo: seq<Pending>, w: nat, k: nat,
                      siblings: int -> Sibling): OrderEvent
    requires k < |todo|
  {
    var before := DealWithAll(orders, positions, todo, w, k, siblings);
    var t := todo[k].ticket;
    DealWith(before.orders, before.positions, t, siblings(t)).events[0]
  }

  /** Order `w` has won: the journal, the broker's book and every sibling's end are what dealing with the siblings in
      turn gives. */
  ghost predicate WonBy(l0: Ledger, l: Ledger, todo: seq<Pending>, w: nat, siblings: int -> Sibling)
  {
    && w < |todo|
    && var d := DealWithAll(l0.orders, l0.positions, todo, w, |todo|, siblings);
       && l.orders == d.orders && l.positions == d.positions && l.failed == l0.failed + d.failed
       && l.log == l0.log + [CandidateFilled(todo[w].ticket)] + d.events
       && SiblingsEnded(l0.orders, l0.positions, l.fate, todo, w, |todo|, siblings)
  }

  /** Of the state at the fill it speaks of the journal, the broker's book and the failed calls alone. */
  lemma WonBySame(l0: Ledger, l0': Ledger, l: Ledger, todo: seq<Pending>, w: nat, siblings: int -> Sibling)
    requires WonBy(l0, l, todo, w, siblings) && l0' == l0.(fate := l0'.fate)
    ensures WonBy(l0', l, todo, w, siblings)
  {
  }

  ghost predicate SiblingsEnded(orders: set<int>, positions: set<int>, fate: map<int, Fate>, todo: seq<Pending>,
                                w: nat, n: nat, siblings: int -> Sibling)
    requires n <= |todo|
  {
    forall k :: 0 <= k < n && k != w ==>
      todo[k].ticket in fate
      && fate[todo[k].ticket] == Ended(SiblingEnd(orders, positions, todo, w, k, siblings))
  }

  lemma AllEnded(orders: set<int>, positions: set<int>, fate: map<int, Fate>, todo: seq<Pending>, w: nat,
                 siblings: int -> Sibling)
    requires w < |todo| && SiblingsEnded(orders, positions, fate, todo, w, |todo|, siblings)
    ensures forall t :: t in Tickets(todo) && t != todo[w].ticket ==> t in fate && fate[t].Ended?
  {
  }

  lemma DealWithNone(orders: set<int>, positions: set<int>, fate: map<int, Fate>, todo: seq<Pending>, w: nat,
                     siblings: int -> Sibling)
    ensures DealWithAll(orders, positions, todo, w, 0, siblings) == Dealt([], orders, positions, {})
    ensures SiblingsEnded(orders, positions, fate, todo, w, 0, siblings)
  {
  }

  /** One more sibling has been dealt with. */
  lemma DealWithNext(orders: set<int>, positions: set<int>, fate: map<int, Fate>, todo: seq<Pending>, w: nat, k: nat,
                     siblings: int -> Sibling)
    requires k < |todo| && k != w && DistinctOrders(todo)
    requires SiblingsEnded(orders, positions, fate, todo, w, k, siblings)
    ensures var before := DealWithAll(orders, positions, todo, w, k, siblings);
            var t := todo[k].ticket;
            var d := DealWith(before.orders, before.positions, t, siblings(t));
            && d.events != []
            && DealWithAll(orders, positions, todo, w, k + 1, siblings) ==
               d.(events := before.events + d.events, failed := before.failed + d.failed)
            && SiblingsEnded(orders, positions, fate[t := Ended(d.events[0])], todo, w, k + 1, siblings)
  {
    hide DealWith, SiblingEnd, SiblingsEnded;
    Dealing(todo, w, k, orders, positions, siblings);
    EndsOneMore(orders, positions, fate, todo, w, k, siblings);
  }

  lemma EndsOneMore(orders: set<int>, positions: set<int>, fate: map<int, Fate>, todo: seq<Pending>, w: nat, k: nat,
                    siblings: int -> Sibling)
    requires k < |todo| && k != w && DistinctOrders(todo)
    requires SiblingsEnded(orders, positions, fate, todo, w, k, siblings)
    ensures SiblingsEnded(orders, positions,
                          fate[todo[k].ticket := Ended(SiblingEnd(orders, positions, todo, w, k, siblings))],
                          todo, w, k + 1, siblings)
  {
    hide SiblingEnd;
  }

  lemma Dealing(todo: seq<Pending>, w: nat, k: nat, orders: set<int>, positions: set<int>, siblings: int -> Sibling)
    requires k < |todo|
    ensures var before := DealWithAll(orders, positions, todo, w, k, siblings);
            var d := DealWith(before.orders, before.positions, todo[k].ticket, siblings(todo[k].ticket));
            |d.events| == 1 && SiblingEnd(orders, positions, todo, w, k, siblings) == d.events[0]
  {
  }

  lemma SkipWinner(orders: set<int>, positions: set<int>, fate: map<int, Fate>, todo: seq<Pending>, w: nat,
                   siblings: int -> Sibling)
    requires w < |todo| && SiblingsEnded(orders, positions, fate, todo, w, w, siblings)
    ensures DealWithAll(orders, positions, todo, w, w + 1, siblings) ==
            DealWithAll(orders, positions, todo, w, w, siblings)
    ensures SiblingsEnded(orders, positions, fate, todo, w, w + 1, siblings)
  {
  }

  /** The first waiting order that the two reads show as filled: gone from the pending orders, present as a position. */
  function FirstFilled(pending: seq<Pending>, positions: set<int>, orders: set<int>): (w: nat)
    ensures w <= |pending|
    ensures w < |pending| ==> pending[w].ticket !in orders && pending[w].ticket in positions
    ensures forall x :: 0 <= x < w ==> pending[x].ticket in orders || pending[x].ticket !in positions
  {
    if pending == [] then 0
    else if pending[0].ticket !in orders && pending[0].ticket in positions then 0
    else
      var w := FirstFilled(pending[1..], positions, orders);
      assert forall x :: 0 < x < |pending| ==> pending[x] == pending[1..][x - 1];
      w + 1
  }

  lemma FirstFilledIs(pending: seq<Pending>, positions: set<int>, orders: set<int>, w: nat)
    requires w <= |pending|
    requires w < |pending| ==> pending[w].ticket !in orders && pending[w].ticket in positions
    requires forall x :: 0 <= x < w ==> pending[x].ticket in orders || pending[x].ticket !in positions
    ensures FirstFilled(pending, positions, orders) == w
  {
    var v := FirstFilled(pending, positions, orders);
    var a, b := if v < |pending| then pending[v].ticket else 0, if w < |pending| then pending[w].ticket else 0;
  }

  predicate NoneFilled(pending: seq<Pending>, k: nat, positions: set<int>, orders: set<int>) {
    k <= |pending| && forall x :: 0 <= x < k ==> pending[x].ticket in orders || pending[x].ticket !in positions
  }

  lemma NoneFilledStep(pending: seq<Pending>, k: nat, positions: set<int>, orders: set<int>)
    ensures NoneFilled(pending, 0, positions, orders)
    ensures NoneFilled(pending, k, positions, orders) && k < |pending|
            && (pending[k].ticket in orders || pending[k].ticket !in positions) ==>
              NoneFilled(pending, k + 1, positions, orders)
  {
  }

  lemma FirstFilledFrom(pending: seq<Pending>, positions: set<int>, orders: set<int>, w: nat)
    requires NoneFilled(pending, w, positions, orders)
    requires w < |pending| ==> pending[w].ticket !in orders && pending[w].ticket in positions
    ensures FirstFilled(pending, positions, orders) == w
  {
    FirstFilledIs(pending, positions, orders, w);
  }

  /** The orders that the second read still shows as pending. */
  function StillPending(pending: seq<Pending>, orders: set<int>): seq<Pending> {
    if pending == [] then []
    else
      var rest := StillPending(pending[..|pending| - 1], orders);
      var p := pending[|pending| - 1];
      if p.ticket in orders then rest + [p] else rest
  }

  /** The first k orders after a scan: a pending one still waits, or was ended because another won; a gone one was
      dropped, and raced if its position is open. */
  ghost predicate Settled(fate: map<int, Fate>, items: seq<Pending>, k: nat, orders: set<int>, positions: set<int>) {
    k <= |items| && forall x :: 0 <= x < k ==> Scanned(fate, items[x].ticket, orders, positions)
  }

  predicate Scanned(fate: map<int, Fate>, t: int, orders: set<int>, positions: set<int>) {
    t in fate && if t in orders then fate[t] == Waiting || fate[t].Ended?
                 else fate[t] == if t in positions then Raced else Vanished
  }

  ghost predicate AllClean(siblings: int -> Sibling) {
    forall t :: CleanSibling(siblings(t))
  }

  /** The broker's book shows t as it did before. */
  predicate SameStanding(t: int, orders: set<int>, positions: set<int>, orders': set<int>, positions': set<int>) {
    (t in orders' <==> t in orders) && (t in positions' <==> t in positions)
  }

  /** What happens around one cancel at the end of the day. */
  datatype DayEndCall = DayEndCall(before: Move, line: Line)

  /** Order k is still pending when its turn to be cancelled comes. */
  predicate PendingAtCancel(orders: set<int>, todo: seq<Pending>, k: nat, env: int -> DayEndCall)
    requires k < |todo|
  {
    todo[k].ticket in orders && forall m :: 0 <= m <= k ==> todo[k].ticket !in env(todo[m].ticket).before.left
  }

  /** How the story of waiting order k ends with the day: cancelled if the call gets through to an order still pending,
      otherwise reported as a failed cancel. */
  function DayEndFate(orders: set<int>, todo: seq<Pending>, k: nat, env: int -> DayEndCall): Fate
    requires k < |todo|
  {
    var t := todo[k].ticket;
    Ended(if env(t).line.Clear? && PendingAtCancel(orders, todo, k, env) then Cancelled(t, DayEnd)
      else CancelDayEndFailed(t))
  }

  /** The broker's book after the first n day-end cancels, with the moves before each. */
  function BookAfter(orders: set<int>, positions: set<int>, todo: seq<Pending>, n: nat, env: int -> DayEndCall)
    : (set<int>, set<int>)
    requires n <= |todo|
  {
    if n == 0 then (orders, positions)
    else
      var (o, p) := BookAfter(orders, positions, todo, n - 1, env);
      var t, c := todo[n - 1].ticket, env(todo[n - 1].ticket);
      (if c.line.Dropped? then OrdersAfter(o, c.before) else OrdersAfter(o, c.before) - {t},
        PositionsAfter(o, p, c.before))
  }

  /** The journal entries of the first n day-end cancels. */
  function DayEndLog(orders: set<int>, todo: seq<Pending>, n: nat, env: int -> DayEndCall): seq<OrderEvent>
    requires n <= |todo|
  {
    if n == 0 then [] else DayEndLog(orders, todo, n - 1, env) + [DayEndFate(orders, todo, n - 1, env).how]
  }

  /** The first n waiting orders have been cancelled in turn: the journal, the broker's book and their fates. */
  ghost predicate DayEndDone(log: seq<OrderEvent>, orders: set<int>, positions: set<int>, l: Ledger,
                             todo: seq<Pending>, n: nat, env: int -> DayEndCall)
    requires n <= |todo|
  {
    && l.log == log + DayEndLog(orders, todo, n, env)
    && (l.orders, l.positions) == BookAfter(orders, positions, todo, n, env)
    && forall k :: 0 <= k < n ==> todo[k].ticket in l.fate && l.fate[todo[k].ticket] == DayEndFate(orders, todo, k, env)
  }

  lemma DayEndStart(l: Ledger, todo: seq<Pending>, env: int -> DayEndCall)
    ensures DayEndDone(l.log, l.orders, l.positions, l, todo, 0, env)
    ensures BookAfter(l.orders, l.positions, todo, 0, env) == (l.orders, l.positions)
  {
  }

  lemma DayEndNext(log: seq<OrderEvent>, orders: set<int>, positions: set<int>, l: Ledger, l': Ledger,
                   todo: seq<Pending>, k: nat, env: int -> DayEndCall)
    requires k < |todo| && DistinctOrders(todo) && DayEndDone(log, orders, positions, l, todo, k, env)
    requires CancelledOne(l, l', todo[k].ticket, env(todo[k].ticket))
    ensures DayEndDone(log, orders, positions, l', todo, k + 1, env)
  {
    hide PendingAtCancel, BookAfter;
    BookStep(orders, positions, todo, k, env);
  }

  /** One cancel at the end of the day: it succeeds exactly when the call gets through to an order still pending. */
  ghost predicate CancelledOne(l: Ledger, l': Ledger, t: int, c: DayEndCall) {
    var o := OrdersAfter(l.orders, c.before);
    var e := if c.line.Clear? && t in o then Cancelled(t, DayEnd) else CancelDayEndFailed(t);
    l' == l.(fate := l.fate[t := Ended(e)], log := l.log + [e], orders := if c.line.Dropped? then o else o - {t},
             positions := PositionsAfter(l.orders, l.positions, c.before),
             failed := l.failed + if c.line.Clear? then {} else {t})
  }

  /** An order is pending before its cancel exactly when it was at first and no move so far has taken it away. */
  lemma {:induction false} PendingSoFar(orders: set<int>, positions: set<int>, todo: seq<Pending>, n: nat, x: nat,
                                        env: int -> DayEndCall)
    requires n <= x < |todo| && DistinctOrders(todo)
    ensures todo[x].ticket in BookAfter(orders, positions, todo, n, env).0 <==>
              todo[x].ticket in orders && forall m :: 0 <= m < n ==> todo[x].ticket !in env(todo[m].ticket).before.left
  {
    if n > 0 { PendingSoFar(orders, positions, todo, n - 1, x, env); }
  }

  lemma BookStep(orders: set<int>, positions: set<int>, todo: seq<Pending>, k: nat, env: int -> DayEndCall)
    requires k < |todo| && DistinctOrders(todo)
    ensures var (o, p) := BookAfter(orders, positions, todo, k, env);
            var t, c := todo[k].ticket, env(todo[k].ticket);
            && (t in OrdersAfter(o, c.before) <==> PendingAtCancel(orders, todo, k, env))
            && BookAfter(orders, positions, todo, k + 1, env) ==
               (if c.line.Dropped? then OrdersAfter(o, c.before) else OrdersAfter(o, c.before) - {t},
                PositionsAfter(o, p, c.before))
  {
    PendingSoFar(orders, positions, todo, k, k, env);
  }

  /** Move m is the first to take order k away, before its cancel gets there; it fills, and none of the moves up to n
      closes it. */
  predicate FillsBeforeCancel(todo: seq<Pending>, k: nat, m: nat, n: nat, env: int -> DayEndCall)
    requires k < |todo| && n <= |todo|
  {
    var t := todo[k].ticket;
    && m < n && (m <= k || env(t).line.Dropped?) && Fills(env(todo[m].ticket).before, t)
    && (forall j :: 0 <= j < m ==> t !in env(todo[j].ticket).before.left)
    && (forall j :: m < j < n ==> t !in env(todo[j].ticket).before.closed)
  }

  predicate Fills(m: Move, t: int) {
    t in m.left && t in m.filled
  }

  /** The day end leaves a waiting order with a position exactly when it had filled already, or fills before a cancel
      gets there, and the position does not close again; it leaves the order pending exactly when nothing took it away
      and its cancel never arrived. */
  lemma {:induction false} LeftAtDayEnd(orders: set<int>, positions: set<int>, todo: seq<Pending>, k: nat, n: nat,
                                        env: int -> DayEndCall)
    requires k < |todo| && n <= |todo| && DistinctOrders(todo) && orders !! positions
    ensures var (o, p) := BookAfter(orders, positions, todo, n, env);
            var t := todo[k].ticket;
            && (t in p <==>
                || (t in positions && forall j :: 0 <= j < n ==> t !in env(todo[j].ticket).before.closed)
                || (t in orders && exists m :: FillsBeforeCancel(todo, k, m, n, env)))
            && (t in o <==>
                && t in orders && (n <= k || env(t).line.Dropped?)
                && forall j :: 0 <= j < n ==> t !in env(todo[j].ticket).before.left)
  {
    if n > 0 {
      LeftAtDayEnd(orders, positions, todo, k, n - 1, env);
      var t := todo[k].ticket;
      var (o, p) := BookAfter(orders, positions, todo, n - 1, env);
      var move := env(todo[n - 1].ticket).before;
      if t in p && t !in move.closed && t in orders {
        var m: nat :| FillsBeforeCancel(todo, k, m, n - 1, env);
        assert FillsBeforeCancel(todo, k, m, n, env);
      }
      if t in o && Fills(move, t) {
        assert FillsBeforeCancel(todo, k, n - 1, n, env);
      }
      if exists m :: FillsBeforeCancel(todo, k, m, n, env) {
        var m: nat :| FillsBeforeCancel(todo, k, m, n, env);
        if m < n - 1 { assert FillsBeforeCancel(todo, k, m, n - 1, env); }
      }
    }
  }

  /** What the day end does not touch: tickets of others that no move takes away, closes or fills. */
  lemma {:induction false} DayEndBystander(orders: set<int>, positions: set<int>, todo: seq<Pending>, n: nat,
                                           env: int -> DayEndCall, t: int)
    requires n <= |todo| && forall m :: 0 <= m < n ==> todo[m].ticket != t && !Touches(env(todo[m].ticket).before, t)
    ensures var (o, p) := BookAfter(orders, positions, todo, n, env);
            SameStanding(t, orders, positions, o, p)
  {
    if n > 0 { DayEndBystander(orders, positions, todo, n - 1, env, t); }
  }

  /** Nor does a fill touch the winner's position or tickets of others that no move takes away, closes or fills. */
  lemma {:induction false} FillBystander(orders: set<int>, positions: set<int>, todo: seq<Pending>, w: nat, n: nat,
                                         siblings: int -> Sibling, t: int)
    requires n <= |todo| && forall m :: 0 <= m < n && m != w ==> todo[m].ticket != t
    requires forall m :: 0 <= m < n ==> !TouchesSibling(siblings(todo[m].ticket), t)
    ensures var d := DealWithAll(orders, positions, todo, w, n, siblings);
            SameStanding(t, orders, positions, d.orders, d.positions)
  {
    if n > 0 { FillBystander(orders, positions, todo, w, n - 1, siblings, t); }
  }

  predicate TouchesSibling(s: Sibling, t: int) {
    Touches(s.beforeCancel, t) || Touches(s.beforeRead, t) || Touches(s.beforeClose, t)
  }

  datatype Op =
    | Candidate(key: Key, side: Side, entry: real, stop: real, paused: bool, before: Move, accepts: bool, line: Line)
    | CheckFills(before: Move, between: Move, readsFail: bool, siblings: int -> Sibling)
    | CheckClose(before: Move, readFails: bool, historyClosed: bool)

  /** No call fails but for the broker's state. */
  ghost predicate Clean(op: Op) {
    match op
    case Candidate(_, _, _, _, _, _, _, line) => line.Clear?
    case CheckFills(_, _, _, siblings) => AllClean(siblings)
    case CheckClose(_, _, _) => true
  }

  /** The two reads of a fill check show the broker at one moment. */
  predicate Snapshot(op: Op) {
    op.CheckFills? ==> op.between == STILL
  }

  /** Everything a manager holds, with the broker's book. */
  datatype State = State(pending: seq<Pending>, winner: Option<int>, closed: bool, book: Ledger)

  /** A new candidate: unless the race is decided, trading is paused or the candidate is known, the broker is asked for
      one order; it is followed if the broker accepts and the reply arrives, and the journal says which. */
  ghost predicate CandidateFits(active: bool, s: State, s': State, op: Op)
    requires op.Candidate?
  {
    var b := s.book;
    && s'.winner == s.winner && s'.closed == s.closed
    && if !active || s.winner.Some? || op.paused || HasKey(s.pending, op.key) then
         && s'.pending == s.pending
         && s'.book == if active && s.winner.None? && op.paused then b.(log := b.log + [SkippedPaused]) else b
       else
         var t, reached, known := b.next, op.accepts && !op.line.Dropped?, op.accepts && op.line.Clear?;
         && s'.pending == (if known then s.pending + [Pending(op.key, t, op.side, op.entry, op.stop)] else s.pending)
         && s'.book == Ledger(b.first,
                              if reached then b.fate[t := if known then Waiting else Unrecorded] else b.fate,
                              b.log + [if known then Placed(t) else PlacementFailed(op.key)],
                              OrdersAfter(b.orders, op.before) + (if reached then {t} else {}),
                              PositionsAfter(b.orders, b.positions, op.before),
                              if reached then t + 1 else t,
                              b.failed + if reached && !known then {t} else {})
  }

  /** A check for fills: nothing without waiting orders or after a fill; otherwise two reads, the first order they show
      as filled wins, and those before it that are gone are dropped. */
  ghost predicate FillsFit(active: bool, s: State, s': State, op: Op, filled: bool)
    requires op.CheckFills?
  {
    var b, b', items := s.book, s'.book, s.pending;
    && s'.closed == s.closed && b'.first == b.first && b'.next == b.next && b'.fate.Keys == b.fate.Keys
    && if !active || items == [] || s.winner.Some? then !filled && s' == s
       else
         var o1, p1 := OrdersAfter(b.orders, op.before), PositionsAfter(b.orders, b.positions, op.before);
         var o2, p2 := OrdersAfter(o1, op.between), PositionsAfter(o1, p1, op.between);
         var w := FirstFilled(items, p1, o2);
         && (filled <==> !op.readsFail && w < |items|)
         && (filled ==>
               var waiting := StillPending(items[..w], o2);
               && s'.winner == Some(items[w].ticket) && s'.pending == [items[w]]
               && WonBy(b.(orders := o2, positions := p2), b', waiting + items[w..], |waiting|, op.siblings))
         && (!filled ==> s'.winner.None? && b' == b.(fate := b'.fate, orders := o2, positions := p2))
         && (op.readsFail ==> s'.pending == items && b'.fate == b.fate)
         && (!op.readsFail && !filled ==> s'.pending == StillPending(items, o2))
         && (!op.readsFail ==> Settled(b'.fate, items, w, o2, p2))
         && (forall t :: t in b.fate && b.fate[t] != Waiting ==> b'.fate[t] == b.fate[t])
         && (AllClean(op.siblings) ==> b'.failed == b.failed)
         && (op.between == STILL ==> forall t :: t in b'.fate && b'.fate[t] == Raced ==> b.fate[t] == Raced)
  }

  /** A check for the close: the winner's is reported once, when the positions can be read, it is gone from them and the
      history confirms it. */
  ghost predicate CloseFits(s: State, s': State, op: Op, reported: bool)
    requires op.CheckClose?
  {
    var b, b' := s.book, s'.book;
    && s'.pending == s.pending && s'.winner == s.winner
    && (s.winner.None? || s.closed ==> !reported && s' == s)
    && (s.winner.Some? && !s.closed ==>
          var p := PositionsAfter(b.orders, b.positions, op.before);
          && (reported <==> !op.readFails && op.historyClosed && s.winner.value !in p)
          && (s'.closed <==> reported)
          && b' == b.(log := if reported then b.log + [RealClosed(s.winner.value)] else b.log,
                      orders := OrdersAfter(b.orders, op.before), positions := p))
  }

  ghost predicate OpFits(active: bool, s: State, s': State, op: Op) {
    match op
    case Candidate(_, _, _, _, _, _, _, _) => CandidateFits(active, s, s', op)
    case CheckFills(_, _, _, _) => FillsFit(active, s, s', op, true) || FillsFit(active, s, s', op, false)
    case CheckClose(_, _, _) => CloseFits(s, s', op, true) || CloseFits(s, s', op, false)
  }

  /** The end of the day: nothing is left waiting, each waiting order ends as DayEndFate says, and the broker's book is
      what the cancels and the moves before them leave; a decided race is left alone. */
  ghost predicate DayEndFits(s: State, s': State, env: int -> DayEndCall) {
    var b, b', todo := s.book, s'.book, s.pending;
    && s'.pending == [] && s'.winner == s.winner && s'.closed == s.closed
    && b'.first == b.first && b'.next == b.next && b'.fate.Keys == b.fate.Keys
    && (s.winner.Some? ==> b' == b)
    && (s.winner.None? ==>
          && DayEndDone(b.log, b.orders, b.positions, b', todo, |todo|, env)
          && (forall t :: t in b.fate && t !in Tickets(todo) ==> b'.fate[t] == b.fate[t]))
    && ((forall t :: env(t).line.Clear?) ==> b'.failed == b.failed)
  }

  /** The orders that wait: those of the pending list until one has won. */
  function WaitingOf(s: State): set<int> {
    if s.winner.None? then Tickets(s.pending) else {}
  }

  /** Waiting orders are of different candidates and tickets, the accounting is consistent, and after a fill only the
      winner is left in the pending list. */
  ghost predicate StateValid(s: State) {
    && DistinctOrders(s.pending)
    && Consistent(s.book, s.winner, WaitingOf(s))
    && (s.winner.Some? ==> s.pending == [] || (|s.pending| == 1 && s.pending[0].ticket == s.winner.value))
  }

  /** The states of a day: at the start, after each call, and after the end of the day. */
  ghost predicate Trace(active: bool, states: seq<State>, ops: seq<Op>) {
    && |states| == |ops| + 1
    && states[0].pending == [] && states[0].winner.None? && !states[0].closed && states[0].book.fate == map[]
    && states[0].book.log == [] && states[0].book.failed == {} && states[0].book.first == states[0].book.next
    && (forall k :: 0 <= k < |states| ==> StateValid(states[k]))
    && (forall k :: 0 <= k < |ops| ==> OpFits(active, states[k], states[k + 1], ops[k]))
  }

  /** What becomes of a candidate: of one not known yet, while nothing has won and trading is on, the journal tells
      once, and it joins the waiting orders under the broker's next ticket exactly if the broker accepts and its reply
      arrives; of one that waits already, after a win, or for a manager switched off, nothing changes at all. */
  lemma CandidateMeans(active: bool, s: State, s': State, op: Op)
    requires op.Candidate? && CandidateFits(active, s, s', op)
    ensures active && s.winner.None? && !op.paused && (forall p :: p in s.pending ==> p.key != op.key) ==>
              if op.accepts && op.line.Clear? then
                && s'.pending == s.pending + [Pending(op.key, s.book.next, op.side, op.entry, op.stop)]
                && s'.book.log == s.book.log + [Placed(s.book.next)] && s.book.next in s'.book.orders
              else s'.pending == s.pending && s'.book.log == s.book.log + [PlacementFailed(op.key)]
    ensures (exists p :: p in s.pending && p.key.raid == op.key.raid && p.key.mss == op.key.mss) && !op.paused ==>
              s' == s
    ensures s.winner.Some? || !active ==> s' == s
    ensures active && s.winner.None? && op.paused ==>
              s'.pending == s.pending && s'.book == s.book.(log := s.book.log + [SkippedPaused])
  {
  }

  /** At every moment of a day the waiting orders are of different candidates, and whatever the broker has live under a
      ticket issued to this manager waits here, is the winner's, was cancelled too late or dropped between two reads, or
      had a failing call. */
  lemma AtEveryMoment(active: bool, states: seq<State>, ops: seq<Op>, k: nat, t: int)
    requires Trace(active, states, ops) && k <= |ops|
    ensures var s := states[k];
            && (forall x, y :: 0 <= x < y < |s.pending| ==> s.pending[x].key != s.pending[y].key)
            && (s.book.first <= t < s.book.next && (t in s.book.orders || t in s.book.positions) ==>
                  && t in s.book.fate
                  && (|| (s.winner.None? && exists x :: 0 <= x < |s.pending| && s.pending[x].ticket == t)
                      || s.winner == Some(t)
                      || (t in s.book.positions && s.book.fate[t] == Ended(CancelDayEndFailed(t)))
                      || (t in s.book.positions && s.book.fate[t] == Raced)
                      || t in s.book.failed))
  {
    hide Endings, Wins, OpFits;
    var s := states[k];
    assert StateValid(s);
    if t in s.book.fate { assert FateFits(s.book, s.winner, WaitingOf(s), t); }
  }

  lemma TraceStep(active: bool, states: seq<State>, ops: seq<Op>, k: nat, s: State)
    requires k < |ops| && Trace(active, states, ops[..k]) && OpFits(active, states[k], s, ops[k]) && StateValid(s)
    ensures Trace(active, states + [s], ops[..k + 1])
  {
    hide OpFits, StateValid;
    var states' := states + [s];
    forall m | 0 <= m < k + 1 ensures OpFits(active, states'[m], states'[m + 1], ops[..k + 1][m]) {
      if m < k { assert OpFits(active, states[m], states[m + 1], ops[..k][m]); }
    }
  }

  class OrderManager {
    const active: bool
    const broker: Broker
    var pending: seq<Pending>
    var winner: Option<int>
    var closed: bool
    var log: seq<OrderEvent>
    ghost const first: int           // no order of this manager has an earlier ticket
    ghost var fate: map<int, Fate>   // every order the broker issued to this manager
    ghost var failed: set<int>       // orders on which a call failed for a reason other than the broker's state

    ghost function Book(): Ledger
      reads this, broker
    {
      Ledger(first, fate, log, broker.orders, broker.positions, broker.next, failed)
    }

    ghost function Now(): State
      reads this, broker
    {
      State(pending, winner, closed, Book())
    }

    ghost predicate Valid()
      reads this, broker
    {
      StateValid(Now())
    }

    lemma NowValid()
      requires Valid()
      ensures StateValid(Now())
    {
    }

    /** The account's live orders and positions that come from this manager, as the broker has them. */
    ghost predicate Exposed(t: int)
      reads this, broker
    {
      broker.Live(t) && first <= t < broker.next
    }

    constructor (active: bool, broker: Broker)
      requires broker.Valid()
      ensures Valid() && this.broker == broker && this.active == active && first == broker.next
      ensures pending == [] && winner == None && !closed && fate == map[] && log == [] && failed == {}
    {
      this.active, this.broker := active, broker;
      pending, winner, closed, log := [], None, false, [];
      first, fate, failed := broker.next, map[], {};
    }

    /** The environment's own moves never break the manager's accounting. */
    method Wait(m: Move, ghost w: Option<int>, ghost waiting: set<int>)
      requires Consistent(Book(), w, waiting)
      modifies broker`orders, broker`positions
      ensures Consistent(Book(), w, waiting)
      ensures broker.orders == OrdersAfter(old(broker.orders), m)
      ensures broker.positions == PositionsAfter(old(broker.orders), old(broker.positions), m)
    {
      hide Consistent;
      ghost var l := Book();
      BookIsValid(l, w, waiting);
      broker.Environment(m);
      MoveKeeps(l, w, waiting, m);
    }

    /** Asks the broker for a pending order for a new candidate, unless the race is decided, trading is paused or the
        candidate is known; then the broker is not asked at all. */
    method OnCandidate(key: Key, side: Side, entry: real, stop: real, paused: bool, before: Move, accepts: bool,
        line: Line)
      requires Valid()
      modifies this`pending, this`log, this`fate, this`failed, broker
      ensures Valid()
      ensures CandidateFits(active, old(Now()), Now(), Candidate(key, side, entry, stop, paused, before, accepts, line))
    {
      hide Consistent, Tickets;
      if !active || winner.Some? {
        return;
      }
      if paused {
        NoteKeeps(Book(), None, Tickets(pending), SkippedPaused);
        log := log + [SkippedPaused];
        return;
      }
      if HasKey(pending, key) {
        return;
      }
      Wait(before, None, Tickets(pending));
      ghost var l := Book();
      BookIsValid(l, None, Tickets(pending));
      var ticket := broker.Place(accepts, line);
      if ticket.None? {
        if accepts && !line.Dropped? {
          PlaceKeeps(l, Tickets(pending), PlacementFailed(key), false);
          fate, failed := fate[l.next := Unrecorded], failed + {l.next};
        } else {
          NoteKeeps(l, None, Tickets(pending), PlacementFailed(key));
        }
        log := log + [PlacementFailed(key)];
        return;
      }
      PlaceKeeps(l, Tickets(pending), Placed(ticket.value), true);
      var p := Pending(key, ticket.value, side, entry, stop);
      TicketsAppend(pending, p);
      pending := pending + [p];
      log := log + [Placed(ticket.value)];
      fate := fate[ticket.value := Waiting];
    }

    lemma InTickets(ps: seq<Pending>, k: nat)
      requires k < |ps|
      ensures ps[k].ticket in Tickets(ps)
    {
    }

    lemma TicketsAppend(ps: seq<Pending>, p: Pending)
      ensures Tickets(ps + [p]) == Tickets(ps) + {p.ticket}
      ensures DistinctOrders(ps) && p.ticket !in Tickets(ps) && !HasKey(ps, p.key) ==> DistinctOrders(ps + [p])
    {
      var qs := ps + [p];
      forall t | t in Tickets(ps) ensures t in Tickets(qs) {
        var k :| 0 <= k < |ps| && ps[k].ticket == t;
        assert qs[k].ticket == t;
      }
      assert qs[|ps|].ticket == p.ticket;
    }

    /** Detects at most one fill from two reads, positions first, with the broker free to move in between. */
    method CheckForFills(before: Move, between: Move, readsFail: bool, siblings: int -> Sibling) returns (filled: bool)
      requires Valid()
      modifies this`pending, this`winner, this`log, this`fate, this`failed, broker
      ensures Valid()
      ensures FillsFit(active, old(Now()), Now(), CheckFills(before, between, readsFail, siblings), filled)
    {
      hide Consistent, Tickets, StillPending, FirstFilled, Settled, AllClean;
      filled := false;
      if !active || pending == [] || winner.Some? {
        return;
      }
      Wait(before, None, Tickets(pending));
      var positions := broker.positions;
      ghost var o1 := broker.orders;
      Wait(between, None, Tickets(pending));
      if readsFail {
        return;
      }
      filled := Scan(positions, broker.orders, siblings);
      NoRace(o1, positions, between);
    }

    lemma NoRace(orders: set<int>, positions: set<int>, between: Move)
      ensures between == STILL ==>
              OrdersAfter(orders, between) == orders && PositionsAfter(orders, positions, between) == positions
    {
    }

    /** The loop over the waiting orders, on the tickets of both reads. */
    method Scan(positions: set<int>, stillPending: set<int>, siblings: int -> Sibling) returns (filled: bool)
      requires Valid() && winner.None? && stillPending == broker.orders
      modifies this`pending, this`winner, this`log, this`fate, this`failed, broker
      ensures Valid() && broker.next == old(broker.next) && fate.Keys == old(fate.Keys)
      ensures var items := old(pending);
              var w := FirstFilled(items, positions, stillPending);
              && (filled <==> w < |items|)
              && (filled ==>
                    var waiting := StillPending(items[..w], stillPending);
                    && winner == Some(items[w].ticket) && pending == [items[w]]
                    && WonBy(old(Book()), Book(), waiting + items[w..],
                             |waiting|, siblings))
              && (!filled ==> && winner.None? && log == old(log) && failed == old(failed)
                              && pending == StillPending(items, stillPending)
                              && broker.orders == old(broker.orders) && broker.positions == old(broker.positions))
              && Settled(fate, items, w, stillPending, old(broker.positions))
      ensures forall t :: t in fate && fate[t] == Raced ==>
                old(fate[t]) == Raced || (t in old(broker.positions) && t !in positions)
      ensures AllClean(siblings) ==> failed == old(failed)
      ensures forall t :: t in old(fate) && old(fate[t]) != Waiting ==> fate[t] == old(fate[t])
    {
      hide FirstFilled, Settled, AllClean, NoneFilled, Valid, Scanning, StillPending, WonBy;
      filled := false;
      var items := pending;
      ghost var held := broker.positions;
      ScanStart();
      NoneFilledStep(items, 0, positions, stillPending);
      var k := 0;
      while k < |items|
        invariant 0 <= k <= |items| && winner.None? && log == old(log) && failed == old(failed)
        invariant Scanning(items, k, stillPending, held) && NoneFilled(items, k, positions, stillPending)
        invariant broker.orders == stillPending && broker.next == old(broker.next) && broker.positions == held
        invariant fate.Keys == old(fate.Keys)
        invariant forall t :: t in fate && fate[t] == Raced ==> old(fate[t]) == Raced || (t in held && t !in positions)
        invariant forall t :: t in old(fate) && old(fate[t]) != Waiting ==> fate[t] == old(fate[t])
      {
        NoneFilledStep(items, k, positions, stillPending);
        ghost var now := Book();
        filled := Examine(items, k, positions, stillPending, siblings, held);
        if filled {
          ghost var waiting := StillPending(items[..k], stillPending);
          WonBySame(now, old(Book()), Book(), waiting + items[k..], |waiting|, siblings);
          FirstFilledFrom(items, positions, stillPending, k);
          return;
        }
        k := k + 1;
      }
      ScanEnd(items, stillPending, held);
      FirstFilledFrom(items, positions, stillPending, |items|);
    }

    /** The scan stands before order k: the orders so far are settled and the gone ones dropped. */
    ghost predicate Scanning(items: seq<Pending>, k: nat, orders: set<int>, held: set<int>)
      reads this, broker
    {
      && winner.None? && k <= |items| && DistinctOrders(items) && DistinctOrders(pending)
      && pending == StillPending(items[..k], orders) + items[k..]
      && Consistent(Book(), None, Tickets(pending))
      && broker.orders == orders && broker.positions == held
      && Settled(fate, items, k, orders, held)
    }

    lemma ScanStart()
      requires Valid() && winner.None?
      ensures Scanning(pending, 0, broker.orders, broker.positions)
    {
      StillNone(pending, broker.orders);
    }

    lemma ScanEnd(items: seq<Pending>, orders: set<int>, held: set<int>)
      requires Scanning(items, |items|, orders, held)
      ensures Valid() && pending == StillPending(items, orders) && Settled(fate, items, |items|, orders, held)
    {
      assert items[..|items|] == items && items[|items|..] == [];
    }

    /** One turn of the loop: a pending order stays, one without a position is dropped, one with a position won. */
    method Examine(items: seq<Pending>, k: nat, positions: set<int>, stillPending: set<int>, siblings: int -> Sibling,
                   ghost held: set<int>) returns (filled: bool)
      requires k < |items| && Scanning(items, k, stillPending, held)
      modifies this`pending, this`winner, this`log, this`fate, this`failed, broker
      ensures filled <==> items[k].ticket !in stillPending && items[k].ticket in positions
      ensures !filled ==>
                && winner.None? && Scanning(items, k + 1, stillPending, held)
                && log == old(log) && failed == old(failed)
                && broker.orders == old(broker.orders) && broker.positions == old(broker.positions)
      ensures filled ==>
                && Valid() && winner == Some(items[k].ticket) && pending == [items[k]]
                && Settled(fate, items, k, stillPending, held)
                && var waiting := StillPending(items[..k], stillPending);
                   WonBy(old(Book()), Book(), waiting + items[k..], |waiting|,
                         siblings)
      ensures AllClean(siblings) ==> failed == old(failed)
      ensures fate.Keys == old(fate.Keys) && broker.next == old(broker.next)
      ensures forall t :: t in fate && fate[t] == Raced ==> old(fate[t]) == Raced || (t in held && t !in positions)
      ensures forall t :: t in old(fate) && old(fate[t]) != Waiting ==> fate[t] == old(fate[t])
    {
      hide Consistent, Tickets, StillPending, DistinctOrders, Settled, AllClean, BookValid, FateFits, WonBy;
      var p := items[k];
      var at := |StillPending(items[..k], stillPending)|;
      StillStep(items, stillPending, k);
      assert pending[at] == p && pending[at + 1..] == items[k + 1..];
      InTickets(pending, at);
      BookIsValid(Book(), None, Tickets(pending));
      filled := false;
      if p.ticket in stillPending {
        SettledKeep(fate, items, k, stillPending, held);
      } else if p.ticket in positions {
        FillAt(at, siblings, items, k, held);
        filled := true;
      } else {
        SettledDrop(fate, items, k, stillPending, held);
        DropGone(at);
      }
    }

    /** The scan has found a fill: what it settled before stays settled. */
    method FillAt(at: nat, siblings: int -> Sibling, ghost items: seq<Pending>, ghost k: nat, ghost held: set<int>)
      requires Valid() && winner.None? && k < |items| && DistinctOrders(items)
      requires pending == StillPending(items[..k], broker.orders) + items[k..]
      requires at == |StillPending(items[..k], broker.orders)| && items[k].ticket !in broker.orders
      requires Settled(fate, items, k, broker.orders, held)
      modifies this`pending, this`winner, this`log, this`fate, this`failed, broker
      ensures Valid() && winner == Some(items[k].ticket) && pending == [items[k]]
      ensures fate.Keys == old(fate.Keys) && broker.next == old(broker.next)
      ensures Settled(fate, items, k, old(broker.orders), held)
      ensures WonBy(old(Book()), Book(), old(pending), at, siblings)
      ensures forall t :: t in old(fate) && old(fate[t]) != Waiting ==> fate[t] == old(fate[t])
      ensures forall t :: t in fate && fate[t] == Raced ==> old(fate[t]) == Raced
      ensures AllClean(siblings) ==> failed == old(failed)
    {
      hide Consistent, Tickets, StillPending, DistinctOrders, Settled, AllClean, BookValid, WonBy;
      assert pending[at] == items[k];
      AllWaiting();
      Earlier(items, broker.orders, k);
      ghost var fate1, waiting, orders := fate, Tickets(pending), broker.orders;
      OnFill(at, siblings);
      SettledAfterFill(fate1, fate, items, k, orders, held, waiting, items[k].ticket);
    }

    /** Forgets an order that is no longer pending. */
    method DropGone(at: nat)
      requires winner.None? && at < |pending| && DistinctOrders(pending) && Consistent(Book(), None, Tickets(pending))
      requires pending[at].ticket !in broker.orders
      modifies this`pending, this`fate
      ensures pending == old(pending)[..at] + old(pending)[at + 1..]
      ensures DistinctOrders(pending) && Consistent(Book(), None, Tickets(pending))
      ensures var t := old(pending)[at].ticket;
              t in old(fate) && old(fate)[t] == Waiting
              && fate == old(fate)[t := if t in broker.positions then Raced else Vanished]
    {
      hide Consistent, Tickets, DistinctOrders;
      var t := pending[at].ticket;
      InTickets(pending, at);
      BookIsValid(Book(), None, Tickets(pending));
      DropKeeps(Book(), Tickets(pending), t);
      TicketsDrop(pending, at);
      fate := fate[t := if t in broker.positions then Raced else Vanished];
      pending := pending[..at] + pending[at + 1..];
    }

    lemma AllWaiting()
      requires Valid() && winner.None?
      ensures forall x :: 0 <= x < |pending| ==> pending[x].ticket in fate && fate[pending[x].ticket] == Waiting
      ensures forall t :: t in Tickets(pending) ==> t in fate && fate[t] == Waiting
    {
      BookIsValid(Book(), None, Tickets(pending));
      forall x | 0 <= x < |pending| ensures pending[x].ticket in Tickets(pending) {
      }
    }

    lemma SettledKeep(fate: map<int, Fate>, items: seq<Pending>, k: nat, orders: set<int>, positions: set<int>)
      requires k < |items| && Settled(fate, items, k, orders, positions)
      requires items[k].ticket in orders && items[k].ticket in fate && fate[items[k].ticket] == Waiting
      ensures Settled(fate, items, k + 1, orders, positions)
    {
    }

    lemma SettledDrop(fate: map<int, Fate>, items: seq<Pending>, k: nat, orders: set<int>, positions: set<int>)
      requires k < |items| && Settled(fate, items, k, orders, positions) && DistinctOrders(items)
      requires items[k].ticket !in orders
      ensures Settled(fate[items[k].ticket := if items[k].ticket in positions then Raced else Vanished], items, k + 1,
                      orders, positions)
    {
    }

    lemma SettledAfterFill(fate: map<int, Fate>, fate': map<int, Fate>, items: seq<Pending>, k: nat, orders: set<int>,
                           positions: set<int>, waiting: set<int>, win: int)
      requires k <= |items| && Settled(fate, items, k, orders, positions) && fate'.Keys == fate.Keys
      requires forall x :: 0 <= x < k && items[x].ticket !in orders ==> items[x].ticket !in waiting
      requires win !in orders
      requires forall t :: t in fate && t !in waiting ==> fate'[t] == fate[t]
      requires forall t :: t in waiting && t != win ==> t in fate' && fate'[t].Ended?
      ensures Settled(fate', items, k, orders, positions)
    {
    }

    lemma StillNone(items: seq<Pending>, orders: set<int>)
      ensures StillPending(items[..0], orders) + items[0..] == items
    {
    }

    lemma StillStep(items: seq<Pending>, orders: set<int>, k: nat)
      requires k < |items|
      ensures StillPending(items[..k + 1], orders) ==
              StillPending(items[..k], orders) + if items[k].ticket in orders then [items[k]] else []
    {
      assert items[..k + 1][..k] == items[..k];
    }

    lemma Others(items: seq<Pending>, k: nat)
      requires k < |items| && DistinctOrders(items)
      ensures forall x :: 0 <= x < |items| && x != k ==> items[x].ticket != items[k].ticket
    {
    }

    /** An item that the second read shows as gone is no longer waiting. */
    lemma {:induction false} Earlier(items: seq<Pending>, orders: set<int>, k: nat)
      requires k <= |items| && DistinctOrders(items)
      ensures forall x :: 0 <= x < k && items[x].ticket !in orders ==>
                items[x].ticket !in Tickets(StillPending(items[..k], orders) + items[k..])
    {
      var now := StillPending(items[..k], orders) + items[k..];
      forall x | 0 <= x < k && items[x].ticket !in orders ensures items[x].ticket !in Tickets(now) {
        forall y | 0 <= y < |now| ensures now[y].ticket != items[x].ticket {
          StillIn(items[..k], orders);
          if y >= |StillPending(items[..k], orders)| {
            assert now[y] == items[k + y - |StillPending(items[..k], orders)|];
          }
        }
      }
    }

    lemma {:induction false} StillIn(items: seq<Pending>, orders: set<int>)
      ensures forall p :: p in StillPending(items, orders) ==> p.ticket in orders
    {
      if items != [] { StillIn(items[..|items| - 1], orders); }
    }

    lemma TicketsDrop(ps: seq<Pending>, k: nat)
      requires k < |ps| && DistinctOrders(ps)
      ensures Tickets(ps[..k] + ps[k + 1..]) == Tickets(ps) - {ps[k].ticket}
      ensures DistinctOrders(ps[..k] + ps[k + 1..])
    {
      var qs := ps[..k] + ps[k + 1..];
      forall t | t in Tickets(ps) - {ps[k].ticket} ensures t in Tickets(qs) {
        var m :| 0 <= m < |ps| && ps[m].ticket == t;
        assert if m < k then qs[m] == ps[m] else qs[m - 1] == ps[m];
      }
      forall t | t in Tickets(qs) ensures t in Tickets(ps) - {ps[k].ticket} {
        var m :| 0 <= m < |qs| && qs[m].ticket == t;
        assert qs[m] == if m < k then ps[m] else ps[m + 1];
      }
    }

    /** Records the winner and gets rid of every sibling. */
    method OnFill(w: nat, siblings: int -> Sibling)
      requires Valid() && winner.None? && w < |pending| && pending[w].ticket !in broker.orders
      modifies this`pending, this`winner, this`log, this`fate, this`failed, broker
      ensures Valid() && winner == Some(old(pending)[w].ticket) && pending == [old(pending)[w]]
      ensures fate.Keys == old(fate.Keys) && broker.next == old(broker.next)
      ensures forall t :: t in old(fate) && t !in Tickets(old(pending)) ==> fate[t] == old(fate[t])
      ensures forall t :: t in Tickets(old(pending)) ==>
              t in fate && if winner == Some(t) then fate[t] == Won else fate[t].Ended?
      ensures AllClean(siblings) ==> failed == old(failed)
      ensures WonBy(old(Book()), Book(), old(pending), w, siblings)
    {
      hide Consistent, Tickets, AllClean, DealWithAll, SiblingsEnded;
      var win := pending[w];
      InTickets(pending, w);
      WinKeeps(Book(), Tickets(pending), win.ticket);
      BookIsValid(Book(), None, Tickets(pending));
      winner := Some(win.ticket);
      log := log + [CandidateFilled(win.ticket)];
      fate := fate[win.ticket := Won];
      ghost var o, p := broker.orders, broker.positions;
      CancelOthers(w, siblings);
      AllEnded(o, p, fate, pending, w, siblings);
      if AllClean(siblings) { AllCleanDealt(o, p, pending, w, |pending|, siblings); }
      pending := [win];
    }

    /** Every waiting order but the winner's, in order. */
    method CancelOthers(w: nat, siblings: int -> Sibling)
      requires w < |pending| && DistinctOrders(pending) && winner == Some(pending[w].ticket)
      requires Consistent(Book(), winner, Tickets(pending) - {pending[w].ticket})
      modifies this`log, this`fate, this`failed, broker
      ensures Consistent(Book(), winner, {}) && fate.Keys == old(fate.Keys) && broker.next == old(broker.next)
      ensures forall t :: t in old(fate) && (t !in Tickets(pending) || t == pending[w].ticket) ==>
              fate[t] == old(fate[t])
      ensures var d := DealWithAll(old(broker.orders), old(broker.positions), pending, w, |pending|, siblings);
              && broker.orders == d.orders && broker.positions == d.positions
              && log == old(log) + d.events && failed == old(failed) + d.failed
      ensures SiblingsEnded(old(broker.orders), old(broker.positions), fate, pending, w, |pending|, siblings)
    {
      hide Consistent, Tickets, CleanSibling, AllClean, DealWith, DealWithAll, SiblingsEnded,
           FateFits, BookValid, DistinctOrders;
      var win := pending[w].ticket;
      ghost var left, all := Tickets(pending) - {win}, Tickets(pending);
      ghost var o, p, log0, failed0 := broker.orders, broker.positions, log, failed;
      DealWithNone(o, p, fate, pending, w, siblings);
      assert pending[0..] == pending;
      var k := 0;
      while k < |pending|
        invariant 0 <= k <= |pending|
        invariant Consistent(Book(), winner, left) && left == Tickets(pending[k..]) - {win}
        invariant fate.Keys == old(fate.Keys) && broker.next == old(broker.next)
        invariant forall t :: t in old(fate) && (t !in all || t == win) ==> fate[t] == old(fate[t])
        invariant var d := DealWithAll(o, p, pending, w, k, siblings);
                  && broker.orders == d.orders && broker.positions == d.positions
                  && log == log0 + d.events && failed == failed0 + d.failed
        invariant SiblingsEnded(o, p, fate, pending, w, k, siblings)
      {
        TicketsHead(pending, k);
        InTickets(pending, k);
        if k != w {
          var t := pending[k].ticket;
          Others(pending, w);
          DealWithNext(o, p, fate, pending, w, k, siblings);
          Dealing(pending, w, k, o, p, siblings);
          CancelSibling(t, siblings(t), winner, left);
          left := left - {t};
        } else {
          SkipWinner(o, p, fate, pending, w, siblings);
        }
        k := k + 1;
      }
      TicketsEmpty(pending);
      assert left == {};
    }

    lemma TicketsEmpty(ps: seq<Pending>)
      ensures Tickets(ps[|ps|..]) == {}
    {
    }

    lemma TicketsHead(ps: seq<Pending>, k: nat)
      requires k < |ps| && DistinctOrders(ps)
      ensures Tickets(ps[k..]) == {ps[k].ticket} + Tickets(ps[k + 1..])
      ensures ps[k].ticket !in Tickets(ps[k + 1..])
    {
      forall t | t in Tickets(ps[k..]) ensures t == ps[k].ticket || t in Tickets(ps[k + 1..]) {
        var m :| 0 <= m < |ps[k..]| && ps[k..][m].ticket == t;
        if m > 0 { assert ps[k + 1..][m - 1].ticket == t; }
      }
      forall t | t in Tickets(ps[k + 1..]) ensures t in Tickets(ps[k..]) && t != ps[k].ticket {
        var m :| 0 <= m < |ps[k + 1..]| && ps[k + 1..][m].ticket == t;
        assert ps[k..][m + 1].ticket == t;
      }
      assert ps[k..][0].ticket == ps[k].ticket;
    }

    /** Cancels a sibling; if that fails because it filled as well, closes the duplicate position. */
    method CancelSibling(ticket: int, s: Sibling, ghost w: Option<int>, ghost waiting: set<int>)
      requires Consistent(Book(), w, waiting) && ticket in waiting
      modifies this`log, this`fate, this`failed, broker
      ensures Consistent(Book(), w, waiting - {ticket})
      ensures var d := DealWith(old(broker.orders), old(broker.positions), ticket, s);
              && broker.orders == d.orders && broker.positions == d.positions && broker.next == old(broker.next)
              && |d.events| == 1 && log == old(log) + d.events
              && ticket in old(fate) && fate == old(fate)[ticket := Ended(d.events[0])]
              && failed == old(failed) + d.failed
    {
      hide Consistent;
      ghost var l := Book();
      BookIsValid(l, w, waiting);
      broker.Environment(s.beforeCancel);
      var ok := broker.Cancel(ticket, s.cancel);
      var event;
      ghost var lost: set<int> := if s.cancel.Clear? then {} else {ticket};
      if ok {
        event := Cancelled(ticket, SiblingFilled);
      } else {
        broker.Environment(s.beforeRead);
        var positions := broker.positions;
        if s.readFails || ticket !in positions {
          event := CancelSiblingFailed(ticket);
          lost := if s.readFails then {ticket} else lost;
        } else {
          broker.Environment(s.beforeClose);
          ok := broker.Close(ticket, s.close);
          event := if ok then DuplicateClosed(ticket) else DuplicateCloseFailed(ticket);
          lost := if s.close.Clear? then lost else {ticket};
        }
      }
      EndKeeps(l, w, waiting, ticket, event, broker.orders, broker.positions, ticket in lost);
      failed := failed + lost;
      log := log + [event];
      fate := fate[ticket := Ended(event)];
    }

    /** Reports the winner's close once, when the positions can be read, it is gone and the history confirms it. */
    method CheckForClose(before: Move, readFails: bool, historyClosed: bool) returns (reported: bool)
      requires Valid()
      modifies this`closed, this`log, broker`orders, broker`positions
      ensures Valid()
      ensures CloseFits(old(Now()), Now(), CheckClose(before, readFails, historyClosed), reported)
    {
      hide Consistent;
      reported := false;
      if winner.None? || closed {
        return;
      }
      Wait(before, winner, {});
      NoteKeeps(Book(), winner, {}, RealClosed(winner.value));
      if readFails || winner.value in broker.positions || !historyClosed {
        return;
      }
      closed, reported := true, true;
      log := log + [RealClosed(winner.value)];
    }

    /** Cancels whatever never filled.  A cancel fails exactly when its order is no longer pending by then, or the call
        itself fails; that is only reported. */
    method CancelAllAtDayEnd(env: int -> DayEndCall)
      requires Valid()
      modifies this`pending, this`log, this`fate, this`failed, broker
      ensures Valid() && DayEndFits(old(Now()), Now(), env)
      ensures forall t :: t in fate && t in broker.orders ==> t in failed
    {
      hide Consistent, Tickets, DistinctOrders, DayEndDone, CancelledOne;
      ghost var all, l := Tickets(pending), Book();
      ghost var left := if winner.None? then all else {};
      DayEndStart(l, pending, env);
      assert pending[0..] == pending;
      var k := 0;
      while k < |pending|
        invariant 0 <= k <= |pending| && pending == old(pending) && winner == old(winner)
        invariant Consistent(Book(), winner, left) && left == if winner.None? then Tickets(pending[k..]) else {}
        invariant winner.None? ==> DistinctOrders(pending)
        invariant fate.Keys == l.fate.Keys && Book().first == l.first && Book().next == l.next
        invariant winner.Some? ==> Book() == l
        invariant winner.None? ==> DayEndDone(l.log, l.orders, l.positions, Book(), pending, k, env)
        invariant forall t :: t in l.fate && t !in all ==> fate[t] == l.fate[t]
        invariant (forall t :: env(t).line.Clear?) ==> failed == old(failed)
      {
        var p := pending[k];
        if winner != Some(p.ticket) {
          TicketsHead(pending, k);
          InTickets(pending, k);
          Others(pending, k);
          BookIsValid(Book(), None, left);
          ghost var before := Book();
          CancelOne(p.ticket, env(p.ticket), left);
          DayEndNext(l.log, l.orders, l.positions, before, Book(), pending, k, env);
          left := left - {p.ticket};
        }
        k := k + 1;
      }
      TicketsEmpty(pending);
      pending := [];
      NoTickets(pending);
      NoneWaiting();
    }

    /** One cancel at the end of the day. */
    method CancelOne(ticket: int, c: DayEndCall, ghost waiting: set<int>)
      requires winner.None? && Consistent(Book(), None, waiting) && ticket in waiting
      modifies this`log, this`fate, this`failed, broker
      ensures Consistent(Book(), None, waiting - {ticket}) && ticket in old(fate) && broker.next == old(broker.next)
      ensures CancelledOne(old(Book()), Book(), ticket, c)
      ensures fate == old(fate)[ticket := fate[ticket]]
      ensures failed == old(failed) + if c.line.Clear? then {} else {ticket}
    {
      hide Consistent;
      ghost var l := Book();
      BookIsValid(l, None, waiting);
      broker.Environment(c.before);
      var ok := broker.Cancel(ticket, c.line);
      var event := if ok then Cancelled(ticket, DayEnd) else CancelDayEndFailed(ticket);
      failed := failed + if c.line.Clear? then {} else {ticket};
      EndKeeps(l, None, waiting, ticket, event, broker.orders, broker.positions, !c.line.Clear?);
      log := log + [event];
      fate := fate[ticket := Ended(event)];
    }

    lemma NoTickets(ps: seq<Pending>)
      ensures ps == [] ==> Tickets(ps) == {} && DistinctOrders(ps)
    {
    }

    /** With nothing waiting an order is pending at the broker only if a call on it failed. */
    lemma NoneWaiting()
      requires Consistent(Book(), winner, {})
      ensures forall t :: t in fate && t in broker.orders ==> t in failed
    {
      forall t | t in fate ensures t in broker.orders ==> t in failed {
        assert FateFits(Book(), winner, {}, t);
      }
    }

    /** Whatever the broker has live under a ticket it issued to this manager is waiting here, is the winner's, was
        cancelled too late at the end of the day, was lost between two reads, or some call failed. */
    lemma ExposureBound(t: int)
      requires Valid() && Exposed(t)
      ensures t in fate
      ensures || (winner.None? && t in Tickets(pending))
              || winner == Some(t)
              || (fate[t] == Ended(CancelDayEndFailed(t)) && t in broker.positions)
              || (fate[t] == Raced && t in broker.positions)
              || t in failed
    {
      var waiting := if winner.None? then Tickets(pending) else {};
      BookIsValid(Book(), winner, waiting);
      assert FateFits(Book(), winner, waiting, t);
    }

    /** At most one order ever wins, once; each order's story ends at most once in the journal; none both wins and
        ends. */
    lemma OneStoryEach(t: int, t': int)
      requires Valid()
      ensures Wins(log, t) > 0 && Wins(log, t') > 0 ==> t == t'
      ensures Endings(log, t) + Wins(log, t) <= 1
      ensures winner.None? && t in Tickets(pending) ==> Endings(log, t) + Wins(log, t) == 0
    {
      var waiting := if winner.None? then Tickets(pending) else {};
      BookIsValid(Book(), winner, waiting);
      if t in fate { assert FateFits(Book(), winner, waiting, t); }
    }
  }

  /** A whole day under any sequence of calls, any broker moves and any failures: every order the broker issued has its
      ending, and what is still live is accounted for. */
  method TradingDay(ops: seq<Op>, env: int -> DayEndCall, active: bool, broker: Broker)
    returns (om: OrderManager, ghost states: seq<State>)
    requires broker.Valid()
    modifies broker
    ensures om.broker == broker && om.first == old(broker.next) && om.Valid() && om.pending == []
    ensures Trace(active, states, ops) && DayEndFits(states[|ops|], om.Now(), env)
    ensures forall t :: t in om.fate <==> om.first <= t < broker.next
    ensures forall t :: t in om.fate ==> om.fate[t] != Waiting
    ensures forall t :: om.Exposed(t) ==>
              || om.winner == Some(t)
              || (om.fate[t] == Ended(CancelDayEndFailed(t)) && t in broker.positions)
              || (om.fate[t] == Raced && t in broker.positions)
              || t in om.failed
    ensures (forall k :: 0 <= k < |ops| ==> Clean(ops[k])) && (forall t :: env(t).line.Clear?) ==> om.failed == {}
    ensures (forall k :: 0 <= k < |ops| ==> Snapshot(ops[k])) ==> forall t :: t in om.fate ==> om.fate[t] != Raced
  {
    hide OrderManager.Valid, Clean, Snapshot, Tickets, OpFits, DayEndFits;
    om := new OrderManager(active, broker);
    states := [om.Now()];
    var k := 0;
    while k < |ops|
      invariant 0 <= k <= |ops| && om.broker == broker && fresh(om) && om.Valid() && om.first == old(broker.next)
      invariant om.active == active && Trace(active, states, ops[..k]) && states[k] == om.Now()
      invariant (forall x :: 0 <= x < k ==> Clean(ops[x])) ==> om.failed == {}
      invariant (forall x :: 0 <= x < k ==> Snapshot(ops[x])) ==> NoneRaced(om.fate)
    {
      ghost var s := om.Now();
      Perform(om, ops[k]);
      om.NowValid();
      TraceStep(active, states, ops, k, om.Now());
      states := states + [om.Now()];
      k := k + 1;
    }
    assert ops[..k] == ops;
    om.CancelAllAtDayEnd(env);
    DayEndKeeps(states[|ops|], om.Now(), env);
    AllSettled(om);
  }

  ghost predicate NoneRaced(fate: map<int, Fate>) {
    forall t :: t in fate ==> fate[t] != Raced
  }

  /** One call of the day. */
  method Perform(om: OrderManager, op: Op)
    requires om.Valid()
    modifies om, om.broker
    ensures om.Valid() && OpFits(om.active, old(om.Now()), om.Now(), op)
    ensures Clean(op) ==> om.failed == old(om.failed)
    ensures Snapshot(op) && NoneRaced(old(om.fate)) ==> NoneRaced(om.fate)
  {
    hide OrderManager.Valid, FirstFilled, Settled, StillPending, AllClean;
    match op {
      case Candidate(key, side, entry, stop, paused, before, accepts, line) =>
        om.OnCandidate(key, side, entry, stop, paused, before, accepts, line);
      case CheckFills(before, between, readsFail, siblings) =>
        var filled := om.CheckForFills(before, between, readsFail, siblings);
      case CheckClose(before, readFails, historyClosed) =>
        var reported := om.CheckForClose(before, readFails, historyClosed);
    }
  }

  /** The end of the day neither fails a call by itself nor drops an order. */
  lemma DayEndKeeps(s: State, s': State, env: int -> DayEndCall)
    requires DayEndFits(s, s', env)
    ensures s'.pending == []
    ensures (forall t :: env(t).line.Clear?) ==> s'.book.failed == s.book.failed
    ensures NoneRaced(s.book.fate) ==> NoneRaced(s'.book.fate)
  {
    hide BookAfter, PendingAtCancel;
    forall t | t in s'.book.fate ensures NoneRaced(s.book.fate) ==> s'.book.fate[t] != Raced {
      if s.winner.None? && t in Tickets(s.pending) {
        var k :| 0 <= k < |s.pending| && s.pending[k].ticket == t;
        assert s'.book.fate[t] == DayEndFate(s.book.orders, s.pending, k, env);
      }
    }
  }

  /** At the end of the day an order that still waits is reported as cancelled exactly if it was pending, no move up to
      its turn took it away and its call got through; otherwise as a failed cancel. */
  lemma DayEndReports(s: State, s': State, env: int -> DayEndCall, k: nat)
    requires DayEndFits(s, s', env) && s.winner.None? && k < |s.pending|
    ensures var t := s.pending[k].ticket;
            && t in s'.book.fate
            && (s'.book.fate[t] == Ended(Cancelled(t, DayEnd)) || s'.book.fate[t] == Ended(CancelDayEndFailed(t)))
            && (s'.book.fate[t] == Ended(Cancelled(t, DayEnd)) <==>
                && t in s.book.orders && env(t).line.Clear?
                && forall m :: 0 <= m <= k ==> t !in env(s.pending[m].ticket).before.left)
  {
    hide BookAfter;
    assert s'.book.fate[s.pending[k].ticket] == DayEndFate(s.book.orders, s.pending, k, env);
  }

  /** A check reports a fill exactly if both reads succeed and show some waiting order gone from the pending ones with a
      position; without one, and with both reads, just the orders still pending go on waiting. */
  lemma FillsMean(active: bool, s: State, s': State, op: Op, filled: bool)
    requires op.CheckFills? && FillsFit(active, s, s', op, filled) && active && s.winner.None?
    ensures var o1, p1 := OrdersAfter(s.book.orders, op.before),
                          PositionsAfter(s.book.orders, s.book.positions, op.before);
            var o2 := OrdersAfter(o1, op.between);
            && (filled <==>
                && !op.readsFail
                && exists x :: 0 <= x < |s.pending| && s.pending[x].ticket !in o2 && s.pending[x].ticket in p1)
            && (!filled && !op.readsFail ==>
                  forall p :: p in s'.pending <==> p in s.pending && p.ticket in o2)
            && (filled ==> exists x :: 0 <= x < |s.pending| && s'.winner == Some(s.pending[x].ticket)
                             && s.pending[x].ticket !in o2 && s.pending[x].ticket in p1)
  {
    hide FirstFilled, StillPending, WonBy, Settled;
    var o1, p1 := OrdersAfter(s.book.orders, op.before), PositionsAfter(s.book.orders, s.book.positions, op.before);
    StillMeans(s.pending, OrdersAfter(o1, op.between));
  }

  lemma {:induction false} StillMeans(pending: seq<Pending>, orders: set<int>)
    ensures forall p :: p in StillPending(pending, orders) <==> p in pending && p.ticket in orders
  {
    if pending != [] {
      StillMeans(pending[..|pending| - 1], orders);
      assert pending == pending[..|pending| - 1] + [pending[|pending| - 1]];
    }
  }

  // ---------- what the two reads and the day end can lose ----------

  /** Among the orders that a check drops, one has an open position exactly when it was still pending at the first read
      and was a position at the second; two reads of one moment never lose a fill. */
  lemma TwoReadRace(fate: map<int, Fate>, items: seq<Pending>, x: nat, orders: set<int>, positions: set<int>,
      between: Move)
    requires orders !! positions
    requires var o2, p2 := OrdersAfter(orders, between), PositionsAfter(orders, positions, between);
             var w := FirstFilled(items, positions, o2);
             x < w && Settled(fate, items, w, o2, p2)
    ensures items[x].ticket in fate
    ensures fate[items[x].ticket] == Raced <==>
              items[x].ticket in orders && items[x].ticket in PositionsAfter(orders, positions, between)
    ensures between == STILL ==> fate[items[x].ticket] != Raced
  {
    var o2, p2 := OrdersAfter(orders, between), PositionsAfter(orders, positions, between);
    assert Scanned(fate, items[x].ticket, o2, p2);
  }

  const FIRST_CANDIDATE: Op := Candidate(Key(1, 2), Long, 1.0, 0.9, false, STILL, true, Clear)
  const FIRST_ORDER: Pending := Pending(Key(1, 2), 0, Long, 1.0, 0.9)
  const FILLED: Move := Move({0}, {0}, {})
  const QUIET: Sibling := Sibling(STILL, Clear, STILL, false, STILL, Clear)

  predicate OneWaiting(s: State) {
    && s.pending == [FIRST_ORDER] && s.winner.None?
    && s.book == Ledger(0, map[0 := Waiting], [Placed(0)], {0}, {}, 1, {})
  }

  lemma OneOrder(s: State, s': State)
    requires s.pending == [] && s.winner.None? && s.book == Ledger(0, map[], [], {}, {}, 0, {})
    requires CandidateFits(true, s, s', FIRST_CANDIDATE)
    ensures OneWaiting(s')
  {
    assert !HasKey([], Key(1, 2));
  }

  /** A new manager of an account without orders, after its first candidate. */
  method FirstOrder() returns (om: OrderManager)
    ensures fresh(om) && fresh(om.broker) && om.active && om.Valid() && OneWaiting(om.Now())
  {
    hide OrderManager.Valid, CandidateFits, OneWaiting;
    var broker := new Broker({}, {}, 0);
    om := new OrderManager(true, broker);
    ghost var s := om.Now();
    om.OnCandidate(Key(1, 2), Long, 1.0, 0.9, false, STILL, true, Clear);
    OneOrder(s, om.Now());
  }

  const SECOND_ORDER: Pending := Pending(Key(5, 7), 1, Long, 1.1, 0.9)
  const BOTH_FILLED: Move := Move({0, 1}, {0, 1}, {})

  predicate TwoWaiting(s: State) {
    && s.pending == [FIRST_ORDER, SECOND_ORDER] && s.winner.None?
    && s.book == Ledger(0, map[0 := Waiting, 1 := Waiting], [Placed(0), Placed(1)], {0, 1}, {}, 2, {})
  }

  lemma SecondJoins(s: State, s': State)
    requires OneWaiting(s)
    requires CandidateFits(true, s, s', Candidate(Key(5, 7), Long, 1.1, 0.9, false, STILL, true, Clear))
    ensures TwoWaiting(s')
  {
    assert !HasKey([FIRST_ORDER], Key(5, 7));
    assert s'.book.orders == {0, 1};
  }

  /** Two candidates wait together. */
  method TwoOrders() returns (om: OrderManager)
    ensures fresh(om) && fresh(om.broker) && om.active && om.Valid() && TwoWaiting(om.Now())
  {
    hide OrderManager.Valid, CandidateFits, OneWaiting, TwoWaiting;
    om := FirstOrder();
    ghost var s := om.Now();
    om.OnCandidate(Key(5, 7), Long, 1.1, 0.9, false, STILL, true, Clear);
    SecondJoins(s, om.Now());
  }

  /** Both of them fill before the next check: the first wins, and the position of the second is closed. */
  method BothFill() returns (om: OrderManager)
    ensures om.Valid() && om.failed == {} && om.winner == Some(0) && om.broker.positions == {0}
    ensures om.log == [Placed(0), Placed(1), CandidateFilled(0), DuplicateClosed(1)]
  {
    hide OrderManager.Valid, FillsFit, TwoWaiting;
    om := TwoOrders();
    ghost var s := om.Now();
    var filled := om.CheckForFills(BOTH_FILLED, STILL, false, u => QUIET);
    FirstWins(s, om.Now(), filled);
  }

  lemma FirstWins(s: State, s': State, filled: bool)
    requires TwoWaiting(s) && FillsFit(true, s, s', CheckFills(BOTH_FILLED, STILL, false, u => QUIET), filled)
    ensures s'.winner == Some(0) && s'.book.positions == {0} && s'.book.failed == {}
    ensures s'.book.log == [Placed(0), Placed(1), CandidateFilled(0), DuplicateClosed(1)]
  {
    hide Settled, SiblingsEnded, DealWith, DealWithAll;
    var items, both: set<int> := s.pending, {0, 1};
    var o1, p1 := OrdersAfter(both, BOTH_FILLED), PositionsAfter(both, {}, BOTH_FILLED);
    assert o1 == {} && p1 == both;
    assert OrdersAfter(o1, STILL) == {} && PositionsAfter(o1, p1, STILL) == both;
    FirstFilledIs(items, both, {}, 0);
    assert StillPending(items[..0], {}) == [] && [] + items[0..] == items;
    DealtWithSecond(items);
  }

  lemma DealtWithSecond(items: seq<Pending>)
    requires items == [FIRST_ORDER, SECOND_ORDER]
    ensures DealWithAll({}, {0, 1}, items, 0, 2, u => QUIET) == Dealt([DuplicateClosed(1)], {}, {0}, {})
  {
    hide DealWith;
    var siblings: int -> Sibling := u => QUIET;
    assert DealWithAll({}, {0, 1}, items, 0, 0, siblings) == Dealt([], {}, {0, 1}, {});
    assert DealWithAll({}, {0, 1}, items, 0, 1, siblings) == Dealt([], {}, {0, 1}, {});
    ClosesSecond();
  }

  lemma ClosesSecond()
    ensures DealWith({}, {0, 1}, 1, QUIET) == Dealt([DuplicateClosed(1)], {}, {0}, {})
  {
    assert OrdersAfter({}, STILL) == {} && PositionsAfter({}, {0, 1}, STILL) == {0, 1};
  }

  /** Such a run: one order, filled between the two reads, is forgotten while its position is open, with no failing
      call. */
  method RaceLosesAFill() returns (om: OrderManager, t: int)
    ensures om.Valid() && om.failed == {} && om.winner.None? && om.pending == []
    ensures om.Exposed(t) && t in om.fate && om.fate[t] == Raced && t in om.broker.positions
  {
    hide OrderManager.Valid, FillsFit, OneWaiting;
    t := 0;
    om := FirstOrder();
    ghost var s := om.Now();
    var filled := om.CheckForFills(STILL, FILLED, false, u => QUIET);
    Forgotten(s, om.Now(), filled);
  }

  lemma Forgotten(s: State, s': State, filled: bool)
    requires OneWaiting(s) && FillsFit(true, s, s', CheckFills(STILL, FILLED, false, u => QUIET), filled)
    ensures s'.winner.None? && s'.pending == [] && s'.book.failed == {} && s'.book.first == 0 && s'.book.next == 1
    ensures 0 in s'.book.fate && s'.book.fate[0] == Raced && 0 in s'.book.positions
  {
    hide Settled;
    var o1, p1 := OrdersAfter({0}, STILL), PositionsAfter({0}, {}, STILL);
    assert o1 == {0} && p1 == {};
    assert OrdersAfter(o1, FILLED) == {} && PositionsAfter(o1, p1, FILLED) == {0};
    FirstFilledIs([FIRST_ORDER], {}, {}, 1);
    assert [FIRST_ORDER][..0] == [];
    assert StillPending([FIRST_ORDER], {}) == [];
    SettledAt(s'.book.fate, [FIRST_ORDER], 1, {}, {0}, 0);
  }

  lemma SettledAt(fate: map<int, Fate>, items: seq<Pending>, k: nat, orders: set<int>, positions: set<int>, x: nat)
    requires x < k && Settled(fate, items, k, orders, positions)
    ensures k <= |items| && Scanned(fate, items[x].ticket, orders, positions)
  {
  }

  /** A run whose day-end cancel comes too late: the order has just filled, and its position stays open without being
      the winner's, with no failing call. */
  method LateDayEndCancel() returns (om: OrderManager, t: int)
    ensures om.Valid() && om.failed == {} && om.winner.None? && om.pending == []
    ensures om.Exposed(t) && t in om.fate && om.fate[t] == Ended(CancelDayEndFailed(t)) && t in om.broker.positions
  {
    hide OrderManager.Valid, DayEndFits, OneWaiting;
    t := 0;
    om := FirstOrder();
    ghost var s := om.Now();
    om.CancelAllAtDayEnd(u => DayEndCall(FILLED, Clear));
    TooLate(s, om.Now());
  }

  lemma TooLate(s: State, s': State)
    requires OneWaiting(s) && DayEndFits(s, s', u => DayEndCall(FILLED, Clear))
    ensures s'.winner.None? && s'.pending == [] && s'.book.failed == {} && s'.book.first == 0 && s'.book.next == 1
    ensures 0 in s'.book.fate && s'.book.fate[0] == Ended(CancelDayEndFailed(0)) && 0 in s'.book.positions
  {
    var env := u => DayEndCall(FILLED, Clear);
    assert !PendingAtCancel({0}, s.pending, 0, env);
    assert s.pending[0].ticket == 0 && s'.book.fate[0] == DayEndFate({0}, s.pending, 0, env);
    DayEndStart(s.book, s.pending, env);
    BookStep({0}, {}, s.pending, 0, env);
  }

  lemma AllSettled(om: OrderManager)
    requires om.Valid() && om.pending == []
    ensures forall t :: t in om.fate <==> om.first <= t < om.broker.next
    ensures forall t :: t in om.fate ==> om.fate[t] != Waiting
    ensures forall t :: om.Exposed(t) ==>
              || om.winner == Some(t)
              || (om.fate[t] == Ended(CancelDayEndFailed(t)) && t in om.broker.positions)
              || (om.fate[t] == Raced && t in om.broker.positions)
              || t in om.failed
  {
    om.NoTickets(om.pending);
    BookIsValid(om.Book(), om.winner, {});
    forall t | om.Exposed(t)
      ensures t in om.fate
      ensures || om.winner == Some(t)
              || (om.fate[t] == Ended(CancelDayEndFailed(t)) && t in om.broker.positions)
              || (om.fate[t] == Raced && t in om.broker.positions)
              || t in om.failed
    {
      om.ExposureBound(t);
    }
  }
}
