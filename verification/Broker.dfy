/** The broker as an environment.  Between any two calls it may fill or expire orders and close positions; a call may be
    refused, may never arrive, or may be carried out with its reply lost.  What happens is an input of each call, so a
    statement for all inputs covers every behaviour and a run can be exhibited by naming them. */
module Brokers {
  import opened Market

  /** What the broker does on its own: orders leave, some of them by filling, and positions close. */
  datatype Move = Move(left: set<int>, filled: set<int>, closed: set<int>)

  const STILL: Move := Move({}, {}, {})

  /** The connection during one call. */
  datatype Line = Clear | Dropped | ReplyLost

  function OrdersAfter(orders: set<int>, m: Move): set<int> {
    orders - m.left
  }

  function PositionsAfter(orders: set<int>, positions: set<int>, m: Move): set<int> {
    positions - m.closed + orders * m.left * m.filled
  }

  predicate Touches(m: Move, t: int) {
    t in m.left || t in m.closed
  }

  /** Orders can only leave and positions only close or arise from orders that left; a move can do any of that. */
  lemma AnyMove(orders: set<int>, positions: set<int>, orders': set<int>, positions': set<int>)
    requires orders !! positions
    ensures orders' <= orders && positions' <= positions + (orders - orders') <==>
            exists m :: orders' == OrdersAfter(orders, m) && positions' == PositionsAfter(orders, positions, m)
  {
    if orders' <= orders && positions' <= positions + (orders - orders') {
      var m := Move(orders - orders', positions', positions - positions');
      assert orders' == OrdersAfter(orders, m) && positions' == PositionsAfter(orders, positions, m);
    }
  }

  /** A ticket is an order or a position, never both, and was issued before. */
  ghost predicate BookValid(orders: set<int>, positions: set<int>, next: int) {
    && (forall t :: t in orders ==> t < next && t !in positions)
    && (forall t :: t in positions ==> t < next)
  }

  class Broker {
    var orders: set<int>      // tickets of pending orders
    var positions: set<int>   // tickets of open positions; a filled order keeps its ticket
    var next: int             // tickets are issued in increasing order

    ghost predicate Valid()
      reads this
    {
      BookValid(orders, positions, next)
    }

    ghost predicate Live(t: int)
      reads this
    {
      t in orders || t in positions
    }

    /** A broker that may already carry orders and positions from elsewhere. */
    constructor (orders: set<int>, positions: set<int>, next: int)
      requires BookValid(orders, positions, next)
      ensures Valid() && this.orders == orders && this.positions == positions && this.next == next
    {
      this.orders, this.positions, this.next := orders, positions, next;
    }

    method Environment(m: Move)
      requires Valid()
      modifies this`orders, this`positions
      ensures Valid()
      ensures orders == OrdersAfter(old(orders), m) && positions == PositionsAfter(old(orders), old(positions), m)
    {
      orders, positions := OrdersAfter(orders, m), PositionsAfter(orders, positions, m);
    }

    /** A new pending order under a fresh ticket, if the request arrives and is accepted. */
    method Place(accepts: bool, line: Line) returns (ticket: Option<int>)
      requires Valid()
      modifies this`orders, this`next
      ensures Valid()
      ensures accepts && !line.Dropped? ==> orders == old(orders) + {old(next)} && next == old(next) + 1
      ensures !accepts || line.Dropped? ==> orders == old(orders) && next == old(next)
      ensures ticket == if accepts && line.Clear? then Some(old(next)) else None
    {
      ticket := None;
      if accepts && !line.Dropped? {
        ticket := if line.Clear? then Some(next) else None;
        orders, next := orders + {next}, next + 1;
      }
    }

    method Cancel(ticket: int, line: Line) returns (ok: bool)
      requires Valid()
      modifies this`orders
      ensures Valid() && ok == (line.Clear? && ticket in old(orders))
      ensures orders == if line.Dropped? then old(orders) else old(orders) - {ticket}
    {
      ok := line.Clear? && ticket in orders;
      if !line.Dropped? {
        orders := orders - {ticket};
      }
    }

    method Close(ticket: int, line: Line) returns (ok: bool)
      requires Valid()
      modifies this`positions
      ensures Valid() && ok == (line.Clear? && ticket in old(positions))
      ensures positions == if line.Dropped? then old(positions) else old(positions) - {ticket}
    {
      ok := line.Clear? && ticket in positions;
      if !line.Dropped? {
        positions := positions - {ticket};
      }
    }
  }
}
