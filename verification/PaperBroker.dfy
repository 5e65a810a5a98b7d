/** Evaluating a pending PAPER order on the next bar, and the portfolio risk it stands for (execution/paper_broker.py,
    execution/risk_engine_v2.py, execution/risk_reservation.py). */
module PaperBroker {
  import opened Maybe
  import opened RrContract

  datatype Status = Pending | Filled | Cancelled | Rejected

  /** The durable policy identity an order was stamped with. */
  datatype Stamp = Unstamped | Registered(policy: Policy) | Unregistered

  datatype Order = Order(symbol: string, side: Side, quantity: real, entry: real, stop: real, target: real,
                         multiplier: real, equityAt: real, stamp: Stamp, asOf: int, status: Status)

  datatype Position = Position(symbol: string, order: nat, side: Side, quantity: real, price: real, stop: real,
                               target: real, multiplier: real, openedAt: int)

  datatype Bar = Bar(symbol: string, time: Option<int>, closed: bool, open: real, high: real, low: real, close: real)

  datatype Portfolio = Portfolio(orders: seq<Order>, positions: seq<Position>, equity: real)

  /** The fill gate of a broker that is given no stamped order: none is the first version's. */
  datatype Gate = FirstVersion | FirstObstacle | Fixed(policy: Policy)

  predicate UsableBar(bar: Bar) {
    && bar.time.Some? && bar.closed
    && 0.0 < bar.low && bar.low <= bar.open <= bar.high && bar.low <= bar.close <= bar.high
  }

  function PlannedMoney(o: Order): real { Money(Risk(o.side, o.entry, o.stop), o.quantity, o.multiplier) }

  function FillMoney(o: Order, fill: real): real { Money(Risk(o.side, fill, o.stop), o.quantity, o.multiplier) }

  predicate Capped(o: Order, fill: real, equity: real) {
    FillMoney(o, fill) <= equity * 0.01 && FillMoney(o, fill) <= o.equityAt * 0.01
  }

  predicate EquityOk(o: Order, equity: real) { equity > 0.0 && o.equityAt > 0.0 }

  predicate WithinFillLimits(gate: Gate, rr: real) {
    match gate
    case FirstVersion => rr >= 3.0
    case FirstObstacle => 2.0 <= rr <= 5.0
    case Fixed(p) => rr >= FillFloor(p)
  }

  /** DEC-5.7: actual fill money risk against the planned one times the policy's factor. */
  predicate MoneyOk(o: Order, fill: real, p: Policy) {
    o.quantity > 0.0 && o.entry > 0.0 && o.stop > 0.0 && FillMoney(o, fill) <= Abs(PlannedMoney(o)) * Factor(p)
  }

  function Abs(x: real): real { if x < 0.0 then -x else x }

  predicate FillAllowed(gate: Gate, o: Order, fill: real, equity: real) {
    match gate
    case FirstVersion =>
      && EquityOk(o, equity) && Risk(o.side, fill, o.stop) > 0.0 && Reward(o.side, fill, o.target) > 0.0
      && Reward(o.side, fill, o.target) / Risk(o.side, fill, o.stop) >= 3.0 && Capped(o, fill, equity)
    case _ =>
      && ValidLevels(o.side, fill, o.stop, o.target)
      && WithinFillLimits(gate, Rr(o.side, fill, o.stop, o.target))
      && EquityOk(o, equity)
      && (if gate == Fixed(FixedThree) then MoneyOk(o, fill, FixedThree) else Capped(o, fill, equity))
  }

  /** A stamped order is filled under its own policy whatever broker processes it. */
  function GateOf(broker: Gate, o: Order): Option<Gate> {
    match o.stamp
    case Unstamped => Some(broker)
    case Registered(p) => Some(Fixed(p))
    case Unregistered => None
  }

  /** `None`: the bar fills the order at its open. */
  function Verdict(broker: Gate, o: Order, bar: Bar, equity: real): Option<Status> {
    if o.multiplier <= 0.0 then Some(Rejected)
    else if bar.symbol != o.symbol || !UsableBar(bar) then Some(Cancelled)
    else if bar.time.value <= o.asOf then Some(Cancelled)
    else
      var gate := GateOf(broker, o);
      if gate.None? || !FillAllowed(gate.value, o, bar.open, equity) then Some(Rejected) else None
  }

  /** `account.open_positions[symbol] = position`. */
  function Put(positions: seq<Position>, p: Position): seq<Position> {
    if positions == [] then [p]
    else if positions[0].symbol == p.symbol then [p] + positions[1..]
    else [positions[0]] + Put(positions[1..], p)
  }

  function Opened(o: Order, i: nat, bar: Bar): Position
    requires bar.time.Some?
  {
    Position(o.symbol, i, o.side, o.quantity, bar.open, o.stop, o.target, o.multiplier, bar.time.value)
  }

  function Processed(broker: Gate, f: Portfolio, i: nat, bar: Bar): Portfolio
    requires i < |f.orders|
  {
    var o := f.orders[i];
    if o.status != Pending then f
    else
      match Verdict(broker, o, bar, f.equity)
      case Some(status) => f.(orders := f.orders[i := o.(status := status)])
      case None =>
        f.(orders := f.orders[i := o.(status := Filled)], positions := Put(f.positions, Opened(o, i, bar)))
  }

  class PaperBroker {
    const rrPolicy: Gate
    var orders: seq<Order>
    var positions: seq<Position>
    var equity: real

    constructor (gate: Gate, f: Portfolio)
      ensures rrPolicy == gate && Portfolio(orders, positions, equity) == f
    {
      rrPolicy, orders, positions, equity := gate, f.orders, f.positions, f.equity;
    }

    method SetPosition(p: Position)
      modifies `positions
      ensures positions == Put(old(positions), p)
    {
      var k := 0;
      while k < |positions| && positions[k].symbol != p.symbol
        invariant 0 <= k <= |positions|
        invariant Put(positions, p) == positions[..k] + Put(positions[k..], p)
      {
        assert positions[k..][1..] == positions[k + 1..];
        k := k + 1;
      }
      if k < |positions| {
        assert positions[k..][1..] == positions[k + 1..];
        positions := positions[..k] + [p] + positions[k + 1..];
      } else {
        positions := positions + [p];
      }
    }

    method ProcessNextBar(i: nat, bar: Bar) returns (filled: bool)
      requires i < |orders|
      modifies this
      ensures Portfolio(orders, positions, equity) == Processed(rrPolicy, old(Portfolio(orders, positions, equity)), i, bar)
      ensures filled <==> old(orders)[i].status == Pending && orders[i].status == Filled
    {
      var o := orders[i];
      if o.status != Pending {
        return false;
      }
      if o.multiplier <= 0.0 {
        orders := orders[i := o.(status := Rejected)];
        return false;
      }
      if bar.symbol != o.symbol || !UsableBar(bar) || bar.time.value <= o.asOf {
        orders := orders[i := o.(status := Cancelled)];
        return false;
      }
      var gate := rrPolicy;
      if o.stamp.Unregistered? {
        orders := orders[i := o.(status := Rejected)];
        return false;
      } else if o.stamp.Registered? {
        gate := Fixed(o.stamp.policy);
      }
      if !FillAllowed(gate, o, bar.open, equity) {
        orders := orders[i := o.(status := Rejected)];
        return false;
      }
      orders := orders[i := o.(status := Filled)];
      SetPosition(Opened(o, i, bar));
      return true;
    }
  }
}
