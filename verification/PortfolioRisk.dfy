/** The portfolio's risk potential: what open positions can lose to their stops plus what pending orders may fill at, and
    the limit every admission checks it against (execution/risk_engine_v2.py, execution/paper_broker.py). */
module PortfolioRisk {
  import opened Maybe
  import opened RrContract
  import opened PaperBroker

  const AGGREGATE := 0.023
  const PER_TRADE := 0.01

  function PositionRisk(p: Position): real {
    var distance := Risk(p.side, p.price, p.stop);
    Money(if distance > 0.0 then distance else 0.0, p.quantity, p.multiplier)
  }

  function OpenRisk(positions: seq<Position>): real {
    if positions == [] then 0.0 else PositionRisk(positions[0]) + OpenRisk(positions[1..])
  }

  function Reservation(o: Order): real {
    if o.status == Pending && o.stamp.Registered? then PlannedMoney(o) * Factor(o.stamp.policy) else 0.0
  }

  function Reserved(orders: seq<Order>): real {
    if orders == [] then 0.0 else Reservation(orders[0]) + Reserved(orders[1..])
  }

  function Potential(f: Portfolio): real { OpenRisk(f.positions) + Reserved(f.orders) }

  /** A plan exactly at its policy's multiple, with a quantity to trade. */
  ghost predicate WellPlanned(o: Order) {
    && o.stamp.Registered? && o.quantity > 0.0 && o.multiplier > 0.0
    && ValidLevels(o.side, o.entry, o.stop, o.target)
    && Reward(o.side, o.entry, o.target) == PlannedRr(o.stamp.policy) * Risk(o.side, o.entry, o.stop)
  }

  /** Every pending order was admitted as planned; nothing open has a negative size. */
  ghost predicate Sound(f: Portfolio) {
    && (forall i :: 0 <= i < |f.orders| && f.orders[i].status == Pending ==> WellPlanned(f.orders[i]))
    && Sizes(f.positions)
  }

  lemma MoneyNonNegative(risk: real, quantity: real, multiplier: real)
    requires risk >= 0.0 && quantity > 0.0 && multiplier > 0.0
    ensures Money(risk, quantity, multiplier) >= 0.0
  {
    MoneyMonotone(0.0, risk, quantity, multiplier);
  }

  lemma ReservationNonNegative(o: Order)
    requires o.status == Pending ==> WellPlanned(o)
    ensures Reservation(o) >= 0.0
  {
    if o.status == Pending {
      RegisteredFactors();
      MoneyNonNegative(Risk(o.side, o.entry, o.stop), o.quantity, o.multiplier);
    }
  }

  lemma {:induction false} ReservedUpdate(orders: seq<Order>, i: nat, o: Order)
    requires i < |orders|
    ensures Reserved(orders[i := o]) == Reserved(orders) - Reservation(orders[i]) + Reservation(o)
    decreases i
  {
    if i == 0 {
      assert orders[0 := o][1..] == orders[1..];
    } else {
      assert orders[i := o][1..] == orders[1..][i - 1 := o];
      ReservedUpdate(orders[1..], i - 1, o);
    }
  }

  lemma {:induction false} PutAtMostAdds(positions: seq<Position>, p: Position)
    requires forall k :: 0 <= k < |positions| ==> positions[k].quantity > 0.0 && positions[k].multiplier > 0.0
    ensures OpenRisk(Put(positions, p)) <= OpenRisk(positions) + PositionRisk(p)
    ensures forall q :: q in Put(positions, p) ==> q in positions || q == p
  {
    if positions == [] {
      assert [p][1..] == [];
    } else {
      var head := positions[0];
      MoneyNonNegative(if Risk(head.side, head.price, head.stop) > 0.0 then Risk(head.side, head.price, head.stop) else 0.0,
                       head.quantity, head.multiplier);
      if head.symbol == p.symbol {
        assert ([p] + positions[1..])[1..] == positions[1..];
      } else {
        PutAtMostAdds(positions[1..], p);
        assert ([head] + Put(positions[1..], p))[1..] == Put(positions[1..], p);
      }
    }
  }

  /** A permitted fill risks at most what the pending order had reserved. */
  lemma FillWithinReservation(broker: Gate, o: Order, i: nat, bar: Bar, equity: real)
    requires o.status == Pending && WellPlanned(o) && Verdict(broker, o, bar, equity).None?
    ensures PositionRisk(Opened(o, i, bar)) <= Reservation(o)
  {
    MoneyGateFollows(o.side, o.entry, bar.open, o.stop, o.target, o.stamp.policy, o.quantity, o.multiplier);
  }

  /** The fixed-3R money gate is implied by the R:R gate, for every order planned at exactly 3R. */
  lemma MoneyGateNeverRejects(o: Order, fill: real)
    requires WellPlanned(o) && o.stamp.policy == FixedThree && ValidLevels(o.side, fill, o.stop, o.target)
    requires WithinFillLimits(Fixed(FixedThree), Rr(o.side, fill, o.stop, o.target))
    ensures MoneyOk(o, fill, FixedThree)
  {
    MoneyGateFollows(o.side, o.entry, fill, o.stop, o.target, FixedThree, o.quantity, o.multiplier);
    MoneyNonNegative(Risk(o.side, o.entry, o.stop), o.quantity, o.multiplier);
  }

  /** Nothing open has a negative size. */
  ghost predicate Sizes(positions: seq<Position>) {
    forall k :: 0 <= k < |positions| ==> positions[k].quantity > 0.0 && positions[k].multiplier > 0.0
  }

  lemma DropShrinks(f: Portfolio, i: nat, status: Status)
    requires i < |f.orders| && f.orders[i].status == Pending && WellPlanned(f.orders[i]) && status != Pending
    ensures var next := f.(orders := f.orders[i := f.orders[i].(status := status)]);
            Potential(next) == Potential(f) - Reservation(f.orders[i]) <= Potential(f)
  {
    ReservationNonNegative(f.orders[i]);
    ReservedUpdate(f.orders, i, f.orders[i].(status := status));
  }

  lemma OpeningAdds(f: Portfolio, p: Position)
    requires Sizes(f.positions) && p.quantity > 0.0 && p.multiplier > 0.0
    ensures var next := f.(positions := Put(f.positions, p));
            Sizes(next.positions) && Potential(next) <= Potential(f) + PositionRisk(p)
  {
    PutAtMostAdds(f.positions, p);
    var next := Put(f.positions, p);
    forall k | 0 <= k < |next| ensures next[k].quantity > 0.0 && next[k].multiplier > 0.0 {
      assert next[k] in next;
    }
  }

  /** Neither a fill nor a rejection nor a cancellation of an order admitted as planned ever makes the potential grow,
      whatever other orders are pending beside it, stamped or not. */
  lemma ProcessingNeverGrows(broker: Gate, f: Portfolio, i: nat, bar: Bar)
    requires Sizes(f.positions) && i < |f.orders| && (f.orders[i].status == Pending ==> WellPlanned(f.orders[i]))
    ensures Sizes(Processed(broker, f, i, bar).positions)
    ensures Potential(Processed(broker, f, i, bar)) <= Potential(f)
  {
    var o := f.orders[i];
    if o.status == Pending {
      var verdict := Verdict(broker, o, bar, f.equity);
      if verdict.Some? {
        DropShrinks(f, i, verdict.value);
      } else {
        DropShrinks(f, i, Filled);
        FillWithinReservation(broker, o, i, bar, f.equity);
        OpeningAdds(f.(orders := f.orders[i := o.(status := Filled)]), Opened(o, i, bar));
      }
    }
  }

  lemma ProcessingKeepsSound(broker: Gate, f: Portfolio, i: nat, bar: Bar)
    requires Sound(f) && i < |f.orders|
    ensures Sound(Processed(broker, f, i, bar))
  {
    ProcessingNeverGrows(broker, f, i, bar);
  }

  // --- admission ---------------------------------------------------------------------------------------------------

  datatype Instrument = Instrument(symbol: string, multiplier: real, increment: real)
  datatype Plan = Plan(symbol: string, side: Side, entry: real, stop: real, target: real, policy: Policy)

  function Least(x: real, y: real): real { if x <= y then x else y }

  /** Gate 5: the smaller of the risk and the notional quantity, floored to the increment. */
  function Sized(plan: Plan, conservative: real, m: Instrument): real
    requires ValidLevels(plan.side, plan.entry, plan.stop, plan.target) && m.multiplier > 0.0 && m.increment > 0.0
  {
    NonZero(Risk(plan.side, plan.entry, plan.stop), m.multiplier);
    NonZero(plan.entry, m.multiplier);
    var raw := Least(conservative * PER_TRADE / (Risk(plan.side, plan.entry, plan.stop) * m.multiplier),
                     conservative / (plan.entry * m.multiplier));
    (raw / m.increment).Floor as real * m.increment
  }

  lemma NonZero(x: real, y: real)
    requires x > 0.0 && y > 0.0
    ensures x * y > 0.0
  {}

  predicate SymbolFree(f: Portfolio, symbol: string) {
    && (forall k :: 0 <= k < |f.positions| ==> f.positions[k].symbol != symbol)
    && (forall i :: 0 <= i < |f.orders| && f.orders[i].status == Pending ==> f.orders[i].symbol != symbol)
  }

  predicate PendingKnown(f: Portfolio) {
    forall i :: 0 <= i < |f.orders| && f.orders[i].status == Pending ==> f.orders[i].stamp.Registered?
  }

  /** Gates 2 to 8 on a portfolio; `drawdownOk` is gate 4, `conservative` the smaller of equity and realised balance. */
  function Evaluate(plan: Plan, f: Portfolio, m: Instrument, conservative: real, drawdownOk: bool, asOf: int)
    : Option<Order>
  {
    if !ValidLevels(plan.side, plan.entry, plan.stop, plan.target) then None
    else if Rr(plan.side, plan.entry, plan.stop, plan.target) != PlannedRr(plan.policy) then None
    else if m.symbol != plan.symbol || m.multiplier <= 0.0 || m.increment <= 0.0 then None
    else if conservative <= 0.0 || !drawdownOk then None
    else
      var quantity := Sized(plan, conservative, m);
      var planned := Money(Risk(plan.side, plan.entry, plan.stop), quantity, m.multiplier);
      if quantity <= 0.0 || planned > conservative * PER_TRADE then None
      else if !PendingKnown(f) || !SymbolFree(f, plan.symbol) then None
      else if Potential(f) + planned * Factor(plan.policy) > conservative * AGGREGATE then None
      else Some(Order(plan.symbol, plan.side, quantity, plan.entry, plan.stop, plan.target, m.multiplier, f.equity,
                      Registered(plan.policy), asOf, Pending))
  }

  lemma {:induction false} ReservedAppend(orders: seq<Order>, o: Order)
    ensures Reserved(orders + [o]) == Reserved(orders) + Reservation(o)
  {
    if orders == [] {
      assert [o][1..] == [] && orders + [o] == [o];
    } else {
      assert (orders + [o])[1..] == orders[1..] + [o];
      ReservedAppend(orders[1..], o);
    }
  }

  /** An admitted order is exactly as planned and brings the potential to at most the aggregate limit. */
  lemma AdmissionWithinLimit(plan: Plan, f: Portfolio, m: Instrument, conservative: real, drawdownOk: bool, asOf: int)
    requires Sound(f) && Evaluate(plan, f, m, conservative, drawdownOk, asOf).Some?
    ensures var o := Evaluate(plan, f, m, conservative, drawdownOk, asOf).value;
            var next := f.(orders := f.orders + [o]);
            && WellPlanned(o) && Sound(next)
            && Potential(next) == Potential(f) + PlannedMoney(o) * Factor(plan.policy) <= conservative * AGGREGATE
            && PlannedMoney(o) <= conservative * PER_TRADE
  {
    var o := Evaluate(plan, f, m, conservative, drawdownOk, asOf).value;
    ReservedAppend(f.orders, o);
    Exactly(plan);
  }

  lemma Exactly(plan: Plan)
    requires ValidLevels(plan.side, plan.entry, plan.stop, plan.target)
    requires Rr(plan.side, plan.entry, plan.stop, plan.target) == PlannedRr(plan.policy)
    ensures Reward(plan.side, plan.entry, plan.target) == PlannedRr(plan.policy) * Risk(plan.side, plan.entry, plan.stop)
  {
    var reward, risk := Reward(plan.side, plan.entry, plan.target), Risk(plan.side, plan.entry, plan.stop);
    Quotient(reward, risk, PlannedRr(plan.policy));
  }

  // --- runs --------------------------------------------------------------------------------------------------------

  datatype Event =
    | Admit(plan: Plan, m: Instrument, conservative: real, drawdownOk: bool, asOf: int)
    | Process(broker: Gate, order: nat, bar: Bar)
    | Close(position: nat, equity: real)
    | Mark(equity: real)

  /** `limit` is the aggregate limit of the latest admission. */
  datatype Book = Book(f: Portfolio, limit: real)

  function Step(b: Book, e: Event): Book {
    match e
    case Admit(plan, m, conservative, drawdownOk, asOf) =>
      var o := Evaluate(plan, b.f, m, conservative, drawdownOk, asOf);
      if o.None? then b else Book(b.f.(orders := b.f.orders + [o.value]), conservative * AGGREGATE)
    case Process(broker, order, bar) =>
      if order < |b.f.orders| then b.(f := Processed(broker, b.f, order, bar)) else b
    case Close(k, equity) =>
      if k < |b.f.positions|
      then b.(f := b.f.(positions := b.f.positions[..k] + b.f.positions[k + 1..], equity := equity)) else b
    case Mark(equity) => b.(f := b.f.(equity := equity))
  }

  function Run(b: Book, events: seq<Event>): Book {
    if events == [] then b else Step(Run(b, events[..|events| - 1]), events[|events| - 1])
  }

  lemma {:induction false} ClosingShrinks(positions: seq<Position>, k: nat)
    requires k < |positions|
    ensures OpenRisk(positions[..k] + positions[k + 1..]) == OpenRisk(positions) - PositionRisk(positions[k])
    decreases k
  {
    if k == 0 {
      assert positions[..0] + positions[1..] == positions[1..];
    } else {
      ClosingShrinks(positions[1..], k - 1);
      assert (positions[..k] + positions[k + 1..])[1..] == positions[1..][..k - 1] + positions[1..][k..];
    }
  }

  lemma CloseKeeps(b: Book, k: nat, equity: real)
    requires Sound(b.f) && k < |b.f.positions|
    ensures Sound(Step(b, Close(k, equity)).f) && Potential(Step(b, Close(k, equity)).f) <= Potential(b.f)
  {
    var p := b.f.positions[k];
    ClosingShrinks(b.f.positions, k);
    var distance := Risk(p.side, p.price, p.stop);
    MoneyNonNegative(if distance > 0.0 then distance else 0.0, p.quantity, p.multiplier);
  }

  /** In every run the potential stays within the limit of the latest admission: 2.3 percent of its conservative equity. */
  lemma {:induction false} PotentialStaysWithinLimit(b: Book, events: seq<Event>)
    requires Sound(b.f) && Potential(b.f) <= b.limit
    ensures Sound(Run(b, events).f) && Potential(Run(b, events).f) <= Run(b, events).limit
  {
    if events == [] {
    } else {
      var before, last := Run(b, events[..|events| - 1]), events[|events| - 1];
      PotentialStaysWithinLimit(b, events[..|events| - 1]);
      match last
      case Admit(plan, m, conservative, drawdownOk, asOf) =>
        if Evaluate(plan, before.f, m, conservative, drawdownOk, asOf).Some? {
          AdmissionWithinLimit(plan, before.f, m, conservative, drawdownOk, asOf);
        }
      case Process(broker, order, bar) =>
        if order < |before.f.orders| {
          ProcessingNeverGrows(broker, before.f, order, bar);
          ProcessingKeepsSound(broker, before.f, order, bar);
        }
      case Close(k, equity) => if k < |before.f.positions| { CloseKeeps(before, k, equity); }
      case Mark(_) =>
    }
  }
}
