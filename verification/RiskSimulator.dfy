/** The simulator with sized positions, stops, targets and a time limit (simulador.py, `simular_operaciones_con_riesgo`;
    riesgo.py, `calcular_plan_riesgo`). */
module RiskSimulator {
  import opened Maybe
  import opened RrContract
  import opened Simulator

  datatype StopMethod = Atr | Percent
  datatype RiskConfig = RiskConfig(risk: real, stopBy: StopMethod, atrMultiple: real, ratio: real, maxCapital: real,
                                   stopPercent: real)

  predicate ValidRisk(r: RiskConfig) {
    && 0.0 < r.risk <= 100.0 && r.atrMultiple > 0.0 && r.ratio > 0.0
    && 0.0 < r.maxCapital <= 100.0 && r.stopPercent > 0.0
  }

  /** `sized` tells a plan computed here from one that arrives approved with the event. */
  datatype Plan = Plan(side: Side, price: real, quantity: real, used: real, riskMoney: real, stop: real, target: real,
                       sized: bool)

  datatype Event = Signal(side: Side, atr: Option<real>, decision: Option<Plan>)

  datatype Held = Held(plan: Plan, entry: nat, limit: nat, before: real, cash: real)

  datatype Motive = AtStop | AtTarget | OutOfTime

  datatype Closed = Closed(plan: Plan, entry: nat, exit: nat, before: real, price: real, motive: Motive, gap: bool,
                           gross: real, net: real, after: real)

  datatype Book = Book(capital: real, held: Option<Held>, lastExit: int, closed: seq<Closed>, curve: seq<real>)

  function Distance(r: RiskConfig, price: real, atr: Option<real>): Option<real> {
    if r.stopBy == Percent then Some(price * r.stopPercent / 100.0)
    else if Usable(atr) then Some(atr.value * r.atrMultiple) else None
  }

  function Least(x: real, y: real): real { if x <= y then x else y }

  function Money(capital: real, percent: real): real { capital * percent / 100.0 }

  /** `calcular_plan_riesgo`: the smaller of the quantity the risk allows and the one the capital allows. */
  function Size(r: RiskConfig, capital: real, price: real, atr: Option<real>, side: Side): Option<Plan> {
    if capital <= 0.0 || price <= 0.0 || !ValidRisk(r) then None
    else
      var distance := Distance(r, price, atr);
      if distance.None? then None
      else
        var stop := if side == Long then price - distance.value else price + distance.value;
        if stop <= 0.0 || distance.value == 0.0 then None
        else
          var unit := if stop < price then price - stop else stop - price;
          var quantity := Least(Money(capital, r.risk) / unit, Money(capital, r.maxCapital) / price);
          Some(Plan(side, price, quantity, quantity * price, Money(capital, r.risk), stop,
                    if side == Long then price + unit * r.ratio else price - unit * r.ratio, true))
  }

  function Open(cfg: Config, r: RiskConfig, b: Book, i: nat, event: Option<Event>, bar: Bar): Option<Held> {
    if b.held.Some? || event.None? || i == 0 || i - 1 <= b.lastExit then b.held
    else
      var plan := if event.value.decision.Some? then event.value.decision
                  else if !Usable(bar.open) then None
                  else Size(r, b.capital, bar.open.value, event.value.atr, event.value.side);
      if plan.None? then None
      else Some(Held(plan.value, i, i + cfg.hold, b.capital, b.capital - plan.value.used))
  }

  predicate Below(price: Option<real>, level: real) { Usable(price) && price.value <= level }

  predicate Above(price: Option<real>, level: real) { Usable(price) && price.value >= level }

  /** A gap at the open first, then the stop before the target, then the time limit. */
  function ExitOf(h: Held, i: nat, bar: Bar): Option<(real, Motive, bool)> {
    var p, long := h.plan, h.plan.side == Long;
    if i <= h.entry then None
    else if (if long then Below(bar.open, p.stop) else Above(bar.open, p.stop)) then Some((bar.open.value, AtStop, true))
    else if (if long then Above(bar.open, p.target) else Below(bar.open, p.target))
      then Some((bar.open.value, AtTarget, true))
    else if (if long then Below(bar.low, p.stop) else Above(bar.high, p.stop)) then Some((p.stop, AtStop, false))
    else if (if long then Above(bar.high, p.target) else Below(bar.low, p.target)) then Some((p.target, AtTarget, false))
    else if i >= h.limit && Usable(bar.close) then Some((bar.close.value, OutOfTime, false))
    else None
  }

  function Close(cfg: Config, h: Held, i: nat, price: real, motive: Motive, gap: bool): Closed {
    var gross := if h.plan.side == Long then h.plan.quantity * price - h.plan.used
                 else h.plan.quantity * (h.plan.price - price);
    var net := gross - Money(h.plan.used, cfg.cost);
    Closed(h.plan, h.entry, i, h.before, price, motive, gap, gross, net, h.before + net)
  }

  function Equity(h: Held, capital: real, bar: Bar): real {
    if Usable(bar.close) then h.cash + h.plan.quantity * bar.close.value else capital
  }

  function Step(cfg: Config, r: RiskConfig, b: Book, i: nat, event: Option<Event>, bar: Bar): Book {
    Carry(cfg, b, Open(cfg, r, b, i, event, bar), i, bar)
  }

  /** The bar on the position held over it, if any. */
  function Carry(cfg: Config, b: Book, held: Option<Held>, i: nat, bar: Bar): Book {
    if held.None? then b.(held := None, curve := b.curve + [b.capital])
    else
      var exit := ExitOf(held.value, i, bar);
      if exit.None? then b.(held := held, curve := b.curve + [Equity(held.value, b.capital, bar)])
      else
        var (price, motive, gap) := exit.value;
        var trade := Close(cfg, held.value, i, price, motive, gap);
        Book(trade.after, None, i, b.closed + [trade], b.curve + [trade.after])
  }

  function Run(cfg: Config, r: RiskConfig, bars: seq<Bar>, events: seq<Option<Event>>): Book
    requires |events| == |bars|
  {
    if bars == [] then Book(cfg.capital, None, -1, [], [cfg.capital])
    else
      var n := |bars| - 1;
      Step(cfg, r, Run(cfg, r, bars[..n], events[..n]), n, if n > 0 then events[n - 1] else None, bars[n])
  }

  method EnterOnSignal(cfg: Config, r: RiskConfig, b: Book, i: nat, event: Option<Event>, bar: Bar)
    returns (held: Option<Held>)
    ensures held == Open(cfg, r, b, i, event, bar)
  {
    held := b.held;
    if held.None? && i > 0 && i - 1 > b.lastExit && event.Some? {
      var plan := event.value.decision;
      if plan.None? && Usable(bar.open) {
        plan := Size(r, b.capital, bar.open.value, event.value.atr, event.value.side);
      }
      if plan.Some? {
        held := Some(Held(plan.value, i, i + cfg.hold, b.capital, b.capital - plan.value.used));
      }
    }
  }

  method OneBar(cfg: Config, r: RiskConfig, b: Book, i: nat, event: Option<Event>, bar: Bar) returns (next: Book)
    ensures next == Step(cfg, r, b, i, event, bar)
  {
    var held := EnterOnSignal(cfg, r, b, i, event, bar);
    next := CarryOver(cfg, b, held, i, bar);
  }

  lemma RunNext(cfg: Config, r: RiskConfig, bars: seq<Bar>, events: seq<Option<Event>>, i: nat)
    requires |events| == |bars| && i < |bars|
    ensures Run(cfg, r, bars[..i + 1], events[..i + 1]) ==
            Step(cfg, r, Run(cfg, r, bars[..i], events[..i]), i, if i > 0 then events[i - 1] else None, bars[i])
  {
    assert bars[..i + 1][..i] == bars[..i] && events[..i + 1][..i] == events[..i];
  }

  method SimulateWithRisk(cfg: Config, r: RiskConfig, bars: seq<Bar>, events: seq<Option<Event>>)
    returns (result: Option<Book>)
    requires |events| == |bars|
    ensures result == if bars == [] || !Valid(cfg) then None else Some(Run(cfg, r, bars, events))
  {
    if bars == [] || !Valid(cfg) {
      return None;
    }
    var book := Book(cfg.capital, None, -1, [], [cfg.capital]);
    for i := 0 to |bars|
      invariant book == Run(cfg, r, bars[..i], events[..i])
    {
      RunNext(cfg, r, bars, events, i);
      book := OneBar(cfg, r, book, i, if i > 0 then events[i - 1] else None, bars[i]);
    }
    assert bars[..|bars|] == bars && events[..|events|] == events;
    return Some(book);
  }

  method CarryOver(cfg: Config, b: Book, held: Option<Held>, i: nat, bar: Bar) returns (next: Book)
    ensures next == Carry(cfg, b, held, i, bar)
  {
    var equity := b.capital;
    next := b.(held := held);
    if held.Some? {
      equity := Equity(held.value, b.capital, bar);
      var exit := ExitOf(held.value, i, bar);
      if exit.Some? {
        var trade := Close(cfg, held.value, i, exit.value.0, exit.value.1, exit.value.2);
        next := next.(capital := trade.after, held := None, lastExit := i, closed := b.closed + [trade]);
        equity := trade.after;
      }
    }
    next := next.(curve := b.curve + [equity]);
  }

  // --- properties --------------------------------------------------------------------------------------------------

  ghost predicate Extends(part: Book, full: Book, k: nat, n: nat) {
    && |part.curve| == k + 1 && |full.curve| == n + 1 && part.curve <= full.curve
    && part.closed <= full.closed
    && forall j :: |part.closed| <= j < |full.closed| ==> full.closed[j].exit >= k
  }

  lemma StepExtends(cfg: Config, r: RiskConfig, b: Book, i: nat, event: Option<Event>, bar: Bar)
    requires |b.curve| == i + 1
    ensures Extends(b, Step(cfg, r, b, i, event, bar), i, i + 1)
  {}

  lemma ExtendsTransitive(a: Book, b: Book, c: Book, k: nat, m: nat, n: nat)
    requires Extends(a, b, k, m) && Extends(b, c, m, n) && k <= m <= n
    ensures Extends(a, c, k, n)
  {
    forall j | |a.closed| <= j < |c.closed| ensures c.closed[j].exit >= k {
      if j < |b.closed| { assert c.closed[j] == b.closed[j]; }
    }
  }

  /** No look-ahead: on every prefix of the history the run gives the prefix of its curve and exactly the trades that had
      closed by then. */
  lemma {:induction false} PrefixIsPrefix(cfg: Config, r: RiskConfig, bars: seq<Bar>, events: seq<Option<Event>>, k: nat)
    requires |events| == |bars| && k <= |bars|
    ensures Extends(Run(cfg, r, bars[..k], events[..k]), Run(cfg, r, bars, events), k, |bars|)
    decreases |bars|
  {
    var n := |bars| - 1;
    if k < |bars| {
      assert bars[..n][..k] == bars[..k] && events[..n][..k] == events[..k];
      PrefixIsPrefix(cfg, r, bars[..n], events[..n], k);
      var mid := Run(cfg, r, bars[..n], events[..n]);
      StepExtends(cfg, r, mid, n, if n > 0 then events[n - 1] else None, bars[n]);
      ExtendsTransitive(Run(cfg, r, bars[..k], events[..k]), mid, Run(cfg, r, bars, events), k, n, |bars|);
    } else {
      assert bars[..k] == bars && events[..k] == events;
      CurveLength(cfg, r, bars, events);
    }
  }

  lemma {:induction false} CurveLength(cfg: Config, r: RiskConfig, bars: seq<Bar>, events: seq<Option<Event>>)
    requires |events| == |bars|
    ensures |Run(cfg, r, bars, events).curve| == |bars| + 1
  {
    if bars != [] { CurveLength(cfg, r, bars[..|bars| - 1], events[..|bars| - 1]); }
  }

  /** A plan sized here puts at most the configured share of the capital at risk between entry and stop. */
  ghost predicate SizedWithin(r: RiskConfig, plan: Plan, before: real) {
    plan.sized ==>
      && plan.used == plan.quantity * plan.price
      && (if plan.side == Long then plan.stop < plan.price else plan.price < plan.stop)
      && plan.quantity * StopDistance(plan) <= Money(before, r.risk)
  }

  function StopDistance(plan: Plan): real {
    if plan.side == Long then plan.price - plan.stop else plan.stop - plan.price
  }

  lemma SizeWithin(r: RiskConfig, capital: real, price: real, atr: Option<real>, side: Side)
    requires Size(r, capital, price, atr, side).Some?
    ensures SizedWithin(r, Size(r, capital, price, atr, side).value, capital)
  {
    var plan := Size(r, capital, price, atr, side).value;
    var unit := StopDistance(plan);
    DistancePositive(r, price, atr);
    Quotient(Money(capital, r.risk), unit, plan.quantity);
  }

  lemma DistancePositive(r: RiskConfig, price: real, atr: Option<real>)
    requires price > 0.0 && ValidRisk(r) && Distance(r, price, atr).Some?
    ensures Distance(r, price, atr).value > 0.0
  {
    if r.stopBy == Percent {
      Scale(0.0, price, r.stopPercent);
    } else {
      Scale(0.0, atr.value, r.atrMultiple);
    }
  }

  /** Trades never overlap and leave a bar between them; the position held, if any, came after them all. */
  ghost predicate InOrder(r: RiskConfig, b: Book, n: nat) {
    && (forall j :: 0 <= j < |b.closed| ==>
          b.closed[j].entry < b.closed[j].exit <= b.lastExit && SizedWithin(r, b.closed[j].plan, b.closed[j].before))
    && (forall j, k :: 0 <= j < k < |b.closed| ==> b.closed[j].exit + 1 < b.closed[k].entry)
    && b.lastExit < n
    && (b.held.Some? ==>
          && b.lastExit + 1 < b.held.value.entry < n && b.held.value.before == b.capital
          && SizedWithin(r, b.held.value.plan, b.held.value.before))
  }

  /** Every event's own decision is marked as not sized here. */
  ghost predicate Marked(events: seq<Option<Event>>) {
    forall i :: 0 <= i < |events| && events[i].Some? && events[i].value.decision.Some? ==>
      !events[i].value.decision.value.sized
  }

  lemma StepInOrder(cfg: Config, r: RiskConfig, b: Book, i: nat, event: Option<Event>, bar: Bar)
    requires InOrder(r, b, i)
    requires event.Some? && event.value.decision.Some? ==> !event.value.decision.value.sized
    ensures InOrder(r, Step(cfg, r, b, i, event, bar), i + 1)
  {
    var held := Open(cfg, r, b, i, event, bar);
    if held.Some? && b.held.None? && event.value.decision.None? {
      SizeWithin(r, b.capital, bar.open.value, event.value.atr, event.value.side);
    }
  }

  lemma {:induction false} TradesInOrder(cfg: Config, r: RiskConfig, bars: seq<Bar>, events: seq<Option<Event>>)
    requires |events| == |bars| && Marked(events)
    ensures InOrder(r, Run(cfg, r, bars, events), |bars|)
  {
    if bars != [] {
      var n := |bars| - 1;
      TradesInOrder(cfg, r, bars[..n], events[..n]);
      StepInOrder(cfg, r, Run(cfg, r, bars[..n], events[..n]), n, if n > 0 then events[n - 1] else None, bars[n]);
    }
  }

  function NetOf(closed: seq<Closed>): real {
    if closed == [] then 0.0 else NetOf(closed[..|closed| - 1]) + closed[|closed| - 1].net
  }

  lemma StepConserves(cfg: Config, r: RiskConfig, b: Book, i: nat, event: Option<Event>, bar: Bar)
    requires b.held.Some? ==> b.held.value.before == b.capital
    ensures var next := Step(cfg, r, b, i, event, bar);
            next.capital - b.capital == NetOf(next.closed) - NetOf(b.closed)
  {
    var next := Step(cfg, r, b, i, event, bar);
    if next.closed != b.closed { assert next.closed[..|next.closed| - 1] == b.closed; }
  }

  /** Realised capital is the initial capital plus the net results of the closed trades. */
  lemma {:induction false} CapitalIsConserved(cfg: Config, r: RiskConfig, bars: seq<Bar>, events: seq<Option<Event>>)
    requires |events| == |bars| && Marked(events)
    ensures Run(cfg, r, bars, events).capital == cfg.capital + NetOf(Run(cfg, r, bars, events).closed)
  {
    if bars != [] {
      var n := |bars| - 1;
      CapitalIsConserved(cfg, r, bars[..n], events[..n]);
      TradesInOrder(cfg, r, bars[..n], events[..n]);
      StepConserves(cfg, r, Run(cfg, r, bars[..n], events[..n]), n, if n > 0 then events[n - 1] else None, bars[n]);
    }
  }

  /** What a trade closed by the run looks like. */
  ghost predicate Exited(cfg: Config, trade: Closed) {
    && trade.gross == (if trade.plan.side == Long then trade.plan.quantity * trade.price - trade.plan.used
                       else trade.plan.quantity * (trade.plan.price - trade.price))
    && (trade.motive == AtStop && !trade.gap ==> trade.price == trade.plan.stop)
  }

  lemma StepExited(cfg: Config, r: RiskConfig, b: Book, i: nat, event: Option<Event>, bar: Bar)
    ensures var next := Step(cfg, r, b, i, event, bar);
            next.closed == b.closed || (|next.closed| == |b.closed| + 1 && b.closed == next.closed[..|b.closed|] &&
                                        Exited(cfg, next.closed[|b.closed|]))
  {}

  lemma {:induction false} AllExited(cfg: Config, r: RiskConfig, bars: seq<Bar>, events: seq<Option<Event>>)
    requires |events| == |bars|
    ensures forall j :: 0 <= j < |Run(cfg, r, bars, events).closed| ==> Exited(cfg, Run(cfg, r, bars, events).closed[j])
  {
    if bars != [] {
      var n := |bars| - 1;
      AllExited(cfg, r, bars[..n], events[..n]);
      var before := Run(cfg, r, bars[..n], events[..n]);
      StepExited(cfg, r, before, n, if n > 0 then events[n - 1] else None, bars[n]);
      var closed := Run(cfg, r, bars, events).closed;
      forall j | 0 <= j < |closed| ensures Exited(cfg, closed[j]) {
        if j < |before.closed| { assert closed[j] == before.closed[j]; }
      }
    }
  }

  lemma LossOf(cfg: Config, r: RiskConfig, t: Closed)
    requires SizedWithin(r, t.plan, t.before) && Exited(cfg, t) && t.plan.sized && t.motive == AtStop && !t.gap
    ensures t.gross >= -Money(t.before, r.risk)
  {
    var q, price, stop := t.plan.quantity, t.plan.price, t.plan.stop;
    if t.plan.side == Long {
      assert q * stop - q * price == -(q * (price - stop));
    } else {
      assert q * (price - stop) == -(q * (stop - price));
    }
  }

  /** A stop that is not jumped over by a gap loses, before cost, at most the configured share of the capital held before
      the trade. */
  lemma StopLossIsBounded(cfg: Config, r: RiskConfig, bars: seq<Bar>, events: seq<Option<Event>>, j: nat)
    requires |events| == |bars| && Marked(events) && j < |Run(cfg, r, bars, events).closed|
    requires var t := Run(cfg, r, bars, events).closed[j];
             t.plan.sized && t.motive == AtStop && !t.gap
    ensures var t := Run(cfg, r, bars, events).closed[j];
            t.gross >= -Money(t.before, r.risk)
  {
    TradesInOrder(cfg, r, bars, events);
    AllExited(cfg, r, bars, events);
    LossOf(cfg, r, Run(cfg, r, bars, events).closed[j]);
  }
}
