/** The three views of the PAPER account are one: what the PAPER broker does to a pending order and what the trade manager
    does to an open position are changes of the durable state the submission protocol compares
    (execution/paper_broker.py, execution/trade_manager.py, storage/database.py). */
module PaperSteps {
  import opened Maybe
  import opened ConflictEngine
  import opened PaperHistory
  import Broker = PaperBroker
  import Manager = TradeManager

  function StatusOf(s: Broker.Status): OrderStatus {
    match s
    case Pending => Pending
    case Filled => Filled
    case Cancelled => Cancelled
    case Rejected => Rejected
  }

  // --- the broker's pending orders ---------------------------------------------------------------------------------

  /** The broker's account lists the orders of the durable state, and its positions are the open ones. */
  ghost predicate ShowsOrders(p: Paper, f: Broker.Portfolio) {
    && |p.orders| == |f.orders|
    && (forall i :: 0 <= i < |f.orders| ==>
          p.orders[i].symbol == f.orders[i].symbol && p.orders[i].status == StatusOf(f.orders[i].status))
  }

  ghost predicate Open(positions: seq<Broker.Position>, symbol: string, origin: nat) {
    exists k :: 0 <= k < |positions| && positions[k].symbol == symbol && positions[k].order == origin
  }

  ghost predicate OneEach(positions: seq<Broker.Position>) {
    forall k, n :: 0 <= k < n < |positions| ==> positions[k].symbol != positions[n].symbol
  }

  ghost predicate ShowsPositions(p: Paper, positions: seq<Broker.Position>) {
    && OneEach(positions)
    && (forall k :: 0 <= k < |positions| ==> positions[k].symbol in p.positions)
    && (forall symbol :: symbol in p.positions ==> Open(positions, symbol, p.positions[symbol].origin))
  }

  lemma {:induction false} PutHas(positions: seq<Broker.Position>, q: Broker.Position)
    requires OneEach(positions)
    ensures forall x :: x in Broker.Put(positions, q) <==> x == q || (x in positions && x.symbol != q.symbol)
  {
    if positions != [] {
      assert positions == [positions[0]] + positions[1..];
      if positions[0].symbol == q.symbol {
        assert forall x :: x in positions[1..] ==> x.symbol != q.symbol;
      } else {
        PutHas(positions[1..], q);
      }
    }
  }

  lemma {:induction false} PutOneEach(positions: seq<Broker.Position>, q: Broker.Position)
    requires OneEach(positions)
    ensures OneEach(Broker.Put(positions, q))
  {
    if positions != [] && positions[0].symbol != q.symbol {
      var rest := Broker.Put(positions[1..], q);
      PutOneEach(positions[1..], q);
      PutHas(positions[1..], q);
      forall n | 0 <= n < |rest| ensures rest[n].symbol != positions[0].symbol {
        assert rest[n] in rest;
      }
    }
  }

  /** The change one bar makes to the durable state: a fill, a drop, or none. */
  function ChangeOfBar(p: Paper, broker: Broker.Gate, f: Broker.Portfolio, i: nat, bar: Broker.Bar): Change
    requires i < |f.orders|
  {
    match Broker.Verdict(broker, f.orders[i], bar, f.equity)
    case None => Fill(i, if bar.time.Some? then bar.time.value else 0, p.equity)
    case Some(status) => Drop(i, status.Cancelled?)
  }

  /** Every bar the broker processes for an order is one change of the durable state, and so moves it forward or leaves it
      and keeps one exposure per symbol. */
  lemma ProcessNextBarMovesForward(p: Paper, broker: Broker.Gate, f: Broker.Portfolio, i: nat, bar: Broker.Bar)
    requires SingleExposure(p) && ShowsOrders(p, f) && ShowsPositions(p, f.positions) && i < |f.orders|
    ensures var next, g := Apply(p, ChangeOfBar(p, broker, f, i, bar)), Broker.Processed(broker, f, i, bar);
            && ShowsOrders(next, g) && ShowsPositions(next, g.positions)
            && Since(p, next) && SingleExposure(next)
  {
    var next, g := Apply(p, ChangeOfBar(p, broker, f, i, bar)), Broker.Processed(broker, f, i, bar);
    ApplyMovesForward(p, ChangeOfBar(p, broker, f, i, bar));
    if f.orders[i].status.Pending? && Broker.Verdict(broker, f.orders[i], bar, f.equity).None? {
      FillShows(p, f.positions, next, Broker.Opened(f.orders[i], i, bar));
    }
  }

  lemma FillShows(p: Paper, positions: seq<Broker.Position>, next: Paper, q: Broker.Position)
    requires ShowsPositions(p, positions)
    requires q.symbol in next.positions && next.positions[q.symbol].origin == q.order
    requires next.positions == p.positions[q.symbol := next.positions[q.symbol]]
    ensures ShowsPositions(next, Broker.Put(positions, q))
  {
    PutHas(positions, q);
    PutOneEach(positions, q);
    var after := Broker.Put(positions, q);
    forall k | 0 <= k < |after| ensures after[k].symbol in next.positions {
      assert after[k] in after;
    }
    assert q in after;
    forall symbol | symbol in next.positions ensures Open(after, symbol, next.positions[symbol].origin) {
      if symbol != q.symbol {
        assert Open(positions, symbol, p.positions[symbol].origin);
        var k :| 0 <= k < |positions| && positions[k].symbol == symbol
                 && positions[k].order == p.positions[symbol].origin;
        assert positions[k] in after;
      }
    }
  }

  // --- the manager's open positions --------------------------------------------------------------------------------

  /** The manager's account holds the positions of the durable state, at their watermarks, and its closed trades. */
  ghost predicate ShowsTrades(p: Paper, m: Manager.Paper) {
    && p.positions.Keys == m.positions.Keys
    && (forall symbol :: symbol in m.positions ==>
          && p.positions[symbol].origin == m.positions[symbol].id
          && p.positions[symbol].mark == Manager.Watermark(m.positions[symbol]))
    && |p.closed| == |m.trades|
    && (forall k :: 0 <= k < |m.trades| ==> p.closed[k] == Trade(m.trades[k].position, m.trades[k].net))
  }

  /** The change one closed bar makes to the durable state: progress, a close, or none. */
  function ChangeOfClosedBar(p: Paper, m: Manager.Paper, bar: Manager.Bar): Option<Change> {
    if bar.symbol !in m.positions || !Manager.Applies(m.positions[bar.symbol], bar) then None
    else match Manager.Exit(m.positions[bar.symbol], bar)
         case None => Some(Progress(bar.symbol, bar.start, p.equity))
         case Some((price, reason)) =>
           Some(Close(bar.symbol, Manager.Closing(m.positions[bar.symbol], price, bar.start, reason).net, p.equity))
  }

  /** Every closed bar the manager processes is at most one change of the durable state, and so moves it forward or leaves
      it and keeps one exposure per symbol. */
  lemma ProcessBarMovesForward(p: Paper, m: Manager.Paper, bar: Manager.Bar)
    requires SingleExposure(p) && ShowsTrades(p, m)
    ensures var change := ChangeOfClosedBar(p, m, bar);
            var next := if change.Some? then Apply(p, change.value) else p;
            ShowsTrades(next, Manager.ProcessBar(m, bar)) && Since(p, next) && SingleExposure(next)
  {
    var change := ChangeOfClosedBar(p, m, bar);
    if change.Some? {
      ApplyMovesForward(p, change.value);
      assert bar.symbol in p.positions;
    }
  }
}
