/** What one closed bar does to the open position of its symbol (execution/trade_manager.py, `process_bar`). */
module TradeManager {
  import opened Maybe

  datatype Side = Long | Short
  datatype Reason = AtStop | AtTarget | ByOther

  datatype Bar = Bar(symbol: string, start: int, open: real, high: real, low: real, close: real)

  datatype Position = Position(id: nat, side: Side, entry: real, stop: real, target: real, quantity: real,
                               multiplier: real, costRate: real, openedAt: int, processed: Option<int>, last: Option<real>)

  datatype Trade = Trade(position: nat, exit: real, net: real, at: int, reason: Reason)

  datatype Paper = Paper(positions: map<string, Position>, trades: seq<Trade>, realized: real)

  /** The prices a market bar is constructed with. */
  predicate Priced(bar: Bar) {
    && 0.0 < bar.low && bar.low <= bar.open <= bar.high && bar.low <= bar.close <= bar.high
  }

  function Watermark(p: Position): int { if p.processed.Some? then p.processed.value else p.openedAt }

  /** Where the bar takes the position out: a gap through a level at the open, then the stop before the target. */
  function Exit(p: Position, bar: Bar): Option<(real, Reason)> {
    var long := p.side == Long;
    if (if long then bar.open <= p.stop else bar.open >= p.stop) then Some((bar.open, AtStop))
    else if (if long then bar.open >= p.target else bar.open <= p.target) then Some((bar.open, AtTarget))
    else if (if long then bar.low <= p.stop else bar.high >= p.stop) then Some((p.stop, AtStop))
    else if (if long then bar.high >= p.target else bar.low <= p.target) then Some((p.target, AtTarget))
    else None
  }

  function Closing(p: Position, exit: real, at: int, reason: Reason): Trade {
    var gross := (if p.side == Long then exit - p.entry else p.entry - exit) * p.quantity * p.multiplier;
    Trade(p.id, exit, gross - p.costRate * p.quantity * p.entry / 100.0, at, reason)
  }

  /** The bar reaches the position: later than its opening and its watermark, with usable prices. */
  predicate Applies(p: Position, bar: Bar) {
    bar.start > p.openedAt && bar.start > Watermark(p) && p.multiplier > 0.0 && Priced(bar)
  }

  function ProcessBar(paper: Paper, bar: Bar): Paper {
    if bar.symbol !in paper.positions || !Applies(paper.positions[bar.symbol], bar) then paper
    else
      var p := paper.positions[bar.symbol];
      match Exit(p, bar)
      case None =>
        paper.(positions := paper.positions[bar.symbol := p.(last := Some(bar.close), processed := Some(bar.start))])
      case Some((price, reason)) =>
        var trade := Closing(p, price, bar.start, reason);
        Paper(paper.positions - {bar.symbol}, paper.trades + [trade], paper.realized + trade.net)
  }
}
