/** Durable PAPER states only move forward: orders, fills and closed trades grow and watermarks rise, so a state that
    was left is never the durable state again. This is what makes the whole-state comparison of `save_paper` sound. */
module PaperHistory {
  import opened Maybe
  import opened ConflictEngine

  ghost predicate OrderLater(a: Order, b: Order) {
    b == a || (a.status == Pending && b == a.(status := b.status))
  }

  ghost predicate SamePosition(a: Position, b: Position) {
    b == a.(mark := b.mark) && a.mark <= b.mark
  }

  /** A position of `a` is still open in `b`, with a watermark at least as high, or a later trade closed it. */
  ghost predicate Kept(a: Paper, b: Paper, symbol: string)
    requires symbol in a.positions
  {
    || (symbol in b.positions && SamePosition(a.positions[symbol], b.positions[symbol]))
    || ClosedSince(a, b, a.positions[symbol].origin)
  }

  ghost predicate ClosedSince(a: Paper, b: Paper, origin: nat) {
    exists k :: |a.closed| <= k < |b.closed| && b.closed[k].origin == origin
  }

  ghost predicate Later(a: Paper, b: Paper) {
    && |a.orders| <= |b.orders|
    && (forall i :: 0 <= i < |a.orders| ==> OrderLater(a.orders[i], b.orders[i]))
    && a.closed <= b.closed
    && (forall symbol :: symbol in a.positions ==> Kept(a, b, symbol))
  }

  /** The state without the account totals, which only change together with the rest. */
  function Core(p: Paper): Paper { p.(equity := 0.0) }

  /** `b` is the durable state `a` itself or one strictly after it. */
  ghost predicate Since(a: Paper, b: Paper) {
    a == b || (Later(a, b) && Core(a) != Core(b))
  }

  lemma LaterTransitive(a: Paper, b: Paper, c: Paper)
    requires Later(a, b) && Later(b, c)
    ensures Later(a, c)
  {
    forall i | 0 <= i < |a.orders| ensures OrderLater(a.orders[i], c.orders[i]) {
      assert OrderLater(a.orders[i], b.orders[i]) && OrderLater(b.orders[i], c.orders[i]);
    }
    forall symbol | symbol in a.positions ensures Kept(a, c, symbol) {
      assert Kept(a, b, symbol);
      var origin := a.positions[symbol].origin;
      if ClosedSince(a, b, origin) {
        var k :| |a.closed| <= k < |b.closed| && b.closed[k].origin == origin;
        assert c.closed[k] == b.closed[k];
      } else {
        assert Kept(b, c, symbol);
        if ClosedSince(b, c, origin) {
          var k :| |b.closed| <= k < |c.closed| && c.closed[k].origin == origin;
          assert ClosedSince(a, c, origin);
        }
      }
    }
  }

  lemma LaterAntisymmetric(a: Paper, b: Paper)
    requires Later(a, b) && Later(b, a)
    ensures Core(a) == Core(b)
  {
    forall i | 0 <= i < |a.orders| ensures a.orders[i] == b.orders[i] {
      assert OrderLater(a.orders[i], b.orders[i]) && OrderLater(b.orders[i], a.orders[i]);
    }
    assert a.closed == b.closed;
    forall symbol | symbol in a.positions
      ensures symbol in b.positions && a.positions[symbol] == b.positions[symbol]
    {
      assert Kept(a, b, symbol);
      assert Kept(b, a, symbol);
    }
    forall symbol | symbol in b.positions ensures symbol in a.positions {
      assert Kept(b, a, symbol);
    }
    assert a.positions == b.positions;
  }

  lemma SinceTransitive(a: Paper, b: Paper, c: Paper)
    requires Since(a, b) && Since(b, c)
    ensures Since(a, c)
  {
    if a != b && b != c {
      LaterTransitive(a, b, c);
      if Core(a) == Core(c) {
        assert Later(c, b) by {
          assert Later(a, b);
          assert a.orders == c.orders && a.positions == c.positions && a.closed == c.closed;
          forall symbol | symbol in c.positions ensures Kept(c, b, symbol) {
            assert Kept(a, b, symbol);
          }
        }
        LaterAntisymmetric(b, c);
      }
    }
  }

  /** A PAPER state that was left is never durable again. */
  lemma NeverReturns(a: Paper, b: Paper)
    requires Since(a, b) && Since(b, a)
    ensures a == b
  {
    if a != b { LaterAntisymmetric(a, b); }
  }

  /** Everything that changes PAPER state apart from a reservation: a fill, a rejected or cancelled order, a processed
      bar, a close. The account totals take whatever value that change gives them. */
  datatype Change =
    | Fill(order: nat, mark: int, equity: real)
    | Drop(order: nat, cancelled: bool)
    | Progress(symbol: string, mark: int, equity: real)
    | Close(symbol: string, net: real, equity: real)

  function Apply(paper: Paper, change: Change): Paper {
    match change
    case Fill(i, mark, equity) =>
      if i < |paper.orders| && paper.orders[i].status == Pending then
        var o := paper.orders[i];
        paper.(equity := equity, orders := paper.orders[i := o.(status := Filled)],
               positions := paper.positions[o.symbol := Position(i, o.run, o.side, o.setup, mark)])
      else paper
    case Drop(i, cancelled) =>
      if i < |paper.orders| && paper.orders[i].status == Pending then
        paper.(orders := paper.orders[i := paper.orders[i].(status := if cancelled then Cancelled else Rejected)])
      else paper
    case Progress(symbol, mark, equity) =>
      if symbol in paper.positions && paper.positions[symbol].mark < mark then
        paper.(equity := equity,
               positions := paper.positions[symbol := paper.positions[symbol].(mark := mark)])
      else paper
    case Close(symbol, net, equity) =>
      if symbol in paper.positions then
        paper.(equity := equity, positions := paper.positions - {symbol},
               closed := paper.closed + [Trade(paper.positions[symbol].origin, net)])
      else paper
  }

  function Reserve(paper: Paper, order: Order): Paper {
    paper.(orders := paper.orders + [order])
  }

  lemma ApplyMovesForward(paper: Paper, change: Change)
    requires SingleExposure(paper)
    ensures Since(paper, Apply(paper, change)) && SingleExposure(Apply(paper, change))
  {
    var next := Apply(paper, change);
    if next != paper {
      match change
      case Fill(i, mark, equity) =>
        var symbol := paper.orders[i].symbol;
        assert PendingOf(paper, symbol, i);
        assert symbol !in paper.positions;
        assert next.orders[i] != paper.orders[i];
        PendingShrinks(paper, next, i);
      case Drop(i, cancelled) =>
        assert next.orders[i] != paper.orders[i];
        PendingShrinks(paper, next, i);
      case Progress(symbol, mark, equity) =>
        assert next.positions[symbol] != paper.positions[symbol];
        SameOrders(paper, next);
      case Close(symbol, net, equity) =>
        assert next.closed[|paper.closed|].origin == paper.positions[symbol].origin;
        assert ClosedSince(paper, next, paper.positions[symbol].origin);
        assert Core(paper).closed != Core(next).closed;
        SameOrders(paper, next);
    }
  }

  lemma SameOrders(a: Paper, b: Paper)
    requires SingleExposure(a) && a.orders == b.orders
    requires forall symbol :: symbol in b.positions ==> symbol in a.positions
    ensures SingleExposure(b)
  {
    forall symbol: string, i: nat | PendingOf(b, symbol, i) ensures PendingOf(a, symbol, i) {}
  }

  lemma PendingShrinks(a: Paper, b: Paper, i: nat)
    requires SingleExposure(a) && i < |a.orders| && a.orders[i].status == Pending
    requires |b.orders| == |a.orders| && b.orders[i].status != Pending
    requires b.orders == a.orders[i := a.orders[i].(status := b.orders[i].status)]
    requires forall symbol :: symbol in b.positions && symbol !in a.positions ==> symbol == a.orders[i].symbol
    ensures SingleExposure(b)
  {
    assert PendingOf(a, a.orders[i].symbol, i);
    forall symbol: string, k: nat | PendingOf(b, symbol, k) ensures PendingOf(a, symbol, k) && k != i {}
  }

  lemma ReserveMovesForward(paper: Paper, order: Order)
    requires SingleExposure(paper) && !Exposed(paper, order.symbol) && order.status == Pending
    ensures Since(paper, Reserve(paper, order)) && SingleExposure(Reserve(paper, order))
  {
    var next := Reserve(paper, order);
    assert Core(paper).orders != Core(next).orders;
    assert forall k: nat :: k < |paper.orders| ==> !PendingOf(paper, order.symbol, k);
    forall symbol: string, i: nat | PendingOf(next, symbol, i)
      ensures if symbol == order.symbol then i == |paper.orders| else PendingOf(paper, symbol, i)
    {
      assert i < |paper.orders| ==> PendingOf(paper, symbol, i);
    }
  }
}
