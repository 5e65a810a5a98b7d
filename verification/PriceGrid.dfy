/** The five-decimal price grid and its half-up rounding (execution/oanda_client.py, `round_price`). Prices are exact. */
module PriceGrid {
  const TICKS := 100000.0

  function Round(price: real): real {
    (price * TICKS + 0.5).Floor as real / TICKS
  }

  predicate OnGrid(price: real) {
    price * TICKS == (price * TICKS).Floor as real
  }

  lemma RoundKeepsGrid(price: real)
    requires OnGrid(price)
    ensures Round(price) == price
  {
    var k := (price * TICKS).Floor;
    assert (k as real + 0.5).Floor == k;
    assert k as real / TICKS == price;
  }

  lemma RoundIsOnGrid(price: real)
    ensures OnGrid(Round(price))
  {
    var k := (price * TICKS + 0.5).Floor;
    assert Round(price) * TICKS == k as real;
  }

  lemma RoundMonotone(x: real, y: real)
    requires x <= y
    ensures Round(x) <= Round(y)
  {
    var i, j := (x * TICKS + 0.5).Floor, (y * TICKS + 0.5).Floor;
    assert i <= j;
    assert i as real / TICKS <= j as real / TICKS;
  }

  lemma TicksOnGrid(price: real, ticks: int)
    requires price * TICKS == ticks as real
    ensures OnGrid(price)
  {
    assert (ticks as real).Floor == ticks;
  }

  lemma SumOnGrid(x: real, y: real)
    requires OnGrid(x) && OnGrid(y)
    ensures OnGrid(x + y) && OnGrid(x - y)
  {
    var i, j := (x * TICKS).Floor, (y * TICKS).Floor;
    assert i as real + j as real == (i + j) as real && i as real - j as real == (i - j) as real;
    TicksOnGrid(x + y, i + j);
    TicksOnGrid(x - y, i - j);
  }
}
