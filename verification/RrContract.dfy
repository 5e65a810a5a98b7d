/** R:R from levels, the policy limits, and the money factor they imply (core/rr_contract.py, core/risk_policy.py). */
module RrContract {
  import opened Maybe

  datatype Side = Long | Short

  /** Planned multiple and smallest actual multiple at the fill, per registered policy. */
  datatype Policy = FixedThree | FxTwo

  function PlannedRr(p: Policy): real { if p == FixedThree then 3.0 else 2.0 }

  function FillFloor(p: Policy): real { if p == FixedThree then 2.5 else 1.5 }

  function FillFactor(planned: real, floor: real): real
    requires floor > -1.0
  {
    (1.0 + planned) / (1.0 + floor)
  }

  function Factor(p: Policy): real { FillFactor(PlannedRr(p), FillFloor(p)) }

  predicate ValidLevels(side: Side, entry: real, stop: real, target: real) {
    entry > 0.0 && stop > 0.0 && target > 0.0 &&
    (if side == Long then stop < entry < target else target < entry < stop)
  }

  function Risk(side: Side, entry: real, stop: real): real { if side == Long then entry - stop else stop - entry }

  function Reward(side: Side, entry: real, target: real): real {
    if side == Long then target - entry else entry - target
  }

  function Rr(side: Side, entry: real, stop: real, target: real): (rr: real)
    requires ValidLevels(side, entry, stop, target)
    ensures rr > 0.0
  {
    Positive(Reward(side, entry, target), Risk(side, entry, stop));
    Reward(side, entry, target) / Risk(side, entry, stop)
  }

  lemma Positive(x: real, y: real)
    requires x > 0.0 && y > 0.0
    ensures x / y > 0.0
  {
    if x / y <= 0.0 {
      Product(x / y, y);
      assert (x / y) * y == x;
    }
  }

  lemma Product(x: real, y: real)
    requires x <= 0.0 && y > 0.0
    ensures x * y <= 0.0
  {}

  /** A quotient against a bound, without the division. */
  lemma Quotient(x: real, y: real, bound: real)
    requires y > 0.0
    ensures x / y >= bound <==> x >= bound * y
    ensures x / y <= bound <==> x <= bound * y
  {
    var q := x / y;
    assert q * y == x;
    if q >= bound { Scale(bound, q, y); } else { Scale(q, bound, y); }
    if q <= bound { Scale(q, bound, y); } else { Scale(bound, q, y); }
  }

  lemma Scale(a: real, b: real, y: real)
    requires a <= b && y > 0.0
    ensures a * y <= b * y && (a < b ==> a * y < b * y)
  {
    assert (b - a) * y >= 0.0;
    assert (b - a) * y == b * y - a * y;
    if a < b { assert (b - a) * y > 0.0; }
  }

  // --- the fill gate and the money gate ----------------------------------------------------------------------------

  lemma Spread(width: real, x: real, floor: real)
    requires x > 0.0 && floor > -1.0
    ensures (width - x) / x >= floor <==> x <= width / (1.0 + floor)
  {
    Quotient(width - x, x, floor);
    Quotient(width, 1.0 + floor, x);
    assert x * (1.0 + floor) == x + floor * x;
  }

  lemma Reorder(d: real, planned: real, floor: real)
    requires floor > -1.0
    ensures (d + planned * d) / (1.0 + floor) == d * FillFactor(planned, floor)
  {
    var r, q := FillFactor(planned, floor), 1.0 + floor;
    assert r * q == 1.0 + planned;
    assert d + planned * d == d * (r * q) == (d * r) * q;
    Quotient(d + planned * d, q, d * r);
  }

  /** With stop and target frozen and the plan exactly `planned` R, the actual R:R at a fill reaches `floor` exactly when
      the fill's risk is at most the planned risk times (1 + planned) / (1 + floor). */
  lemma FillRrIsFillRisk(side: Side, entry: real, fill: real, stop: real, target: real, planned: real, floor: real)
    requires ValidLevels(side, entry, stop, target) && ValidLevels(side, fill, stop, target)
    requires Reward(side, entry, target) == planned * Risk(side, entry, stop) && floor > -1.0
    ensures Rr(side, fill, stop, target) >= floor <==>
            Risk(side, fill, stop) <= Risk(side, entry, stop) * FillFactor(planned, floor)
  {
    var d, x := Risk(side, entry, stop), Risk(side, fill, stop);
    var width := d + planned * d;
    assert Reward(side, fill, target) == width - x;
    Spread(width, x, floor);
    Reorder(d, planned, floor);
  }

  /** The factors the registered policies stand for. */
  lemma RegisteredFactors()
    ensures Factor(FixedThree) == 8.0 / 7.0 && Factor(FxTwo) == 6.0 / 5.0
  {}

  function Money(risk: real, quantity: real, multiplier: real): real { risk * quantity * multiplier }

  lemma MoneyMonotone(a: real, b: real, quantity: real, multiplier: real)
    requires a <= b && quantity > 0.0 && multiplier > 0.0
    ensures Money(a, quantity, multiplier) <= Money(b, quantity, multiplier)
  {
    Scale(a, b, quantity);
    Scale(a * quantity, b * quantity, multiplier);
  }

  lemma MoneyScales(a: real, factor: real, quantity: real, multiplier: real)
    ensures Money(a * factor, quantity, multiplier) == Money(a, quantity, multiplier) * factor
  {
    var m := quantity * multiplier;
    assert Money(a * factor, quantity, multiplier) == a * factor * m;
    assert Money(a, quantity, multiplier) == a * m;
  }

  /** The money gate can never reject what the R:R gate passed. */
  lemma MoneyGateFollows(side: Side, entry: real, fill: real, stop: real, target: real, p: Policy, quantity: real,
                         multiplier: real)
    requires ValidLevels(side, entry, stop, target) && ValidLevels(side, fill, stop, target)
    requires Reward(side, entry, target) == PlannedRr(p) * Risk(side, entry, stop)
    requires Rr(side, fill, stop, target) >= FillFloor(p) && quantity > 0.0 && multiplier > 0.0
    ensures Money(Risk(side, fill, stop), quantity, multiplier) <=
            Money(Risk(side, entry, stop), quantity, multiplier) * Factor(p)
  {
    FillRrIsFillRisk(side, entry, fill, stop, target, PlannedRr(p), FillFloor(p));
    MoneyMonotone(Risk(side, fill, stop), Risk(side, entry, stop) * Factor(p), quantity, multiplier);
    MoneyScales(Risk(side, entry, stop), Factor(p), quantity, multiplier);
  }
}
