/** Planning on the instrument grid: directed rounding, the first obstacle, and fixed multiples
    (agents/target_planner.py, core/rr_contract.py, core/fx_policy.py, execution/eurusd_pullback.py). */
module TargetPlanner {
  import opened Maybe
  import opened RrContract
  import opened PriceGrid

  // --- the instrument grid -----------------------------------------------------------------------------------------

  function Down(price: real, step: real): real
    requires step > 0.0
  {
    Multiple((price / step).Floor, step)
  }

  function Up(price: real, step: real): real
    requires step > 0.0
  {
    -Down(-price, step)
  }

  /** `normalize`: on the grid by floor or ceiling, positive or nothing. */
  function Normalize(price: real, step: real, up: bool): Option<real> {
    if step <= 0.0 || price <= 0.0 then None
    else
      var result := if up then Up(price, step) else Down(price, step);
      if result > 0.0 then Some(result) else None
  }

  function Multiple(k: int, step: real): real { k as real * step }

  ghost predicate OnStep(price: real, step: real) { exists k: int :: price == Multiple(k, step) }

  lemma DownBounds(price: real, step: real)
    requires step > 0.0
    ensures Down(price, step) <= price < Down(price, step) + step && OnStep(Down(price, step), step)
  {
    var k := (price / step).Floor;
    Quotient(price, step, k as real);
    Quotient(price, step, k as real + 1.0);
    assert (k as real + 1.0) * step == k as real * step + step;
  }

  lemma UpBounds(price: real, step: real)
    requires step > 0.0
    ensures price <= Up(price, step) < price + step && OnStep(Up(price, step), step)
  {
    DownBounds(-price, step);
    var k := (-price / step).Floor;
    Negated(k, step);
  }

  lemma Negated(k: int, step: real)
    ensures -Multiple(k, step) == Multiple(-k, step)
  {
    assert (-k) as real == -(k as real);
  }

  lemma Whole(k: int, step: real)
    requires step > 0.0
    ensures Down(Multiple(k, step), step) == Multiple(k, step)
  {
    Quotient(Multiple(k, step), step, k as real);
  }

  lemma OnStepFixed(price: real, step: real, up: bool)
    requires step > 0.0 && OnStep(price, step) && price > 0.0
    ensures Normalize(price, step, up) == Some(price)
  {
    var k: int :| price == Multiple(k, step);
    Whole(k, step);
    Whole(-k, step);
    Negated(k, step);
  }

  /** Sums and whole multiples of distances stay on the grid. */
  lemma Along(entry: real, stop: real, step: real, multiple: int)
    requires OnStep(entry, step) && OnStep(stop, step)
    ensures OnStep(entry + multiple as real * (entry - stop), step)
  {
    var i: int :| entry == Multiple(i, step);
    var j: int :| stop == Multiple(j, step);
    var k := i + multiple * (i - j);
    assert entry - stop == (i - j) as real * step;
    assert multiple as real * (entry - stop) == (multiple * (i - j)) as real * step;
    assert entry + multiple as real * (entry - stop) == Multiple(k, step);
  }

  /** Entry and stop as both planners fix them: entry away from the trade, stop away from the entry. */
  function Levels(side: Side, entryRaw: real, stopRaw: real, step: real): Option<(real, real)> {
    var entry := Normalize(entryRaw, step, side == Long);
    var stop := Normalize(stopRaw, step, side == Short);
    if entry.None? || stop.None? || Risk(side, entry.value, stop.value) <= 0.0 then None
    else Some((entry.value, stop.value))
  }

  lemma LevelsOnGrid(side: Side, entryRaw: real, stopRaw: real, step: real)
    requires Levels(side, entryRaw, stopRaw, step).Some?
    ensures var (entry, stop) := Levels(side, entryRaw, stopRaw, step).value;
            && OnStep(entry, step) && OnStep(stop, step) && entry > 0.0 && stop > 0.0
            && Risk(side, entry, stop) >= Risk(side, entryRaw, stopRaw)
  {
    if side == Long {
      UpBounds(entryRaw, step);
      DownBounds(stopRaw, step);
    } else {
      DownBounds(entryRaw, step);
      UpBounds(stopRaw, step);
    }
  }

  // --- directed rounding -------------------------------------------------------------------------------------------

  predicate WithinD(rr: real) { 2.0 <= rr <= 5.0 }

  ghost predicate PlanWithin(side: Side, entry: real, stop: real, target: real) {
    ValidLevels(side, entry, stop, target) && WithinD(Rr(side, entry, stop, target))
  }

  lemma WiderIsLower(side: Side, e0: real, s0: real, t0: real, e1: real, s1: real, t1: real)
    requires ValidLevels(side, e0, s0, t0) && ValidLevels(side, e1, s1, t1)
    requires Risk(side, e1, s1) >= Risk(side, e0, s0) && Reward(side, e1, t1) <= Reward(side, e0, t0)
    ensures Rr(side, e1, s1, t1) <= Rr(side, e0, s0, t0)
  {
    var rr := Rr(side, e0, s0, t0);
    Quotient(Reward(side, e0, t0), Risk(side, e0, s0), rr);
    Scale(Risk(side, e0, s0), Risk(side, e1, s1), rr);
    Quotient(Reward(side, e1, t1), Risk(side, e1, s1), rr);
  }

  /** The planner's rounding of entry, stop and target. */
  function RoundedTarget(side: Side, targetRaw: real, step: real): Option<real> {
    Normalize(targetRaw, step, side == Short)
  }

  /** Rounding entry, stop and target the planner's way can only lower the R:R, for both sides, wherever raw and rounded
      levels have one. */
  lemma RoundingOnlyLowers(side: Side, entryRaw: real, stopRaw: real, targetRaw: real, step: real)
    requires ValidLevels(side, entryRaw, stopRaw, targetRaw)
    requires Levels(side, entryRaw, stopRaw, step).Some? && RoundedTarget(side, targetRaw, step).Some?
    requires var (entry, stop) := Levels(side, entryRaw, stopRaw, step).value;
             ValidLevels(side, entry, stop, RoundedTarget(side, targetRaw, step).value)
    ensures var (entry, stop) := Levels(side, entryRaw, stopRaw, step).value;
            Rr(side, entry, stop, RoundedTarget(side, targetRaw, step).value) <= Rr(side, entryRaw, stopRaw, targetRaw)
  {
    var (entry, stop) := Levels(side, entryRaw, stopRaw, step).value;
    LevelsOnGrid(side, entryRaw, stopRaw, step);
    RewardShrinks(side, entryRaw, targetRaw, step);
    WiderIsLower(side, entryRaw, stopRaw, targetRaw, entry, stop, RoundedTarget(side, targetRaw, step).value);
  }

  /** A rounded plan within the policy was at least 2R before rounding, and within the policy exactly when the raw stop was
      on the protective side and the raw R:R at most 5. */
  lemma RoundingNeverLiftsAPlan(side: Side, entryRaw: real, stopRaw: real, targetRaw: real, step: real)
    requires step > 0.0 && entryRaw > 0.0 && stopRaw > 0.0 && targetRaw > 0.0
    requires Levels(side, entryRaw, stopRaw, step).Some? && RoundedTarget(side, targetRaw, step).Some?
    requires var (entry, stop) := Levels(side, entryRaw, stopRaw, step).value;
             PlanWithin(side, entry, stop, RoundedTarget(side, targetRaw, step).value)
    ensures ValidLevels(side, entryRaw, stopRaw, targetRaw) ==> Rr(side, entryRaw, stopRaw, targetRaw) >= 2.0
    ensures PlanWithin(side, entryRaw, stopRaw, targetRaw) <==>
            Risk(side, entryRaw, stopRaw) > 0.0 &&
            Reward(side, entryRaw, targetRaw) <= 5.0 * Risk(side, entryRaw, stopRaw)
  {
    RewardShrinks(side, entryRaw, targetRaw, step);
    if Risk(side, entryRaw, stopRaw) > 0.0 {
      RoundingOnlyLowers(side, entryRaw, stopRaw, targetRaw, step);
      Quotient(Reward(side, entryRaw, targetRaw), Risk(side, entryRaw, stopRaw), 5.0);
    }
  }

  lemma RewardShrinks(side: Side, entryRaw: real, targetRaw: real, step: real)
    requires Normalize(entryRaw, step, side == Long).Some? && Normalize(targetRaw, step, side == Short).Some?
    ensures Reward(side, Normalize(entryRaw, step, side == Long).value, Normalize(targetRaw, step, side == Short).value)
            <= Reward(side, entryRaw, targetRaw)
  {
    if side == Long {
      UpBounds(entryRaw, step);
      DownBounds(targetRaw, step);
    } else {
      DownBounds(entryRaw, step);
      UpBounds(targetRaw, step);
    }
  }

  lemma Between(price: real, step: real, k: int)
    requires step > 0.0 && Multiple(k, step) <= price < Multiple(k, step) + step
    ensures Down(price, step) == Multiple(k, step)
  {
    DownBounds(price, step);
    SameMultiple((price / step).Floor, k, step);
  }

  lemma SameMultiple(i: int, k: int, step: real)
    requires step > 0.0 && -step < Multiple(i, step) - Multiple(k, step) < step
    ensures i == k
  {
    assert (i - k) as real * step == Multiple(i, step) - Multiple(k, step);
    if i > k { Scale(1.0, (i - k) as real, step); } else if i < k { Scale((i - k) as real, -1.0, step); }
  }

  /** Both parts of the condition are needed. A raw R:R above 5 can be rounded into the policy, and a raw stop on the
      wrong side of the entry can be rounded onto the right one. */
  lemma RoundingCanAdmit()
    ensures Risk(Long, 100.0, 99.0) > 0.0 && Reward(Long, 100.0, 105.5) > 5.0 * Risk(Long, 100.0, 99.0)
    ensures Levels(Long, 100.0, 99.0, 1.0) == Some((100.0, 99.0)) && Normalize(105.5, 1.0, false) == Some(105.0)
    ensures PlanWithin(Long, 100.0, 99.0, 105.0)
    ensures Risk(Long, 100.25, 100.5) < 0.0
    ensures Levels(Long, 100.25, 100.5, 1.0) == Some((101.0, 100.0)) && Normalize(104.0, 1.0, false) == Some(104.0)
    ensures PlanWithin(Long, 101.0, 100.0, 104.0)
  {
    Between(105.5, 1.0, 105);
    Between(-100.25, 1.0, -101);
    Between(100.5, 1.0, 100);
    Between(-100.0, 1.0, -100);
    Between(99.0, 1.0, 99);
    Between(104.0, 1.0, 104);
  }

  // --- the first obstacle ------------------------------------------------------------------------------------------

  datatype Swing = Swing(price: Option<real>, confirmed: Option<int>)

  /** What one timeframe brings: whether its payload is the setup's own and its reference valid, and the swings it lists on
      the target side. A timeframe without a usable payload is not listed at all. */
  datatype Structure = Structure(lineage: bool, valid: bool, swings: seq<Swing>)

  datatype Outcome =
    | Ready(entry: real, stop: real, target: real)
    | InvalidGeometry
    | InsufficientEvidence
    | NoValidTarget
    | BelowFloor(target: real)
    | AboveCeiling(target: real)

  predicate Trusted(s: Structure) { s.lineage && s.valid }

  function TargetOf(side: Side, swing: Swing, step: real): Option<real> {
    if swing.price.None? then None else Normalize(swing.price.value, step, side == Short)
  }

  predicate Eligible(side: Side, s: Structure, swing: Swing, entry: real, step: real, cutoff: int) {
    && Trusted(s) && TargetOf(side, swing, step).Some?
    && swing.confirmed.Some? && swing.confirmed.value <= cutoff
    && Reward(side, entry, TargetOf(side, swing, step).value) > 0.0
  }

  /** One eligible swing of the timeframe puts its target here. */
  ghost predicate TargetIn(side: Side, s: Structure, entry: real, step: real, cutoff: int, target: real) {
    exists j :: 0 <= j < |s.swings| && Eligible(side, s, s.swings[j], entry, step, cutoff)
                && TargetOf(side, s.swings[j], step) == Some(target)
  }

  ghost predicate Target(side: Side, structures: seq<Structure>, entry: real, step: real, cutoff: int, target: real) {
    exists i :: 0 <= i < |structures| && TargetIn(side, structures[i], entry, step, cutoff, target)
  }

  /** An eligible level with no eligible one nearer to the entry. */
  ghost predicate First(side: Side, structures: seq<Structure>, entry: real, step: real, cutoff: int, target: real) {
    && Target(side, structures, entry, step, cutoff, target)
    && forall t: real :: Target(side, structures, entry, step, cutoff, t) ==>
         Reward(side, entry, target) <= Reward(side, entry, t)
  }

  /** The eligible levels of one timeframe, in the order of its swings. */
  method EligibleTargets(side: Side, s: Structure, entry: real, step: real, cutoff: int) returns (found: seq<real>)
    ensures forall t: real :: t in found <==> TargetIn(side, s, entry, step, cutoff, t)
  {
    found := [];
    for n := 0 to |s.swings|
      invariant forall t: real :: t in found <==>
                  exists j :: 0 <= j < n && Eligible(side, s, s.swings[j], entry, step, cutoff)
                              && TargetOf(side, s.swings[j], step) == Some(t)
    {
      if Eligible(side, s, s.swings[n], entry, step, cutoff) {
        found := found + [TargetOf(side, s.swings[n], step).value];
      }
    }
  }

  /** `_candidates`: every eligible level, and whether any timeframe could be trusted, with or without swings. */
  method Candidates(side: Side, structures: seq<Structure>, entry: real, step: real, cutoff: int)
    returns (found: seq<real>, trustworthy: bool)
    ensures forall t: real :: t in found <==> Target(side, structures, entry, step, cutoff, t)
    ensures trustworthy <==> exists i :: 0 <= i < |structures| && Trusted(structures[i])
  {
    found, trustworthy := [], false;
    for n := 0 to |structures|
      invariant trustworthy <==> exists i :: 0 <= i < n && Trusted(structures[i])
      invariant forall t: real :: t in found <==>
                  exists i :: 0 <= i < n && TargetIn(side, structures[i], entry, step, cutoff, t)
    {
      trustworthy := trustworthy || Trusted(structures[n]);
      var more := EligibleTargets(side, structures[n], entry, step, cutoff);
      found := found + more;
    }
  }

  method Nearest(side: Side, entry: real, found: seq<real>) returns (first: real)
    requires found != []
    ensures first in found && forall t :: t in found ==> Reward(side, entry, first) <= Reward(side, entry, t)
  {
    first := found[0];
    for n := 1 to |found|
      invariant first in found && forall k :: 0 <= k < n ==> Reward(side, entry, first) <= Reward(side, entry, found[k])
    {
      if Reward(side, entry, found[n]) < Reward(side, entry, first) { first := found[n]; }
    }
  }

  /** `plan_policy_d`: the outcome is decided by the first obstacle alone, never by a farther one; without a trusted
      timeframe there is no evidence, and with one but no eligible level no target. */
  method PlanPolicyD(side: Side, entryRaw: real, stopRaw: real, step: real, structures: seq<Structure>, cutoff: int)
    returns (outcome: Outcome)
    ensures outcome.InvalidGeometry? <==> Levels(side, entryRaw, stopRaw, step).None?
    ensures Levels(side, entryRaw, stopRaw, step).Some? ==>
              var (entry, stop) := Levels(side, entryRaw, stopRaw, step).value;
              var trusted := exists i :: 0 <= i < |structures| && Trusted(structures[i]);
              && (outcome.InsufficientEvidence? <==> !trusted)
              && (outcome.NoValidTarget? <==>
                    trusted && forall t: real :: !Target(side, structures, entry, step, cutoff, t))
              && (outcome.Ready? ==>
                    && outcome.entry == entry && outcome.stop == stop
                    && First(side, structures, entry, step, cutoff, outcome.target)
                    && PlanWithin(side, entry, stop, outcome.target))
              && (outcome.BelowFloor? ==>
                    && First(side, structures, entry, step, cutoff, outcome.target)
                    && ValidLevels(side, entry, stop, outcome.target) && Rr(side, entry, stop, outcome.target) < 2.0)
              && (outcome.AboveCeiling? ==>
                    && First(side, structures, entry, step, cutoff, outcome.target)
                    && ValidLevels(side, entry, stop, outcome.target) && Rr(side, entry, stop, outcome.target) > 5.0)
  {
    var levels := Levels(side, entryRaw, stopRaw, step);
    if levels.None? {
      return InvalidGeometry;
    }
    LevelsOnGrid(side, entryRaw, stopRaw, step);
    var (entry, stop) := levels.value;
    var found, trustworthy := Candidates(side, structures, entry, step, cutoff);
    if !trustworthy {
      return InsufficientEvidence;
    }
    if found == [] {
      return NoValidTarget;
    }
    var first := Nearest(side, entry, found);
    assert First(side, structures, entry, step, cutoff, first);
    TargetIsBeyond(side, structures, entry, step, cutoff, first);
    var rr := Rr(side, entry, stop, first);
    outcome := if rr < 2.0 then BelowFloor(first) else if rr > 5.0 then AboveCeiling(first)
               else Ready(entry, stop, first);
  }

  lemma TargetIsBeyond(side: Side, structures: seq<Structure>, entry: real, step: real, cutoff: int, target: real)
    requires Target(side, structures, entry, step, cutoff, target)
    ensures target > 0.0 && Reward(side, entry, target) > 0.0
  {
    var i :| 0 <= i < |structures| && TargetIn(side, structures[i], entry, step, cutoff, target);
    var s := structures[i];
    var j :| 0 <= j < |s.swings| && Eligible(side, s, s.swings[j], entry, step, cutoff)
             && TargetOf(side, s.swings[j], step) == Some(target);
  }
}
