/** Plans at a fixed multiple: 3R from the structural stop, 25 and 50 pips for FX and for the pullback limit
    (agents/target_planner.py, core/fx_policy.py, execution/eurusd_pullback.py). */
module FixedMultiples {
  import opened Maybe
  import opened RrContract
  import opened PriceGrid
  import opened TargetPlanner

  const SL_PIPS := 25.0

  datatype Reason = EntryOrStop | ClampedStop | TargetOffGrid | BadGeometry | NotExact

  datatype FixedPlan = Planned(entry: real, stop: real, target: real) | Refused(reason: Reason)

  /** `clamp_stop` with equal bounds: any structural distance becomes exactly 25 pips. */
  function ClampStop(side: Side, entry: real, stop: real, pip: real): real
    requires pip > 0.0
  {
    var pips := Risk(side, entry, stop) / pip;
    var bound := SL_PIPS * pip;
    if pips < SL_PIPS || pips > SL_PIPS then (if side == Long then entry - bound else entry + bound) else stop
  }

  lemma ClampIsExact(side: Side, entry: real, stop: real, pip: real)
    requires pip > 0.0
    ensures Risk(side, entry, ClampStop(side, entry, stop, pip)) == SL_PIPS * pip
  {
    Quotient(Risk(side, entry, stop), pip, SL_PIPS);
  }

  function TargetAt(side: Side, entry: real, stop: real, multiple: int): real {
    if side == Long then entry + multiple as real * (entry - stop) else entry - multiple as real * (stop - entry)
  }

  function MultipleOf(p: Policy): int { if p == FixedThree then 3 else 2 }

  /** The stop a plan uses: the structural one, or for FX the clamped one put on the grid. */
  function StopUsed(side: Side, entry: real, structural: real, step: real, pip: Option<real>): Option<real>
    requires pip.Some? ==> pip.value > 0.0
  {
    if pip.None? then Some(structural)
    else Normalize(ClampStop(side, entry, structural, pip.value), step, side == Short)
  }

  /** The target of an accepted stop; one that is not positive has no place on the grid. */
  function Targeted(side: Side, entry: real, stop: real, step: real, p: Policy): FixedPlan {
    var target := TargetAt(side, entry, stop, MultipleOf(p));
    if Normalize(target, step, false) != Some(target) then Refused(TargetOffGrid)
    else if !ValidLevels(side, entry, stop, target) then Refused(BadGeometry)
    else if Rr(side, entry, stop, target) != PlannedRr(p) then Refused(NotExact)
    else Planned(entry, stop, target)
  }

  /** `_plan_fixed_rr`; `pip` is given for an FX symbol, whose stop is clamped. */
  function PlanFixedRr(side: Side, entryRaw: real, stopRaw: real, step: real, p: Policy, pip: Option<real>): FixedPlan
    requires pip.Some? ==> pip.value > 0.0
  {
    var levels := Levels(side, entryRaw, stopRaw, step);
    if levels.None? then Refused(EntryOrStop)
    else
      var (entry, structural) := levels.value;
      var stop := StopUsed(side, entry, structural, step, pip);
      if stop.None? || Risk(side, entry, stop.value) <= 0.0 then Refused(ClampedStop)
      else Targeted(side, entry, stop.value, step, p)
  }

  /** Entry and stop of a plan whose stop is accepted. */
  function Accepted(side: Side, entryRaw: real, stopRaw: real, step: real, pip: Option<real>): Option<(real, real)>
    requires pip.Some? ==> pip.value > 0.0
  {
    var levels := Levels(side, entryRaw, stopRaw, step);
    if levels.None? then None
    else
      var stop := StopUsed(side, levels.value.0, levels.value.1, step, pip);
      if stop.None? || Risk(side, levels.value.0, stop.value) <= 0.0 then None else Some((levels.value.0, stop.value))
  }

  /** The pip is a whole number of grid steps. */
  ghost predicate Divides(step: real, pip: real) { step > 0.0 && exists k: int :: k > 0 && pip == Multiple(k, step) }

  lemma ClampedOnGrid(side: Side, entry: real, structural: real, step: real, pip: real)
    requires Divides(step, pip) && pip > 0.0 && OnStep(entry, step)
    ensures OnStep(ClampStop(side, entry, structural, pip), step)
  {
    var k: int :| k > 0 && pip == Multiple(k, step);
    var n: int :| entry == Multiple(n, step);
    ClampIsExact(side, entry, structural, pip);
    assert SL_PIPS * pip == Multiple(25 * k, step);
    assert entry - SL_PIPS * pip == Multiple(n - 25 * k, step);
    assert entry + SL_PIPS * pip == Multiple(n + 25 * k, step);
  }

  lemma TargetOnGrid(side: Side, entry: real, stop: real, step: real, multiple: int)
    requires OnStep(entry, step) && OnStep(stop, step)
    ensures OnStep(TargetAt(side, entry, stop, multiple), step)
  {
    Along(entry, stop, step, multiple);
    assert multiple as real * (entry - stop) == -(multiple as real * (stop - entry));
  }

  lemma ExactMultiple(side: Side, entry: real, stop: real, p: Policy)
    requires ValidLevels(side, entry, stop, TargetAt(side, entry, stop, MultipleOf(p)))
    ensures Reward(side, entry, TargetAt(side, entry, stop, MultipleOf(p))) == PlannedRr(p) * Risk(side, entry, stop)
    ensures Rr(side, entry, stop, TargetAt(side, entry, stop, MultipleOf(p))) == PlannedRr(p)
  {
    var target := TargetAt(side, entry, stop, MultipleOf(p));
    Quotient(Reward(side, entry, target), Risk(side, entry, stop), PlannedRr(p));
  }

  /** The stop the planner uses, on the grid in every case. */
  lemma StopOnGrid(side: Side, entry: real, structural: real, step: real, pip: Option<real>)
    requires OnStep(entry, step) && OnStep(structural, step) && step > 0.0
    requires pip.Some? ==> pip.value > 0.0 && Divides(step, pip.value)
    ensures var stop := StopUsed(side, entry, structural, step, pip);
            stop.Some? ==> OnStep(stop.value, step) &&
                           (pip.Some? ==> Risk(side, entry, stop.value) == SL_PIPS * pip.value)
  {
    if pip.Some? {
      var clamped := ClampStop(side, entry, structural, pip.value);
      ClampedOnGrid(side, entry, structural, step, pip.value);
      ClampIsExact(side, entry, structural, pip.value);
      if clamped > 0.0 { OnStepFixed(clamped, step, side == Short); }
    }
  }

  lemma AcceptedOnGrid(side: Side, entryRaw: real, stopRaw: real, step: real, pip: Option<real>)
    requires pip.Some? ==> pip.value > 0.0 && Divides(step, pip.value)
    requires Accepted(side, entryRaw, stopRaw, step, pip).Some?
    ensures var (entry, stop) := Accepted(side, entryRaw, stopRaw, step, pip).value;
            && step > 0.0 && OnStep(entry, step) && OnStep(stop, step)
            && entry > 0.0 && stop > 0.0 && Risk(side, entry, stop) > 0.0
            && (pip.Some? ==> Risk(side, entry, stop) == SL_PIPS * pip.value)
  {
    LevelsOnGrid(side, entryRaw, stopRaw, step);
    var (entry, structural) := Levels(side, entryRaw, stopRaw, step).value;
    StopOnGrid(side, entry, structural, step, pip);
  }

  lemma TargetSide(side: Side, entry: real, stop: real, multiple: int)
    requires entry > 0.0 && Risk(side, entry, stop) > 0.0 && multiple > 0
    ensures var target := TargetAt(side, entry, stop, multiple);
            && Reward(side, entry, target) == multiple as real * Risk(side, entry, stop) > 0.0
            && (target <= 0.0 <==> side == Short && multiple as real * Risk(side, entry, stop) >= entry)
  {
    Scale(0.0, Risk(side, entry, stop), multiple as real);
  }

  lemma TargetedExactly(side: Side, entry: real, stop: real, step: real, p: Policy)
    requires step > 0.0 && OnStep(entry, step) && OnStep(stop, step)
    requires entry > 0.0 && stop > 0.0 && Risk(side, entry, stop) > 0.0
    ensures var plan := Targeted(side, entry, stop, step, p);
            if side == Short && MultipleOf(p) as real * Risk(side, entry, stop) >= entry then plan == Refused(TargetOffGrid)
            else
              && plan.Planned? && plan.entry == entry && plan.stop == stop && OnStep(plan.target, step)
              && Reward(side, entry, plan.target) == PlannedRr(p) * Risk(side, entry, stop) > 0.0
  {
    var target := TargetAt(side, entry, stop, MultipleOf(p));
    TargetOnGrid(side, entry, stop, step, MultipleOf(p));
    TargetSide(side, entry, stop, MultipleOf(p));
    if target > 0.0 {
      OnStepFixed(target, step, false);
      ExactMultiple(side, entry, stop, p);
    }
  }

  /** A plan whose stop is accepted is exactly its multiple, on the grid, and for FX 25 pips to the stop and 50 to the target.
      It is refused only as off the grid, and exactly when a SHORT's target would not be positive: the multiple of the risk
      reaches the entry, for FX an entry of at most 50 pips. The geometry and the inexact refusals never happen. */
  lemma FixedPlansAreExact(side: Side, entryRaw: real, stopRaw: real, step: real, p: Policy, pip: Option<real>)
    requires pip.Some? ==> pip.value > 0.0 && Divides(step, pip.value) && p == FxTwo
    ensures var plan := PlanFixedRr(side, entryRaw, stopRaw, step, p, pip);
            var accepted := Accepted(side, entryRaw, stopRaw, step, pip);
            && (accepted.None? <==> plan.Refused? && plan.reason in {EntryOrStop, ClampedStop})
            && (accepted.Some? ==>
                  var (entry, stop) := accepted.value;
                  && (plan == Refused(TargetOffGrid) <==>
                      side == Short && MultipleOf(p) as real * Risk(side, entry, stop) >= entry)
                  && (plan != Refused(TargetOffGrid) ==> plan.Planned? && plan.entry == entry && plan.stop == stop)
                  && (pip.Some? ==> (plan == Refused(TargetOffGrid) <==> side == Short && entry <= 50.0 * pip.value)))
            && (plan.Planned? ==>
                  && Reward(side, plan.entry, plan.target) == PlannedRr(p) * Risk(side, plan.entry, plan.stop) > 0.0
                  && OnStep(plan.entry, step) && OnStep(plan.stop, step) && OnStep(plan.target, step)
                  && (pip.Some? ==> && Risk(side, plan.entry, plan.stop) == 25.0 * pip.value
                                    && Reward(side, plan.entry, plan.target) == 50.0 * pip.value))
  {
    if Accepted(side, entryRaw, stopRaw, step, pip).Some? {
      AcceptedOnGrid(side, entryRaw, stopRaw, step, pip);
      var (entry, stop) := Accepted(side, entryRaw, stopRaw, step, pip).value;
      TargetedExactly(side, entry, stop, step, p);
    }
  }

  /** A SHORT from 100 with its stop at 140 has its 3R target at -20, and is refused as off the grid. */
  lemma ShortBelowZeroIsOffTheGrid()
    ensures PlanFixedRr(Short, 100.0, 140.0, 1.0, FixedThree, None) == Refused(TargetOffGrid)
  {
    assert 100.0 == Multiple(100, 1.0) && 140.0 == Multiple(140, 1.0);
    OnStepFixed(100.0, 1.0, false);
    OnStepFixed(140.0, 1.0, true);
  }

  // --- the pullback limit ------------------------------------------------------------------------------------------

  const PIP := 0.0001

  datatype LimitResult = Limit(stop: real, target: real) | ThroughStop | TargetInvalid | OffPriceGrid | RrInvalid | Raised

  /** `limit_levels` for EURUSD; the rounder refuses a price that is not positive. */
  function LimitLevels(side: Side, limit: real, structural: real): LimitResult {
    if Risk(side, limit, structural) <= 0.0 then ThroughStop
    else
      var raw := ClampStop(side, limit, structural, PIP);
      if raw <= 0.0 then Raised
      else
        var stop := Round(raw);
        if Risk(side, limit, stop) <= 0.0 then ThroughStop
        else
          var wanted := TargetAt(side, limit, stop, 2);
          if wanted <= 0.0 then TargetInvalid
          else if Round(wanted) != wanted then OffPriceGrid
          else if !ValidLevels(side, limit, stop, wanted) || Rr(side, limit, stop, wanted) != 2.0 then RrInvalid
          else Limit(stop, wanted)
  }

  /** A limit on the five-decimal grid with its structure on the protective side is exactly 25 pips from its stop and 50
      from its target, whatever the structural distance; it is refused only when the price is so low that the far side
      would not be positive. */
  lemma LimitIsExact(side: Side, limit: real, structural: real)
    requires limit > 0.0 && OnGrid(limit) && Risk(side, limit, structural) > 0.0
    ensures LimitLevels(side, limit, structural) ==
            if side == Long then (if limit > 25.0 * PIP then Limit(limit - 25.0 * PIP, limit + 50.0 * PIP) else Raised)
            else (if limit > 50.0 * PIP then Limit(limit + 25.0 * PIP, limit - 50.0 * PIP) else TargetInvalid)
  {
    ClampIsExact(side, limit, structural, PIP);
    assert (25.0 * PIP) * TICKS == 250 as real && (50.0 * PIP) * TICKS == 500 as real;
    SumOnGrid(limit, 25.0 * PIP);
    SumOnGrid(limit, 50.0 * PIP);
    RoundKeepsGrid(ClampStop(side, limit, structural, PIP));
    var stop := ClampStop(side, limit, structural, PIP);
    if stop > 0.0 {
      var wanted := TargetAt(side, limit, stop, 2);
      RoundKeepsGrid(wanted);
      if wanted > 0.0 { ExactMultiple(side, limit, stop, FxTwo); }
    }
  }
}
