/** The scale-out of a filled pullback trade: 1/3 at +0.5R, 1/3 at +1R with the stop to breakeven, then a 1R trail
    (execution/eurusd_pullback.py), and what the router saves of it (execution/broker_demo_router.py). */
module ScaleOut {
  import opened Maybe
  import opened PriceGrid

  datatype Side = Long | Short
  datatype Stage = Untouched | Half | One | Trail
  datatype StepKind = Partial | Stop | Mark
  datatype Journal = PartialClose | Breakeven | Trailed

  datatype ManageStep = ManageStep(kind: StepKind, stage: Stage, journals: seq<Journal>,
                                   units: int, remaining: Option<int>, stop: Option<real>)

  /** What stays the same over the life of the trade. `anchor` is the limit price, `risk` the distance to its stop. */
  datatype Setup = Setup(side: Side, anchor: real, risk: real, units: int)

  /** What the router saves after each accepted step. */
  datatype Saved = Saved(stage: Stage, remaining: Option<int>, stop: Option<real>)

  function Level(t: Setup, multiple: real): real {
    if t.side == Long then t.anchor + t.risk * multiple else t.anchor - t.risk * multiple
  }

  predicate Reached(side: Side, price: real, level: real) {
    if side == Long then price >= level else price <= level
  }

  function TrailStop(t: Setup, price: real): real {
    if t.side == Long
    then if price - t.risk >= t.anchor then price - t.risk else t.anchor
    else if price + t.risk <= t.anchor then price + t.risk else t.anchor
  }

  predicate Tighter(side: Side, newStop: real, current: Option<real>) {
    match current
    case None => true
    case Some(stop) => if side == Long then newStop > stop else newStop < stop
  }

  function PartialUnits(units: int): int { units / 3 }

  predicate CanPartial(units: int, remaining: int) {
    PartialUnits(units) >= 1 && remaining - PartialUnits(units) >= 1
  }

  function Left(t: Setup, s: Saved): int {
    if s.remaining.None? then t.units else s.remaining.value
  }

  predicate Usable(t: Setup) { t.risk > 0.0 && t.units >= 1 }

  // --- one due action at a time: the specification -----------------------------------------------------------------

  function PartialStep(t: Setup, s: Saved, stage: Stage): ManageStep {
    var qty := PartialUnits(t.units);
    ManageStep(Partial, stage, [PartialClose], qty, Some(Left(t, s) - qty), None)
  }

  function TrailEntry(t: Setup, s: Saved, price: real): ManageStep {
    var newStop := TrailStop(t, price);
    var journals := if newStop != t.anchor then [Breakeven, Trailed] else [Breakeven];
    if Tighter(t.side, newStop, s.stop)
    then ManageStep(Stop, Trail, journals, 0, Some(Left(t, s)), Some(newStop))
    else ManageStep(Mark, Trail, journals, 0, Some(Left(t, s)), None)
  }

  /** The one action due at `price` in the saved state, if any. */
  function Due(t: Setup, s: Saved, price: real): Option<ManageStep> {
    var half := Reached(t.side, price, Level(t, 0.5));
    var one := Reached(t.side, price, Level(t, 1.0));
    match s.stage
    case Trail =>
      var newStop := TrailStop(t, price);
      if Tighter(t.side, newStop, s.stop)
      then Some(ManageStep(Stop, Trail, [Trailed], 0, s.remaining, Some(newStop))) else None
    case Untouched =>
      if half && CanPartial(t.units, Left(t, s)) then Some(PartialStep(t, s, Half))
      else if one && PartialUnits(t.units) < 1 then Some(TrailEntry(t, s, price))
      else None
    case Half =>
      if !one then None
      else if CanPartial(t.units, Left(t, s)) then Some(PartialStep(t, s, One))
      else Some(TrailEntry(t, s, price))
    case One => if one then Some(TrailEntry(t, s, price)) else None
  }

  /** What the router saves once the broker accepted a step; the stop is saved rounded to the price grid. */
  function Save(s: Saved, step: ManageStep): Saved {
    match step.kind
    case Partial => s.(stage := step.stage, remaining := step.remaining)
    case Mark => s.(stage := step.stage)
    case Stop => if step.stop.Some? then s.(stage := step.stage, stop := Some(Round(step.stop.value))) else s
  }

  function Rank(stage: Stage): nat {
    match stage case Untouched => 0 case Half => 1 case One => 2 case Trail => 3
  }

  lemma DueAdvances(t: Setup, s: Saved, price: real)
    requires Due(t, s, price).Some? && s.stage != Trail
    ensures Rank(s.stage) < Rank(Due(t, s, price).value.stage) == Rank(Save(s, Due(t, s, price).value).stage)
  {}

  /** Every action due at `price`, taking each one as accepted; entering the trail is always the last. */
  function Plan(t: Setup, s: Saved, price: real): seq<ManageStep>
    decreases 3 - Rank(s.stage)
  {
    if !Usable(t) then []
    else
      var due := Due(t, s, price);
      if due.None? then []
      else if due.value.stage == Trail then [due.value]
      else [due.value] + Plan(t, Save(s, due.value), price)
  }

  // --- the source's single pass ------------------------------------------------------------------------------------

  method ManagementSteps(t: Setup, s: Saved, price: real) returns (steps: seq<ManageStep>)
    ensures steps == Plan(t, s, price)
  {
    steps := [];
    if !(t.risk > 0.0 && t.units >= 1) {
      return;
    }
    var stage := s.stage;
    if stage == Trail {
      var newStop := TrailStop(t, price);
      if Tighter(t.side, newStop, s.stop) {
        steps := [ManageStep(Stop, Trail, [Trailed], 0, s.remaining, Some(newStop))];
      }
      return;
    }
    var left := Left(t, s);
    ghost var now := s;
    var qty := PartialUnits(t.units);
    if stage == Untouched && Reached(t.side, price, Level(t, 0.5)) {
      if CanPartial(t.units, left) {
        left := left - qty;
        stage := Half;
        steps := steps + [ManageStep(Partial, Half, [PartialClose], qty, Some(left), None)];
        now := Save(now, steps[0]);
      }
    }
    if stage == Half && Reached(t.side, price, Level(t, 1.0)) {
      if CanPartial(t.units, left) {
        left := left - qty;
        stage := One;
        ghost var step := ManageStep(Partial, One, [PartialClose], qty, Some(left), None);
        steps := steps + [ManageStep(Partial, One, [PartialClose], qty, Some(left), None)];
        now := Save(now, step);
      }
    }
    assert steps + Plan(t, now, price) == Plan(t, s, price);
    var ready := Reached(t.side, price, Level(t, 1.0)) &&
                 (stage == One || (stage == Untouched && qty < 1) || (stage == Half && !CanPartial(t.units, left)));
    if ready {
      var newStop := TrailStop(t, price);
      var beyond := newStop != t.anchor && (if t.side == Long then newStop > t.anchor else newStop < t.anchor);
      var journals := if beyond then [Breakeven, Trailed] else [Breakeven];
      if Tighter(t.side, newStop, s.stop) {
        steps := steps + [ManageStep(Stop, Trail, journals, 0, Some(left), Some(newStop))];
      } else {
        steps := steps + [ManageStep(Mark, Trail, journals, 0, Some(left), None)];
      }
    }
  }
}
