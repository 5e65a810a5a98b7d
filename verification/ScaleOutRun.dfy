/** Whole runs of one scaled-out trade: resuming after a failed step, conserved units, and a stop that only tightens. */
module ScaleOutRun {
  import opened Maybe
  import opened PriceGrid
  import opened ScaleOut

  // --- resuming ----------------------------------------------------------------------------------------------------

  function SaveAll(s: Saved, steps: seq<ManageStep>): Saved
    decreases |steps|
  {
    if steps == [] then s else SaveAll(Save(s, steps[0]), steps[1..])
  }

  /** Half-up rounding moved the stop back, to the side where it protects less. */
  predicate Loosened(side: Side, stop: real) { Tighter(side, stop, Some(Round(stop))) }

  predicate EndsLoosened(t: Setup, steps: seq<ManageStep>) {
    && steps != []
    && var last := steps[|steps| - 1];
       last.kind == Stop && last.stop.Some? && Loosened(t.side, last.stop.value)
  }

  /** After any proper prefix of accepted steps, the same price asks for exactly the steps that are left. */
  lemma {:induction false} ResumesWithTheRest(t: Setup, s: Saved, price: real, k: nat)
    requires k < |Plan(t, s, price)|
    ensures Plan(t, SaveAll(s, Plan(t, s, price)[..k]), price) == Plan(t, s, price)[k..]
    decreases k
  {
    var plan := Plan(t, s, price);
    if k == 0 {
    } else {
      var next := Save(s, plan[0]);
      assert plan == [plan[0]] + Plan(t, next, price);
      ResumesWithTheRest(t, next, price, k - 1);
      assert plan[..k] == [plan[0]] + Plan(t, next, price)[..k - 1];
      assert plan[k..] == Plan(t, next, price)[k - 1..];
    }
  }

  /** After the whole plan the same price asks for nothing, except when rounding loosened the stop just sent. */
  lemma {:induction false} DoneExactlyUnlessLoosened(t: Setup, s: Saved, price: real)
    requires Plan(t, s, price) != []
    ensures Plan(t, SaveAll(s, Plan(t, s, price)), price) == [] <==> !EndsLoosened(t, Plan(t, s, price))
    decreases 3 - Rank(s.stage)
  {
    var plan := Plan(t, s, price);
    var due := Due(t, s, price).value;
    var next := Save(s, due);
    if due.stage == Trail {
      assert SaveAll(next, []) == next;
      assert SaveAll(s, plan) == next;
    } else {
      var rest := Plan(t, next, price);
      assert plan == [due] + rest && plan[1..] == rest;
      assert SaveAll(s, plan) == SaveAll(next, rest);
      if rest == [] {
      } else {
        DoneExactlyUnlessLoosened(t, next, price);
      }
    }
  }

  /** Quotes and levels on the price grid never loosen a stop. */
  lemma OnGridNeverLoosens(t: Setup, s: Saved, price: real)
    requires OnGrid(price) && OnGrid(t.risk) && OnGrid(t.anchor)
    ensures !EndsLoosened(t, Plan(t, s, price))
    decreases 3 - Rank(s.stage)
  {
    SumOnGrid(price, t.risk);
    RoundKeepsGrid(TrailStop(t, price));
    if Usable(t) && Due(t, s, price).Some? {
      var due := Due(t, s, price).value;
      if due.stage != Trail {
        var rest := Plan(t, Save(s, due), price);
        OnGridNeverLoosens(t, Save(s, due), price);
        assert Plan(t, s, price) == [due] + rest;
      }
    }
  }

  /** An off-grid quote does loosen one: the same stop is sent again at the same price. */
  lemma OffGridRepeats()
    ensures exists t, s, price :: Plan(t, s, price) != [] && Plan(t, SaveAll(s, Plan(t, s, price)), price) != []
  {
    var t := Setup(Long, 1.1, 0.0025, 3);
    var s := Saved(Trail, Some(1), Some(1.1));
    var price := 1.105004;
    assert TrailStop(t, price) == 1.102504;
    assert (1.102504 * TICKS + 0.5).Floor == 110250;
    assert Round(1.102504) == 1.1025;
    assert Plan(t, s, price) != [];
    assert EndsLoosened(t, Plan(t, s, price));
    DoneExactlyUnlessLoosened(t, s, price);
  }

  // --- one trade under every broker answer -------------------------------------------------------------------------

  /** What the broker does with one action. A missing answer is a crash before the action was sent. */
  datatype Answer = Accepted | NoPosition | Refused | Definite | Ambiguous

  /** The stored row, with what the broker confirmed closing and the prices at which the stop was settled. */
  datatype Row = Row(saved: Saved, open: bool, latched: bool, closed: int, settled: seq<real>)

  function Accept(row: Row, step: ManageStep, price: real): Row {
    var saved := Save(row.saved, step);
    match step.kind
    case Partial => row.(saved := saved, latched := false, closed := row.closed + step.units)
    case Stop => row.(saved := saved, latched := false, settled := row.settled + [price])
    case Mark => row.(saved := saved, settled := row.settled + [price])
  }

  function Fail(row: Row, step: ManageStep, answer: Answer): Row {
    match answer
    case NoPosition => if step.kind == Partial then row.(open := false, latched := false) else row
    case Ambiguous => row.(latched := true)
    case _ => row
  }

  /** The router's loop over one tick's steps: it stops at the first one the broker did not accept. */
  function Send(row: Row, steps: seq<ManageStep>, price: real, answers: seq<Answer>): Row
    decreases |steps|
  {
    if steps == [] then row
    else if steps[0].kind == Mark then Send(Accept(row, steps[0], price), steps[1..], price, answers)
    else if answers == [] then row
    else if answers[0] == Accepted then Send(Accept(row, steps[0], price), steps[1..], price, answers[1..])
    else Fail(row, steps[0], answers[0])
  }

  datatype Event =
    | Tick(price: real, answers: seq<Answer>)
    | Release
    | Gone

  /** A trail tick that needs no action settles its price too. */
  function Quiet(t: Setup, row: Row, price: real): Row {
    if row.saved.stage == Trail && Usable(t) && Plan(t, row.saved, price) == []
    then row.(settled := row.settled + [price]) else row
  }

  function Next(t: Setup, row: Row, e: Event): Row {
    match e
    case Tick(price, answers) =>
      if !row.open || row.latched then row
      else Send(Quiet(t, row, price), Plan(t, row.saved, price), price, answers)
    case Release => row.(latched := false)
    case Gone => row.(open := false, latched := false)
  }

  function Run(t: Setup, row: Row, events: seq<Event>): Row {
    if events == [] then row
    else Next(t, Run(t, row, events[..|events| - 1]), events[|events| - 1])
  }

  function Opened(t: Setup, stop: real): Row {
    Row(Saved(Untouched, Some(t.units), Some(stop)), true, false, 0, [])
  }

  // --- what every run keeps ----------------------------------------------------------------------------------------

  function Better(side: Side, x: real, y: real): real {
    if side == Long then (if x >= y then x else y) else (if x <= y then x else y)
  }

  /** The running best of one R behind each settled price, floored at the limit and rounded. */
  function Best(t: Setup, start: real, prices: seq<real>): real {
    if prices == [] then start
    else Better(t.side, Best(t, start, prices[..|prices| - 1]), Round(TrailStop(t, prices[|prices| - 1])))
  }

  /** The units the two partial closes take before the row enters the given stage. */
  function ClosedBy(t: Setup, stage: Stage): int {
    match stage
    case Untouched => 0
    case Half => PartialUnits(t.units)
    case One => 2 * PartialUnits(t.units)
    case Trail => 2 * PartialUnits(t.units)
  }

  ghost predicate Sound(t: Setup, start: real, row: Row) {
    && row.saved.remaining.Some?
    && row.closed + Left(t, row.saved) == t.units
    && row.closed == ClosedBy(t, row.saved.stage)
    && (row.saved.stage in {Half, One} ==> PartialUnits(t.units) >= 1)
    && row.saved.stop == Some(Best(t, start, row.settled))
    && OnGrid(Best(t, start, row.settled))
    && (row.saved.stage != Trail ==> row.settled == [])
    && (row.saved.stage == Trail ==> !Tighter(t.side, t.anchor, row.saved.stop))
  }

  ghost predicate Tradeable(t: Setup, start: real) {
    t.risk > 0.0 && t.units >= 1 && OnGrid(t.anchor) && OnGrid(start)
  }

  /** How a row may change: units never come back, the stage only advances, the stop only tightens. */
  ghost predicate Advances(t: Setup, a: Row, b: Row) {
    && a.closed <= b.closed
    && Rank(a.saved.stage) <= Rank(b.saved.stage)
    && a.saved.stop.Some? && b.saved.stop.Some?
    && !Tighter(t.side, a.saved.stop.value, b.saved.stop)
    && a.settled <= b.settled
    && (b.open ==> a.open)
  }

  lemma BestAppend(t: Setup, start: real, prices: seq<real>, price: real)
    ensures Best(t, start, prices + [price]) == Better(t.side, Best(t, start, prices), Round(TrailStop(t, price)))
  {
    assert (prices + [price])[..|prices|] == prices;
  }

  /** The stop after settling `price`: rounding is monotone, so the saved stop is the better of old and new. */
  lemma SettlesBest(t: Setup, start: real, row: Row, price: real)
    requires Tradeable(t, start) && Sound(t, start, row)
    ensures OnGrid(Best(t, start, row.settled + [price]))
    ensures Tighter(t.side, TrailStop(t, price), row.saved.stop) ==>
              Best(t, start, row.settled + [price]) == Round(TrailStop(t, price))
    ensures !Tighter(t.side, TrailStop(t, price), row.saved.stop) ==>
              Some(Best(t, start, row.settled + [price])) == row.saved.stop
    ensures !Tighter(t.side, t.anchor, Some(Round(TrailStop(t, price))))
  {
    BestAppend(t, start, row.settled, price);
    var stop, trail := row.saved.stop.value, TrailStop(t, price);
    RoundIsOnGrid(trail);
    RoundKeepsGrid(stop);
    RoundKeepsGrid(t.anchor);
    if trail <= stop { RoundMonotone(trail, stop); } else { RoundMonotone(stop, trail); }
    if t.side == Long { RoundMonotone(t.anchor, trail); } else { RoundMonotone(trail, t.anchor); }
  }

  /** The branch that enters the trail at HALF without the second partial is never taken: a third of the units can
      always be closed a second time. */
  lemma SecondPartialAlwaysFits(t: Setup, start: real, row: Row)
    requires Tradeable(t, start) && Sound(t, start, row) && row.saved.stage == Half
    ensures CanPartial(t.units, Left(t, row.saved))
  {}

  lemma PartialKeeps(t: Setup, start: real, row: Row, price: real)
    requires Tradeable(t, start) && Sound(t, start, row)
    requires Due(t, row.saved, price).Some? && Due(t, row.saved, price).value.kind == Partial
    ensures var next := Accept(row, Due(t, row.saved, price).value, price);
            Sound(t, start, next) && Advances(t, row, next)
  {}

  /** Entering the trail, or moving along it: the stop becomes the best of what it was and what this price allows. */
  lemma TrailKeeps(t: Setup, start: real, row: Row, price: real)
    requires Tradeable(t, start) && Sound(t, start, row)
    requires Due(t, row.saved, price).Some? && Due(t, row.saved, price).value.kind != Partial
    ensures var next := Accept(row, Due(t, row.saved, price).value, price);
            Sound(t, start, next) && Advances(t, row, next)
  {
    SettlesBest(t, start, row, price);
    if row.saved.stage == Half { SecondPartialAlwaysFits(t, start, row); }
  }

  lemma AcceptKeeps(t: Setup, start: real, row: Row, price: real)
    requires Tradeable(t, start) && Sound(t, start, row) && Due(t, row.saved, price).Some?
    ensures var next := Accept(row, Due(t, row.saved, price).value, price);
            Sound(t, start, next) && Advances(t, row, next)
  {
    if Due(t, row.saved, price).value.kind == Partial {
      PartialKeeps(t, start, row, price);
    } else {
      TrailKeeps(t, start, row, price);
    }
  }

  lemma AdvancesTransitive(t: Setup, a: Row, b: Row, c: Row)
    requires Advances(t, a, b) && Advances(t, b, c)
    ensures Advances(t, a, c)
  {}

  lemma PlanUnfolds(t: Setup, s: Saved, price: real)
    requires Plan(t, s, price) != []
    ensures Due(t, s, price).Some? && Plan(t, s, price)[0] == Due(t, s, price).value
    ensures var due := Due(t, s, price).value;
            Plan(t, s, price)[1..] == if due.stage == Trail then [] else Plan(t, Save(s, due), price)
  {}

  lemma FailKeeps(t: Setup, start: real, row: Row, step: ManageStep, answer: Answer)
    requires Sound(t, start, row)
    ensures Sound(t, start, Fail(row, step, answer)) && Advances(t, row, Fail(row, step, answer))
  {}

  lemma {:induction false} SendKeeps(t: Setup, start: real, row: Row, price: real, answers: seq<Answer>)
    requires Tradeable(t, start) && Sound(t, start, row)
    ensures Sound(t, start, Send(row, Plan(t, row.saved, price), price, answers))
    ensures Advances(t, row, Send(row, Plan(t, row.saved, price), price, answers))
    decreases 3 - Rank(row.saved.stage)
  {
    var plan := Plan(t, row.saved, price);
    if plan != [] && (plan[0].kind == Mark || answers != []) {
      PlanUnfolds(t, row.saved, price);
      if plan[0].kind == Mark || answers[0] == Accepted {
        AcceptKeeps(t, start, row, price);
        var next := Accept(row, plan[0], price);
        var later := if plan[0].kind == Mark then answers else answers[1..];
        assert Send(row, plan, price, answers) == Send(next, plan[1..], price, later);
        if plan[0].stage != Trail {
          DueAdvances(t, row.saved, price);
          SendKeeps(t, start, next, price, later);
          AdvancesTransitive(t, row, next, Send(next, plan[1..], price, later));
        }
      } else {
        FailKeeps(t, start, row, plan[0], answers[0]);
      }
    }
  }

  lemma NextKeeps(t: Setup, start: real, row: Row, e: Event)
    requires Tradeable(t, start) && Sound(t, start, row)
    ensures Sound(t, start, Next(t, row, e)) && Advances(t, row, Next(t, row, e))
  {
    match e
    case Tick(price, answers) =>
      if row.open && !row.latched {
        var quiet := Quiet(t, row, price);
        if quiet == row {
          SendKeeps(t, start, row, price, answers);
        } else {
          SettlesBest(t, start, row, price);
          assert Plan(t, row.saved, price) == [];
        }
      }
    case _ =>
  }

  /** Over every run, closed plus remaining units are the original, at least one unit stays, the stages only advance,
      and the stop is the running best over the settled prices: never looser than before, and from the trail on never
      on the losing side of the limit. */
  lemma {:induction false} RunKeeps(t: Setup, start: real, events: seq<Event>, k: nat)
    requires Tradeable(t, start) && k <= |events|
    ensures Sound(t, start, Run(t, Opened(t, start), events))
    ensures Left(t, Run(t, Opened(t, start), events).saved) >= 1
    ensures Advances(t, Run(t, Opened(t, start), events[..k]), Run(t, Opened(t, start), events))
    decreases |events|
  {
    if events == [] {
      assert events[..k] == events;
    } else {
      var before := events[..|events| - 1];
      if k < |events| {
        RunKeeps(t, start, before, k);
        assert before[..k] == events[..k];
        NextKeeps(t, start, Run(t, Opened(t, start), before), events[|events| - 1]);
        AdvancesTransitive(t, Run(t, Opened(t, start), events[..k]), Run(t, Opened(t, start), before),
                           Run(t, Opened(t, start), events));
      } else {
        RunKeeps(t, start, before, |before|);
        NextKeeps(t, start, Run(t, Opened(t, start), before), events[|events| - 1]);
        assert events[..k] == events;
      }
    }
  }

  /** The running best is a best: no settled price asks for a tighter stop, and the stop is one of them or the first. */
  lemma {:induction false} BestIsBest(t: Setup, start: real, prices: seq<real>)
    ensures !Tighter(t.side, start, Some(Best(t, start, prices)))
    ensures forall i :: 0 <= i < |prices| ==>
              !Tighter(t.side, Round(TrailStop(t, prices[i])), Some(Best(t, start, prices)))
    ensures Best(t, start, prices) == start ||
            exists i :: 0 <= i < |prices| && Best(t, start, prices) == Round(TrailStop(t, prices[i]))
  {
    if prices == [] {
    } else {
      var rest := prices[..|prices| - 1];
      BestIsBest(t, start, rest);
      if Best(t, start, prices) == Best(t, start, rest) && Best(t, start, rest) != start {
        var i :| 0 <= i < |rest| && Best(t, start, rest) == Round(TrailStop(t, rest[i]));
        assert prices[i] == rest[i];
      }
      forall i | 0 <= i < |prices|
        ensures !Tighter(t.side, Round(TrailStop(t, prices[i])), Some(Best(t, start, prices)))
      {
        if i < |rest| { assert prices[i] == rest[i]; }
      }
    }
  }
}
