/** The router's loop over the scale-out steps of one row (execution/broker_demo_router.py, `_manage_pullback` and
    `_apply_pullback_step`), against an arbitrary broker. */
module RoutedTrade {
  import opened Maybe
  import opened PriceGrid
  import opened ScaleOut
  import opened ScaleOutRun
  import RouterTrace
  import RouterRows

  class TradeRow {
    const setup: Setup
    var stage: Stage
    var remaining: Option<int>
    var stop: Option<real>
    var open: bool
    var latched: bool
    /** Units the broker confirmed closing, and the prices at which the stop was settled. */
    ghost var closed: int
    ghost var settled: seq<real>

    ghost function View(): Row
      reads this
    {
      Row(Saved(stage, remaining, stop), open, latched, closed, settled)
    }

    constructor (t: Setup, start: real)
      ensures setup == t && View() == Opened(t, start)
    {
      setup := t;
      stage, remaining, stop, open, latched := Untouched, Some(t.units), Some(start), true, false;
      closed, settled := 0, [];
    }

    /** One step: the broker's answer decides what is saved. */
    method ApplyStep(step: ManageStep, answer: Answer, ghost price: real) returns (accepted: bool)
      modifies this
      ensures accepted == (step.kind == Mark || answer == Accepted)
      ensures View() == if accepted then Accept(old(View()), step, price) else Fail(old(View()), step, answer)
    {
      if step.kind == Mark {
        stage := step.stage;
        settled := settled + [price];
        return true;
      }
      match answer {
        case Accepted =>
          if step.kind == Partial {
            remaining, stage, latched := step.remaining, step.stage, false;
            closed := closed + step.units;
          } else {
            if step.stop.Some? {
              stage, stop := step.stage, Some(Round(step.stop.value));
            }
            latched := false;
            settled := settled + [price];
          }
          return true;
        case NoPosition =>
          if step.kind == Partial {
            open, latched := false, false;
          }
        case Refused =>
        case Definite =>
        case Ambiguous =>
          latched := true;
      }
      return false;
    }

    /** One management tick. The broker answers the actions in the order they are sent; when the answers run out the
        process stopped before sending the next one. */
    method Manage(price: real, answers: seq<Answer>)
      modifies this
      ensures View() == Next(setup, old(View()), Tick(price, answers))
    {
      if !open || latched {
        return;
      }
      var steps := ManagementSteps(setup, Saved(stage, remaining, stop), price);
      if setup.risk > 0.0 && setup.units >= 1 && stage == Trail && steps == [] {
        settled := settled + [price];
      }
      var i, asked := 0, 0;
      ghost var start := View();
      while i < |steps|
        invariant 0 <= i <= |steps| && 0 <= asked <= |answers|
        invariant Send(start, steps, price, answers) == Send(View(), steps[i..], price, answers[asked..])
      {
        if steps[i].kind != Mark && asked == |answers| {
          return;
        }
        var answer := if steps[i].kind == Mark then Accepted else answers[asked];
        assert steps[i..][1..] == steps[i + 1..];
        if steps[i].kind != Mark {
          assert answers[asked..][1..] == answers[asked + 1..];
          asked := asked + 1;
        }
        var accepted := ApplyStep(steps[i], answer, price);
        if !accepted {
          return;
        }
        i := i + 1;
      }
    }

    /** The operator drops the latch of an action whose outcome was never learned. */
    method ReleaseLatch()
      modifies this
      ensures View() == Next(setup, old(View()), Release)
    {
      latched := false;
    }

    /** A reconcile that no longer finds the trade at the broker. */
    method MarkGone()
      modifies this
      ensures View() == Next(setup, old(View()), Gone)
    {
      open, latched := false, false;
    }
  }

  /** The row of a fill under any ticks, releases and reconciles is the one of the specified run, which the laws of that
      run are about. */
  method Run(t: Setup, start: real, events: seq<Event>) returns (row: TradeRow)
    ensures fresh(row) && row.setup == t && row.View() == ScaleOutRun.Run(t, Opened(t, start), events)
    ensures Tradeable(t, start) ==> Sound(t, start, row.View()) && Left(t, Saved(row.stage, row.remaining, row.stop)) >= 1
  {
    row := new TradeRow(t, start);
    for n := 0 to |events|
      invariant fresh(row) && row.setup == t && row.View() == ScaleOutRun.Run(t, Opened(t, start), events[..n])
    {
      assert events[..n + 1][..n] == events[..n];
      match events[n] {
        case Tick(price, answers) => row.Manage(price, answers);
        case Release => row.ReleaseLatch();
        case Gone => row.MarkGone();
      }
    }
    assert events[..|events|] == events;
    if Tradeable(t, start) { RunKeeps(t, start, events, |events|); }
  }

  // --- the router's own view of the same step ----------------------------------------------------------------------

  function KindOf(step: ManageStep): RouterRows.ScaleStep {
    match step.kind
    case Partial => RouterRows.Part
    case Stop => RouterRows.Trail
    case Mark => RouterRows.MarkOnly
  }

  function AnswerOf(reply: RouterRows.Reply): Answer {
    match reply
    case Accepted(_) => Accepted
    case Refused(gone) => if gone then NoPosition else Refused
    case Definite => Definite
    case _ => Ambiguous
  }

  /** What the broker's answer does to a row's status and latch in the router is what it does to the trade here. */
  lemma RouterViewAgrees(r: RouterTrace.Row, row: Row, step: ManageStep, reply: RouterRows.Reply, price: real)
    requires r.status == RouterTrace.Open && !r.latched && row.open && !row.latched
    ensures var a := RouterRows.StepAnswered(KindOf(step), r, reply);
            var b := if step.kind == Mark || reply.Accepted? then Accept(row, step, price)
                     else Fail(row, step, AnswerOf(reply));
            (a.status == RouterTrace.Open <==> b.open) && a.latched == b.latched
  {
    assert reply.Accepted? || reply.Rested? || reply.Refused? || reply.Definite? || reply.Lost?;
  }
}
