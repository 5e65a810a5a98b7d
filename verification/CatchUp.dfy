/** Catching an open position up with committed evidence: load, compute, compare-and-swap, one bar at a time
    (execution/position_catch_up.py), under any number of concurrent, stopping and retrying calls. */
module CatchUp {
  import opened Maybe
  import opened TradeManager

  const DURATION := 300

  predicate ClosedAt(bar: Bar, asOf: int) { bar.start + DURATION <= asOf }

  ghost predicate Ascending(bars: seq<Bar>) {
    forall i, j :: 0 <= i < j < |bars| ==> bars[i].start < bars[j].start
  }

  /** The committed bars strictly after a moment. */
  function After(bars: seq<Bar>, moment: int): seq<Bar> {
    if bars == [] then []
    else After(bars[..|bars| - 1], moment) + (if bars[|bars| - 1].start > moment then [bars[|bars| - 1]] else [])
  }

  function Closed(bars: seq<Bar>, asOf: int): seq<Bar> {
    if bars == [] then []
    else Closed(bars[..|bars| - 1], asOf) + (if ClosedAt(bars[|bars| - 1], asOf) then [bars[|bars| - 1]] else [])
  }

  datatype Pc =
    | Beginning
    | Reading(watermark: int)
    | Applying(bars: seq<Bar>, i: nat)
    | Computed(bars: seq<Bar>, i: nat, snap: Paper)
    | Ended

  datatype Proc = Proc(asOf: int, pc: Pc)

  /** `current` is the symbol's latest position as it was opened, `log` the bars whose save was committed since, in order;
      nothing in the program reads them. */
  datatype System = System(paper: Paper, evidence: seq<Bar>, procs: seq<Proc>, current: Position, log: seq<Bar>)

  datatype Action =
    | Spawn(asOf: int)
    | Advance(p: nat)
    | Crash(p: nat)
    | Commit(bar: Bar)
    | OtherWriter(paper: Paper)
    | CloseNow(exit: real, at: int)
    | Open(position: Position)

  function ProcStep(symbol: string, sys: System, proc: Proc): (Paper, seq<Bar>, Pc) {
    match proc.pc
    case Beginning =>
      (sys.paper, sys.log,
       if symbol in sys.paper.positions then Reading(Watermark(sys.paper.positions[symbol])) else Ended)
    case Reading(watermark) =>
      (sys.paper, sys.log, Applying(Closed(After(sys.evidence, watermark), proc.asOf), 0))
    case Applying(bars, i) =>
      (sys.paper, sys.log,
       if i < |bars| && symbol in sys.paper.positions && bars[i].start > Watermark(sys.paper.positions[symbol])
       then Computed(bars, i, sys.paper) else Ended)
    case Computed(bars, i, snap) =>
      if i < |bars| && sys.paper == snap then
        var next := ProcessBar(snap, bars[i]);
        (next, sys.log + [bars[i]], if symbol in next.positions then Applying(bars, i + 1) else Ended)
      else (sys.paper, sys.log, Ended)
    case Ended => (sys.paper, sys.log, Ended)
  }

  /** What other writers may do: anything that leaves this symbol's position and its closed trades alone. */
  ghost predicate SameFor(symbol: string, id: nat, a: Paper, b: Paper) {
    && (symbol in a.positions <==> symbol in b.positions)
    && (symbol in a.positions ==> a.positions[symbol] == b.positions[symbol])
    && TradesOf(a.trades, id) == TradesOf(b.trades, id)
  }

  function TradesOf(trades: seq<Trade>, id: nat): seq<Trade> {
    if trades == [] then []
    else
      var last := trades[|trades| - 1];
      TradesOf(trades[..|trades| - 1], id) + (if last.position == id then [last] else [])
  }

  /** The other close paths (week rule, operator) take the position out whole. */
  function ClosedNow(symbol: string, paper: Paper, exit: real, at: int): Paper {
    if symbol !in paper.positions then paper
    else
      var trade := Closing(paper.positions[symbol], exit, at, ByOther);
      Paper(paper.positions - {symbol}, paper.trades + [trade], paper.realized + trade.net)
  }

  /** The watermark after the saved bars. */
  function Mark(p: Position, log: seq<Bar>): int {
    if log == [] then Watermark(p) else log[|log| - 1].start
  }

  /** A fill opens a new position of the symbol, not before the last bar saved for the one before it. */
  predicate MayOpen(symbol: string, sys: System, q: Position) {
    && symbol !in sys.paper.positions && TradesOf(sys.paper.trades, q.id) == []
    && q.multiplier > 0.0 && q.openedAt <= Watermark(q) && Mark(sys.current, sys.log) <= Watermark(q)
  }

  ghost function Step(symbol: string, sys: System, a: Action): System {
    match a
    case Spawn(asOf) => sys.(procs := sys.procs + [Proc(asOf, Beginning)])
    case Advance(p) =>
      if p < |sys.procs| then
        var (paper, log, pc) := ProcStep(symbol, sys, sys.procs[p]);
        sys.(paper := paper, procs := sys.procs[p := sys.procs[p].(pc := pc)], log := log)
      else sys
    case Crash(p) =>
      if p < |sys.procs| then sys.(procs := sys.procs[p := sys.procs[p].(pc := Ended)]) else sys
    case Commit(bar) =>
      if bar.symbol == symbol && Priced(bar) && forall i :: 0 <= i < |sys.evidence| ==> sys.evidence[i].start < bar.start
      then sys.(evidence := sys.evidence + [bar]) else sys
    case OtherWriter(paper) => if SameFor(symbol, sys.current.id, sys.paper, paper) then sys.(paper := paper) else sys
    case CloseNow(exit, at) => sys.(paper := ClosedNow(symbol, sys.paper, exit, at))
    case Open(q) =>
      if MayOpen(symbol, sys, q) then
        sys.(paper := sys.paper.(positions := sys.paper.positions[symbol := q]), current := q, log := [])
      else sys
  }

  ghost function Execute(symbol: string, sys: System, actions: seq<Action>): System {
    if actions == [] then sys
    else Step(symbol, Execute(symbol, sys, actions[..|actions| - 1]), actions[|actions| - 1])
  }

  // --- what the durable state always is ----------------------------------------------------------------------------

  /** One position and the trades that closed it. */
  datatype View = View(position: Option<Position>, trades: seq<Trade>)

  function ViewOf(symbol: string, id: nat, paper: Paper): View {
    View(if symbol in paper.positions then Some(paper.positions[symbol]) else None, TradesOf(paper.trades, id))
  }

  /** One bar on the position alone; nothing happens to a position that is gone. */
  function Folded(v: View, bar: Bar): View {
    if v.position.None? || !Applies(v.position.value, bar) then v
    else
      var p := v.position.value;
      match Exit(p, bar)
      case None => v.(position := Some(p.(last := Some(bar.close), processed := Some(bar.start))))
      case Some((price, reason)) => View(None, v.trades + [Closing(p, price, bar.start, reason)])
  }

  function Fold(v: View, bars: seq<Bar>): View {
    if bars == [] then v else Folded(Fold(v, bars[..|bars| - 1]), bars[|bars| - 1])
  }

  ghost predicate Starts(symbol: string, sys: System) {
    var p := sys.current;
    && symbol in sys.paper.positions && sys.paper.positions[symbol] == p
    && TradesOf(sys.paper.trades, p.id) == [] && p.multiplier > 0.0 && p.openedAt <= Watermark(p)
    && sys.log == [] && sys.procs == []
    && Ascending(sys.evidence)
    && forall i :: 0 <= i < |sys.evidence| ==> sys.evidence[i].symbol == symbol && Priced(sys.evidence[i])
  }

  /** The eligible bars of the position: everything committed after where it started. */
  function Eligible(p: Position, evidence: seq<Bar>): seq<Bar> { After(evidence, Watermark(p)) }

  ghost predicate TakenOut(v: View, w: View) {
    && v.position.Some? && w.position.None?
    && |w.trades| == |v.trades| + 1 && v.trades == w.trades[..|v.trades|]
    && w.trades[|v.trades|].reason == ByOther && w.trades[|v.trades|].position == v.position.value.id
  }

  /** The bars saved for the latest position are a prefix of its eligible ones, and the durable position and its trades are
      one sequential fold over them, unless another close path took the position out after that prefix. */
  ghost predicate Exact(symbol: string, sys: System) {
    && sys.log <= Eligible(sys.current, sys.evidence)
    && var folded := Fold(View(Some(sys.current), []), sys.log);
       var durable := ViewOf(symbol, sys.current.id, sys.paper);
       durable == folded || TakenOut(folded, durable)
  }

  // --- one call ----------------------------------------------------------------------------------------------------

  function Applied(paper: Paper, bars: seq<Bar>): Paper {
    if bars == [] then paper else ProcessBar(Applied(paper, bars[..|bars| - 1]), bars[|bars| - 1])
  }

  lemma AppliedAppend(paper: Paper, bars: seq<Bar>, bar: Bar)
    ensures Applied(paper, bars + [bar]) == ProcessBar(Applied(paper, bars), bar)
  {
    assert (bars + [bar])[..|bars|] == bars;
  }

  datatype Status = NoOp | UpToDate | Progressed | ClosedBy(start: int) | Stopped

  class TradingStore {
    var paper: Paper

    method SavePaper(expected: Paper, next: Paper) returns (saved: bool)
      modifies this
      ensures saved == (old(paper) == expected)
      ensures paper == if saved then next else old(paper)
    {
      saved := paper == expected;
      if saved {
        paper := next;
      }
    }
  }

  lemma WatermarkMoves(symbol: string, paper: Paper, bar: Bar, mark: int)
    requires bar.symbol == symbol && mark < bar.start
    requires symbol in paper.positions ==> Watermark(paper.positions[symbol]) <= mark
    ensures symbol in ProcessBar(paper, bar).positions ==>
              symbol in paper.positions && Watermark(ProcessBar(paper, bar).positions[symbol]) <= bar.start
  {}

  /** One undisturbed call, which may stop after any number of saves: it has applied the eligible closed bars in order,
      and all of them unless it stopped or one of them closed the position. */
  method CatchUpPosition(store: TradingStore, evidence: seq<Bar>, symbol: string, asOf: int, stop: nat)
    returns (status: Status, ghost applied: seq<Bar>)
    requires Ascending(evidence) && forall i :: 0 <= i < |evidence| ==> evidence[i].symbol == symbol
    modifies store
    ensures store.paper == Applied(old(store.paper), applied)
    ensures status.NoOp? <==> symbol !in old(store.paper.positions)
    ensures status.NoOp? ==> applied == []
    ensures !status.NoOp? ==>
              var bars := Closed(After(evidence, Watermark(old(store.paper).positions[symbol])), asOf);
              && applied <= bars
              && (|bars| <= stop ==> symbol !in store.paper.positions || applied == bars)
              && (status.ClosedBy? ==> symbol !in store.paper.positions && applied != []
                                       && applied[|applied| - 1].start == status.start)
    ensures status.UpToDate? ==> applied == []
  {
    if symbol !in store.paper.positions {
      return NoOp, [];
    }
    var watermark := Watermark(store.paper.positions[symbol]);
    var bars := Closed(After(evidence, watermark), asOf);
    BarsAfter(evidence, symbol, watermark, asOf);
    var i := 0;
    applied := [];
    while i < |bars|
      invariant 0 <= i <= |bars| && applied == bars[..i] && i <= stop
      invariant store.paper == Applied(old(store.paper), applied)
      invariant symbol in store.paper.positions
      invariant Watermark(store.paper.positions[symbol]) <= if i == 0 then watermark else bars[i - 1].start
    {
      if i == stop {
        return Stopped, applied;
      }
      var snap := store.paper;
      if symbol !in snap.positions || bars[i].start <= Watermark(snap.positions[symbol]) {
        break;
      }
      WatermarkMoves(symbol, snap, bars[i], if i == 0 then watermark else bars[i - 1].start);
      var next := ProcessBar(snap, bars[i]);
      var saved := store.SavePaper(snap, next);
      if !saved {
        return Stopped, applied;
      }
      AppliedAppend(old(store.paper), applied, bars[i]);
      applied := applied + [bars[i]];
      i := i + 1;
      if symbol !in next.positions {
        return ClosedBy(bars[i - 1].start), applied;
      }
    }
    assert bars[..|bars|] == bars;
    status := if i == 0 then UpToDate else Progressed;
  }

  lemma {:induction false} AfterIs(bars: seq<Bar>, moment: int, j: nat)
    requires j <= |bars|
    requires forall i :: 0 <= i < j ==> bars[i].start <= moment
    requires forall i :: j <= i < |bars| ==> bars[i].start > moment
    ensures After(bars, moment) == bars[j..]
  {
    if bars == [] {
    } else {
      var n := |bars| - 1;
      if j <= n {
        AfterIs(bars[..n], moment, j);
        assert bars[..n][j..] + [bars[n]] == bars[j..];
      } else {
        AfterIs(bars[..n], moment, n);
      }
    }
  }

  lemma {:induction false} AfterCut(bars: seq<Bar>, moment: int) returns (j: nat)
    requires Ascending(bars)
    ensures j <= |bars| && After(bars, moment) == bars[j..]
    ensures forall i :: 0 <= i < j ==> bars[i].start <= moment
    ensures forall i :: j <= i < |bars| ==> bars[i].start > moment
  {
    j := 0;
    while j < |bars| && bars[j].start <= moment
      invariant j <= |bars| && forall i :: 0 <= i < j ==> bars[i].start <= moment
    {
      j := j + 1;
    }
    AfterIs(bars, moment, j);
  }

  lemma SliceAscends(bars: seq<Bar>, j: nat)
    requires Ascending(bars) && j <= |bars|
    ensures Ascending(bars[j..])
  {
    var rest := bars[j..];
    forall i, k | 0 <= i < k < |rest| ensures rest[i].start < rest[k].start {
      assert rest[i] == bars[j + i] && rest[k] == bars[j + k];
    }
  }

  /** The listing of a call: the bars after its watermark that are closed, oldest first. */
  lemma BarsAfter(evidence: seq<Bar>, symbol: string, watermark: int, asOf: int)
    requires Ascending(evidence) && forall i :: 0 <= i < |evidence| ==> evidence[i].symbol == symbol
    ensures var bars := Closed(After(evidence, watermark), asOf);
            && Ascending(bars)
            && forall i :: 0 <= i < |bars| ==> bars[i].symbol == symbol && bars[i].start > watermark
  {
    var j := AfterCut(evidence, watermark);
    SliceAscends(evidence, j);
    ClosedIsPrefix(evidence[j..], asOf);
  }

  lemma {:induction false} AllClosed(bars: seq<Bar>, asOf: int)
    requires forall i :: 0 <= i < |bars| ==> ClosedAt(bars[i], asOf)
    ensures Closed(bars, asOf) == bars
  {
    if bars != [] { AllClosed(bars[..|bars| - 1], asOf); }
  }

  /** The closed bars of an ascending history are a prefix of it. */
  lemma {:induction false} ClosedIsPrefix(bars: seq<Bar>, asOf: int)
    requires Ascending(bars)
    ensures Closed(bars, asOf) <= bars
    ensures forall i :: |Closed(bars, asOf)| <= i < |bars| ==> !ClosedAt(bars[i], asOf)
  {
    if bars != [] {
      var n := |bars| - 1;
      if ClosedAt(bars[n], asOf) {
        AllClosed(bars, asOf);
      } else {
        ClosedIsPrefix(bars[..n], asOf);
        forall i | |Closed(bars, asOf)| <= i < |bars| ensures !ClosedAt(bars[i], asOf) {
          if i < n { assert !ClosedAt(bars[..n][i], asOf); }
        }
      }
    }
  }
}
