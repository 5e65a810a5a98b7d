/** Why concurrent catch-up calls apply every eligible bar exactly once: the next bar is chosen from the durable
    watermark only, and the swap fails when anything moved (execution/position_catch_up.py). */
module CatchUpSafety {
  import opened Maybe
  import opened TradeManager
  import opened CatchUp

  /** Evidence that grows at its end only ever adds eligible bars at the end. */
  lemma AfterGrows(bars: seq<Bar>, bar: Bar, moment: int)
    ensures After(bars, moment) <= After(bars + [bar], moment)
  {
    assert (bars + [bar])[..|bars|] == bars;
  }

  /** The bars after the watermark of a position that has taken the first `n` eligible bars are the rest. */
  lemma AfterMark(p: Position, evidence: seq<Bar>, n: nat)
    requires Ascending(evidence) && n <= |Eligible(p, evidence)|
    ensures After(evidence, Mark(p, Eligible(p, evidence)[..n])) == Eligible(p, evidence)[n..]
    ensures Ascending(Eligible(p, evidence))
    ensures forall i :: 0 <= i < |Eligible(p, evidence)| ==> Eligible(p, evidence)[i].start > Watermark(p)
  {
    var j := AfterCut(evidence, Watermark(p));
    AfterIs(evidence, Mark(p, Eligible(p, evidence)[..n]), j + n);
    assert evidence[j + n..] == evidence[j..][n..];
  }

  /** The listing is a stretch of the evidence, and everything before its bar `i` lies within the mark. */
  ghost predicate Listed(sys: System, bars: seq<Bar>, i: nat) {
    exists k: nat :: Stretch(sys.evidence, bars, k) && Within(sys, k + i)
  }

  ghost predicate Stretch(all: seq<Bar>, bars: seq<Bar>, k: nat) {
    k + |bars| <= |all| && bars == all[k..k + |bars|]
  }

  ghost predicate Within(sys: System, n: nat) {
    forall m :: 0 <= m < n && m < |sys.evidence| ==> sys.evidence[m].start <= Mark(sys.current, sys.log)
  }

  ghost predicate ProcOk(symbol: string, sys: System, proc: Proc) {
    match proc.pc
    case Reading(watermark) => watermark <= Mark(sys.current, sys.log)
    case Applying(bars, i) => i <= |bars| && Listed(sys, bars, i)
    case Computed(bars, i, snap) =>
      i < |bars| && symbol in snap.positions && bars[i].start > Watermark(snap.positions[symbol]) && Listed(sys, bars, i)
    case _ => true
  }

  /** The durable position still is the one that was opened, at the mark of the saved bars. */
  ghost predicate Tracks(p: Position, log: seq<Bar>, q: Position) {
    && q.id == p.id && q.openedAt == p.openedAt && q.multiplier == p.multiplier
    && q.openedAt <= Watermark(q) == Mark(p, log)
  }

  /** No bar was saved after the one that closed the position. */
  ghost predicate OpenBeforeEach(p: Position, log: seq<Bar>) {
    forall k :: 0 <= k < |log| ==> Fold(View(Some(p), []), log[..k]).position.Some?
  }

  ghost predicate Inv(symbol: string, sys: System) {
    && Ascending(sys.evidence) && sys.current.multiplier > 0.0
    && (forall i :: 0 <= i < |sys.evidence| ==> sys.evidence[i].symbol == symbol && Priced(sys.evidence[i]))
    && Exact(symbol, sys)
    && OpenBeforeEach(sys.current, sys.log)
    && (symbol in sys.paper.positions ==> Tracks(sys.current, sys.log, sys.paper.positions[symbol]))
    && forall k :: 0 <= k < |sys.procs| ==> ProcOk(symbol, sys, sys.procs[k])
  }

  lemma ProcessBarView(symbol: string, id: nat, paper: Paper, bar: Bar)
    requires bar.symbol == symbol && (symbol in paper.positions ==> paper.positions[symbol].id == id)
    ensures ViewOf(symbol, id, ProcessBar(paper, bar)) == Folded(ViewOf(symbol, id, paper), bar)
    ensures forall other :: other != symbol ==>
              (other in paper.positions <==> other in ProcessBar(paper, bar).positions) &&
              (other in paper.positions ==> ProcessBar(paper, bar).positions[other] == paper.positions[other])
  {
    var next := ProcessBar(paper, bar);
    if next.trades != paper.trades {
      assert next.trades[..|next.trades| - 1] == paper.trades;
    }
  }

  /** What a call has read stays good while the evidence grows and the mark rises, even over a new position. */
  lemma StableProc(symbol: string, s: System, t: System, proc: Proc)
    requires ProcOk(symbol, s, proc)
    requires s.evidence <= t.evidence && Mark(s.current, s.log) <= Mark(t.current, t.log)
    ensures ProcOk(symbol, t, proc)
  {
    if proc.pc.Applying? || proc.pc.Computed? {
      var k: nat :| Stretch(s.evidence, proc.pc.bars, k) && Within(s, k + proc.pc.i);
      assert Stretch(t.evidence, proc.pc.bars, k);
      assert Within(t, k + proc.pc.i);
    }
  }

  /** A swap that succeeds saves exactly the next eligible bar of the position, whichever position the call was started
      for: what was listed before that bar is within the mark, and the bar is not. */
  lemma SavesTheNextBar(symbol: string, sys: System, bars: seq<Bar>, i: nat)
    requires Ascending(sys.evidence) && sys.log <= Eligible(sys.current, sys.evidence) && i < |bars|
    requires symbol in sys.paper.positions && Tracks(sys.current, sys.log, sys.paper.positions[symbol])
    requires bars[i].start > Watermark(sys.paper.positions[symbol]) && Listed(sys, bars, i)
    ensures var all, n := Eligible(sys.current, sys.evidence), |sys.log|;
            && n < |all| && bars[i] == all[n] && sys.log + [bars[i]] == all[..n + 1]
            && bars[i] in sys.evidence
  {
    var all, n := Eligible(sys.current, sys.evidence), |sys.log|;
    var k: nat :| Stretch(sys.evidence, bars, k) && Within(sys, k + i);
    assert bars[i] == sys.evidence[k + i];
    AfterFirst(sys.evidence, Mark(sys.current, sys.log), k + i);
    assert sys.log == all[..n];
    AfterMark(sys.current, sys.evidence, n);
  }

  lemma AfterFirst(bars: seq<Bar>, moment: int, k: nat)
    requires Ascending(bars) && k < |bars| && bars[k].start > moment
    requires forall m :: 0 <= m < k ==> bars[m].start <= moment
    ensures After(bars, moment) != [] && After(bars, moment)[0] == bars[k]
  {
    AfterIs(bars, moment, k);
  }

  /** The listing goes on from the bar just saved. */
  lemma ListedOn(sys: System, bars: seq<Bar>, i: nat, next: System)
    requires Ascending(sys.evidence) && i < |bars| && Listed(sys, bars, i) && Mark(sys.current, sys.log) < bars[i].start
    requires next.evidence == sys.evidence && next.current == sys.current && next.log == sys.log + [bars[i]]
    ensures Listed(next, bars, i + 1) && Mark(sys.current, sys.log) < Mark(next.current, next.log)
  {
    var k: nat :| Stretch(sys.evidence, bars, k) && Within(sys, k + i);
    assert bars[i] == sys.evidence[k + i];
    assert Stretch(next.evidence, bars, k) && Within(next, k + (i + 1));
  }

  lemma {:induction false} FoldAppend(v: View, bars: seq<Bar>, bar: Bar)
    ensures Fold(v, bars + [bar]) == Folded(Fold(v, bars), bar)
  {
    assert (bars + [bar])[..|bars|] == bars;
  }

  /** The invariant without the processes, after a successful swap. */
  lemma SwapKeeps(symbol: string, sys: System, proc: Proc, next: System)
    requires Inv(symbol, sys) && ProcOk(symbol, sys, proc)
    requires proc.pc.Computed? && proc.pc.snap == sys.paper
    requires next.paper == ProcessBar(sys.paper, proc.pc.bars[proc.pc.i])
    requires next.log == sys.log + [proc.pc.bars[proc.pc.i]]
    requires next.evidence == sys.evidence && next.current == sys.current
    ensures Exact(symbol, next) && OpenBeforeEach(next.current, next.log)
    ensures symbol in next.paper.positions ==> Tracks(next.current, next.log, next.paper.positions[symbol])
  {
    var p, bar := sys.current, proc.pc.bars[proc.pc.i];
    SavesTheNextBar(symbol, sys, proc.pc.bars, proc.pc.i);
    ProcessBarView(symbol, p.id, sys.paper, bar);
    FoldAppend(View(Some(p), []), sys.log, bar);
    forall k | 0 <= k < |next.log| ensures Fold(View(Some(p), []), next.log[..k]).position.Some? {
      if k < |sys.log| {
        assert next.log[..k] == sys.log[..k];
      } else {
        assert next.log[..k] == sys.log;
      }
    }
  }

  lemma OthersStable(symbol: string, s: System, t: System, n: nat)
    requires forall k :: 0 <= k < |s.procs| ==> ProcOk(symbol, s, s.procs[k])
    requires s.evidence <= t.evidence && Mark(s.current, s.log) <= Mark(t.current, t.log) && |s.procs| <= |t.procs|
    requires forall k :: 0 <= k < |s.procs| && k != n ==> t.procs[k] == s.procs[k]
    ensures forall k :: 0 <= k < |s.procs| && k != n ==> ProcOk(symbol, t, t.procs[k])
  {
    forall k | 0 <= k < |s.procs| && k != n ensures ProcOk(symbol, t, t.procs[k]) {
      StableProc(symbol, s, t, s.procs[k]);
    }
  }

  lemma SwapStep(symbol: string, sys: System, n: nat)
    requires Inv(symbol, sys) && n < |sys.procs| && sys.procs[n].pc.Computed?
    ensures Inv(symbol, Step(symbol, sys, Advance(n)))
  {
    var next, pc := Step(symbol, sys, Advance(n)), sys.procs[n].pc;
    if pc.snap == sys.paper {
      ListedOn(sys, pc.bars, pc.i, next);
      SwapKeeps(symbol, sys, sys.procs[n], next);
    }
    OthersStable(symbol, sys, next, n);
  }

  /** A listing read with a watermark of the past, even of an earlier position, is a stretch of the evidence that leaves
      out nothing beyond the mark. */
  lemma ListedBars(sys: System, watermark: int, asOf: int)
    requires Ascending(sys.evidence) && watermark <= Mark(sys.current, sys.log)
    ensures Listed(sys, Closed(After(sys.evidence, watermark), asOf), 0)
  {
    var k := AfterCut(sys.evidence, watermark);
    SliceAscends(sys.evidence, k);
    ClosedIsPrefix(sys.evidence[k..], asOf);
    var bars := Closed(sys.evidence[k..], asOf);
    assert sys.evidence[k..][..|bars|] == sys.evidence[k..k + |bars|];
    assert Stretch(sys.evidence, bars, k) && Within(sys, k + 0);
  }

  lemma ReadStep(symbol: string, sys: System, n: nat)
    requires Inv(symbol, sys) && n < |sys.procs| && !sys.procs[n].pc.Computed?
    ensures Inv(symbol, Step(symbol, sys, Advance(n)))
  {
    var proc := sys.procs[n];
    var next := Step(symbol, sys, Advance(n));
    if proc.pc.Reading? {
      ListedBars(next, proc.pc.watermark, proc.asOf);
    } else if proc.pc.Applying? {
      StableProc(symbol, sys, next, proc);
    }
    OthersStable(symbol, sys, next, n);
  }

  lemma OtherWriterStep(symbol: string, sys: System, paper: Paper)
    requires Inv(symbol, sys)
    ensures Inv(symbol, Step(symbol, sys, OtherWriter(paper)))
  {
    OthersStable(symbol, sys, Step(symbol, sys, OtherWriter(paper)), |sys.procs|);
  }

  lemma ClosedNowView(symbol: string, id: nat, paper: Paper, exit: real, at: int)
    requires symbol in paper.positions ==> paper.positions[symbol].id == id
    ensures var v, w := ViewOf(symbol, id, paper), ViewOf(symbol, id, ClosedNow(symbol, paper, exit, at));
            if symbol in paper.positions then TakenOut(v, w) else v == w
  {
    if symbol in paper.positions {
      var next := ClosedNow(symbol, paper, exit, at);
      assert next.trades[..|next.trades| - 1] == paper.trades;
    }
  }

  lemma CloseNowStep(symbol: string, sys: System, exit: real, at: int)
    requires Inv(symbol, sys)
    ensures Inv(symbol, Step(symbol, sys, CloseNow(exit, at)))
  {
    OthersStable(symbol, sys, Step(symbol, sys, CloseNow(exit, at)), |sys.procs|);
    ClosedNowView(symbol, sys.current.id, sys.paper, exit, at);
  }

  lemma CommitStep(symbol: string, sys: System, bar: Bar)
    requires Inv(symbol, sys)
    ensures Inv(symbol, Step(symbol, sys, Commit(bar)))
  {
    var next := Step(symbol, sys, Commit(bar));
    if next != sys {
      AfterGrows(sys.evidence, bar, Watermark(sys.current));
      OthersStable(symbol, sys, next, |sys.procs|);
    }
  }

  lemma OpenStep(symbol: string, sys: System, q: Position)
    requires Inv(symbol, sys)
    ensures Inv(symbol, Step(symbol, sys, Open(q)))
  {
    OthersStable(symbol, sys, Step(symbol, sys, Open(q)), |sys.procs|);
  }

  lemma StepKeeps(symbol: string, sys: System, a: Action)
    requires Inv(symbol, sys)
    ensures Inv(symbol, Step(symbol, sys, a))
  {
    match a
    case Advance(n) =>
      if n < |sys.procs| {
        if sys.procs[n].pc.Computed? { SwapStep(symbol, sys, n); } else { ReadStep(symbol, sys, n); }
      }
    case Commit(bar) => CommitStep(symbol, sys, bar);
    case OtherWriter(paper) => OtherWriterStep(symbol, sys, paper);
    case CloseNow(exit, at) => CloseNowStep(symbol, sys, exit, at);
    case Open(q) => OpenStep(symbol, sys, q);
    case Spawn(asOf) => OthersStable(symbol, sys, Step(symbol, sys, a), |sys.procs|);
    case Crash(n) => OthersStable(symbol, sys, Step(symbol, sys, a), n);
  }

  lemma {:induction false} RunKeeps(symbol: string, start: System, actions: seq<Action>)
    requires Starts(symbol, start)
    ensures Inv(symbol, Execute(symbol, start, actions))
  {
    if actions == [] {
    } else {
      var before := actions[..|actions| - 1];
      RunKeeps(symbol, start, before);
      StepKeeps(symbol, Execute(symbol, start, before), actions[|actions| - 1]);
    }
  }

  /** In every reachable state the bars saved for the symbol's latest position are its first eligible bars, each once and in
      order, the durable position and its trades are one sequential fold over them, and nothing was saved after the close;
      also when calls started for earlier positions still run. */
  lemma CatchUpIsExactlyOnce(symbol: string, start: System, actions: seq<Action>)
    requires Starts(symbol, start)
    ensures var sys := Execute(symbol, start, actions);
            && Exact(symbol, sys) && Ascending(sys.log) && OpenBeforeEach(sys.current, sys.log)
            && (symbol in sys.paper.positions ==>
                  Watermark(sys.paper.positions[symbol]) == Mark(sys.current, sys.log))
  {
    RunKeeps(symbol, start, actions);
    AfterMark(Execute(symbol, start, actions).current, Execute(symbol, start, actions).evidence, 0);
  }
}
