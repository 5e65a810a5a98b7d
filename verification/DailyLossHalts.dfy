/** How long a halt lasts: over restarts, releases and failing reads and writes, whether it is remembered in memory, in
    the store or in both (execution/daily_loss_limit.py, and `_loss_check` of execution/broker_demo_router.py). */
module DailyLossHalts {
  import opened Maybe
  import opened DailyLoss
  import opened DailyLossRun
  import opened DailyLossLaws

  /** The drawdown halt stands: in memory, in the store, or both. */
  predicate Halted(t: Tracker) { t.latch.dd || t.flags.ddHalt }

  /** The tick judges its NAV. */
  predicate Judges(cfg: Config, base: real, w: World, e: Event)
    requires CursorOk(w) && e.Tick?
  {
    FoldOf(cfg, w, e.r).Some? && Began(cfg, FoldOf(cfg, w, e.r).value, Seen(base, w, e), w.clock, e.r.faults)
  }

  /** The tick sees a NAV that is not positive, which is a breach on its own. */
  predicate SeesNothing(cfg: Config, base: real, w: World, e: Event)
    requires CursorOk(w) && e.Tick?
  {
    FoldOf(cfg, w, e.r).Some? && e.finite && Nav(base, w) <= 0.0
  }

  predicate Reaches(cfg: Config, base: real, w: World, e: Event)
    requires CursorOk(w) && e.Tick?
  {
    Judges(cfg, base, w, e) || SeesNothing(cfg, base, w, e)
  }

  /** The tick's roll gets as far as clearing the day's flag. */
  predicate ClearsDay(cfg: Config, base: real, w: World, e: Event)
    requires CursorOk(w) && e.Tick?
  {
    && FoldOf(cfg, w, e.r).Some? && Positive(Seen(base, w, e)) && e.r.faults.readable
    && Sane(FoldOf(cfg, w, e.r).value) && w.t.flags.day != Some(cfg.day(w.clock)) && e.r.faults.roll >= 3
  }

  /** What latches and readable flags show of the day's halt and of the drawdown halt when the account is not judged. */
  function Shown(cfg: Config, base: real, w: World, e: Event): (bool, bool)
    requires CursorOk(w) && e.Tick?
  {
    var f := if ClearsDay(cfg, base, w, e) then w.t.flags.(halt := None) else w.t.flags;
    HaltState(cfg, w.t.(flags := f), w.clock, e.r.halts)
  }

  // --- one tick ----------------------------------------------------------------------------------------------------

  lemma FoldKeepsHalts(cfg: Config, w: World, r: Reads)
    requires CursorOk(w) && FoldOf(cfg, w, r).Some?
    ensures var f := FoldOf(cfg, w, r).value;
            f.ddHalt == w.t.flags.ddHalt && f.halt == w.t.flags.halt && f.day == w.t.flags.day
  {}

  lemma PreparedHalt(cfg: Config, t: Tracker, nav: real, now: int, x: Faults)
    requires Sane(t.flags) && nav > 0.0
    ensures var (t1, ready) := Prepared(cfg, t, nav, now, x);
            && t1.flags.ddHalt == t.flags.ddHalt && t1.latch.dd == t.latch.dd
            && (t.latch.daily == Some(cfg.day(now)) ==> t1.latch.daily == t.latch.daily)
            && (t1.latch.daily == Some(cfg.day(now)) ==> t.latch.daily == t1.latch.daily)
            && (t.flags.day == Some(cfg.day(now)) ==> t1.flags.halt == t.flags.halt && t1.latch == t.latch)
            && ready == Prepared(cfg, Tracker(t.flags, Latch(None, false)), nav, now, x).1
  {
    PreparedFrame(cfg, t, nav, now, x);
    ReadyIgnoresLatch(cfg, t, nav, now, x);
  }

  lemma JudgedHalt(cfg: Config, t: Tracker, nav: real, planned: Planned, now: int, x: Faults)
    requires t.flags.e0.Some? && t.flags.transfers.Some?
    ensures var (next, d) := Judged(cfg, t, nav, planned, now, x);
            && (t.latch.dd ==> next.latch.dd) && (t.flags.ddHalt ==> next.flags.ddHalt)
            && (Halted(t) ==> !d.entryAllowed && d.reason == Some(DrawdownHalt))
            && (d.ddHalted <==> Halted(next)) && (d.ddHalted ==> d.flattenRequired)
  {}

  /** An evaluation never ends the drawdown halt, and allows no entry while it stands. */
  lemma EvaluatedKeepsHalt(cfg: Config, t: Tracker, nav: Option<real>, planned: Planned, now: int, x: Faults)
    ensures var (next, d) := Evaluated(cfg, t, nav, planned, now, x);
            && (t.latch.dd ==> next.latch.dd) && (t.flags.ddHalt ==> next.flags.ddHalt)
            && (Halted(t) ==> !d.entryAllowed)
  {
    if Positive(nav) && x.readable && Sane(t.flags) {
      PreparedHalt(cfg, t, nav.value, now, x);
      var (t1, ready) := Prepared(cfg, t, nav.value, now, x);
      if ready { JudgedHalt(cfg, t1, nav.value, planned, now, x); }
    }
  }

  /** What latches and readable flags show of the drawdown halt stays shown. */
  lemma EvaluatedKeepsShown(cfg: Config, t: Tracker, nav: Option<real>, planned: Planned, now: int, x: Faults,
                            h: HaltReads)
    requires HaltState(cfg, t, now, h).1
    ensures HaltState(cfg, Evaluated(cfg, t, nav, planned, now, x).0, now, h).1
  {
    EvaluatedKeepsHalt(cfg, t, nav, planned, now, x);
    if Positive(nav) && x.readable && Sane(t.flags) { PreparedHalt(cfg, t, nav.value, now, x); }
  }

  /** What an evaluation reports of the drawdown halt: all of it when it gets to a verdict, and nothing otherwise. */
  lemma EvaluatedShowsHalt(cfg: Config, t: Tracker, nav: Option<real>, planned: Planned, now: int, x: Faults)
    ensures var (next, d) := Evaluated(cfg, t, nav, planned, now, x);
            var verdict := (nav.Some? && nav.value <= 0.0) || Began(cfg, t.flags, nav, now, x);
            && (verdict && Halted(next) ==> d.ddHalted && d.flattenRequired)
            && (verdict && Halted(t) ==> d.reason == Some(DrawdownHalt))
            && (!verdict ==> d.reason in {Some(NavInvalid), Some(Unreadable)})
  {
    if Positive(nav) && x.readable && Sane(t.flags) {
      PreparedHalt(cfg, t, nav.value, now, x);
      var (t1, ready) := Prepared(cfg, t, nav.value, now, x);
      if ready { JudgedHalt(cfg, t1, nav.value, planned, now, x); }
    }
  }

  /** A halted account gets no entry, and stays halted; the tick asks to flatten exactly when it can tell: from memory,
      from the stored flag, or because it gets as far as judging the account. */
  lemma HaltedTick(cfg: Config, base: real, w: World, e: Event)
    requires CursorOk(w) && e.Tick? && Halted(w.t)
    ensures var (next, d) := Check(cfg, base, w, e);
            && next == Next(cfg, base, w, e).t && Halted(next) && (w.t.latch.dd ==> next.latch.dd) && !d.entryAllowed
            && (d.flattenRequired <==>
                var (daily, dd) := Shown(cfg, base, w, e);
                dd || (daily && cfg.flatten) || Reaches(cfg, base, w, e))
  {
    CheckTracker(cfg, base, w, e);
    if FoldOf(cfg, w, e.r).Some? {
      var f := FoldOf(cfg, w, e.r).value;
      FoldKeepsHalts(cfg, w, e.r);
      EvaluatedKeepsHalt(cfg, Tracker(f, w.t.latch), Seen(base, w, e), e.planned, w.clock, e.r.faults);
      EvaluatedShowsHalt(cfg, Tracker(f, w.t.latch), Seen(base, w, e), e.planned, w.clock, e.r.faults);
      if !Reaches(cfg, base, w, e) { UnreachedLatch(cfg, base, w, e, f); }
    }
  }

  /** A tick that does not get to a verdict leaves the latches of today and the drawdown as they are. */
  lemma UnreachedLatch(cfg: Config, base: real, w: World, e: Event, f: Flags)
    requires CursorOk(w) && e.Tick? && FoldOf(cfg, w, e.r) == Some(f) && !Reaches(cfg, base, w, e)
    ensures var key := cfg.day(w.clock);
            var (t1, d) := Evaluated(cfg, Tracker(f, w.t.latch), Seen(base, w, e), e.planned, w.clock, e.r.faults);
            && t1.latch.dd == w.t.latch.dd && t1.flags.ddHalt == f.ddHalt
            && (t1.latch.daily == Some(key) <==> w.t.latch.daily == Some(key))
            && t1.flags.halt == (if ClearsDay(cfg, base, w, e) then None else f.halt)
            && d.reason in {Some(NavInvalid), Some(Unreadable)}
  {
    var t, nav, x := Tracker(f, w.t.latch), Seen(base, w, e), e.r.faults;
    EvaluatedShowsHalt(cfg, t, nav, e.planned, w.clock, x);
    FoldKeepsHalts(cfg, w, e.r);
    if Positive(nav) && x.readable && Sane(f) { PreparedHalt(cfg, t, nav.value, w.clock, x); }
  }

  // --- the drawdown halt over runs ---------------------------------------------------------------------------------

  /** What ends a drawdown halt: a restart that finds no flag, and an operator's release that removes everything that
      remembers it. */
  predicate EndsHalt(w: World, e: Event) {
    || (e.Restart? && !w.t.flags.ddHalt)
    || (e.ClearDrawdown? && (e.writes >= 3 || (e.writes >= 1 && !w.t.latch.dd)))
  }

  lemma HaltStep(cfg: Config, base: real, w: World, e: Event)
    requires CursorOk(w) && Halted(w.t)
    ensures Halted(Next(cfg, base, w, e).t) <==> !EndsHalt(w, e)
  {
    if e.Tick? { HaltedTick(cfg, base, w, e); }
  }

  ghost predicate NeverEnded(cfg: Config, base: real, w: World, events: seq<Event>)
    requires CursorOk(w)
  {
    forall k :: 0 <= k < |events| ==> !EndsHalt(Run(cfg, base, w, events[..k]), events[k])
  }

  lemma NeverEndedFront(cfg: Config, base: real, w: World, events: seq<Event>)
    requires CursorOk(w) && events != []
    ensures var n := |events| - 1;
            NeverEnded(cfg, base, w, events) <==>
            NeverEnded(cfg, base, w, events[..n]) && !EndsHalt(Run(cfg, base, w, events[..n]), events[n])
  {
    var n := |events| - 1;
    assert forall k :: 0 <= k < n ==> events[..n][..k] == events[..k] && events[..n][k] == events[k];
    if NeverEnded(cfg, base, w, events[..n]) && !EndsHalt(Run(cfg, base, w, events[..n]), events[n]) {
      forall k | 0 <= k < |events| ensures !EndsHalt(Run(cfg, base, w, events[..k]), events[k]) {
        if k < n { assert !EndsHalt(Run(cfg, base, w, events[..n][..k]), events[..n][k]); }
      }
    }
    if NeverEnded(cfg, base, w, events) {
      forall k | 0 <= k < n ensures !EndsHalt(Run(cfg, base, w, events[..n][..k]), events[..n][k]) {
        assert !EndsHalt(Run(cfg, base, w, events[..k]), events[k]);
      }
    }
  }

  ghost predicate StandsThroughout(cfg: Config, base: real, w: World, events: seq<Event>)
    requires CursorOk(w)
  {
    forall k :: 0 <= k <= |events| ==> Halted(Run(cfg, base, w, events[..k]).t)
  }

  lemma StandsLonger(cfg: Config, base: real, w: World, events: seq<Event>)
    requires CursorOk(w) && events != []
    requires StandsThroughout(cfg, base, w, events[..|events| - 1]) && Halted(Run(cfg, base, w, events).t)
    ensures StandsThroughout(cfg, base, w, events)
  {
    var n := |events| - 1;
    forall k | 0 <= k <= |events| ensures Halted(Run(cfg, base, w, events[..k]).t) {
      if k <= n {
        assert events[..n][..k] == events[..k];
        assert Halted(Run(cfg, base, w, events[..n][..k]).t);
      } else {
        assert events[..k] == events;
      }
    }
  }

  lemma StandsShorter(cfg: Config, base: real, w: World, events: seq<Event>)
    requires CursorOk(w) && events != [] && StandsThroughout(cfg, base, w, events)
    ensures StandsThroughout(cfg, base, w, events[..|events| - 1]) && Halted(Run(cfg, base, w, events).t)
  {
    var n := |events| - 1;
    assert events[..|events|] == events;
    assert Halted(Run(cfg, base, w, events[..|events|]).t);
    forall k | 0 <= k <= n ensures Halted(Run(cfg, base, w, events[..n][..k]).t) {
      assert events[..n][..k] == events[..k];
      assert Halted(Run(cfg, base, w, events[..k]).t);
    }
  }

  /** Over any run, restarts included, a drawdown halt stands all the way exactly when no event ends it. */
  lemma {:induction false} HaltStandsExactly(cfg: Config, base: real, w: World, events: seq<Event>)
    requires CursorOk(w) && Halted(w.t)
    ensures StandsThroughout(cfg, base, w, events) <==> NeverEnded(cfg, base, w, events)
  {
    if events == [] {
    } else {
      var n := |events| - 1;
      HaltStandsExactly(cfg, base, w, events[..n]);
      NeverEndedFront(cfg, base, w, events);
      if StandsThroughout(cfg, base, w, events) { StandsShorter(cfg, base, w, events); }
      if StandsThroughout(cfg, base, w, events[..n]) {
        assert events[..n][..n] == events[..n];
        assert Halted(Run(cfg, base, w, events[..n][..n]).t);
        HaltStep(cfg, base, Run(cfg, base, w, events[..n]), events[n]);
        if Halted(Run(cfg, base, w, events).t) { StandsLonger(cfg, base, w, events); }
      }
    }
  }

  /** From a drawdown halt on, until an event ends it, no tick of this process or of a later one allows an entry, and a
      tick asks to flatten exactly when the latches and the flags it can read show a halt that flattens, or it gets as far
      as judging the account. */
  lemma DrawdownHaltIsSticky(cfg: Config, base: real, w: World, events: seq<Event>, e: Event)
    requires CursorOk(w) && Halted(w.t) && NeverEnded(cfg, base, w, events) && e.Tick?
    ensures var later := Run(cfg, base, w, events);
            var (_, d) := Check(cfg, base, later, e);
            && Halted(later.t) && !d.entryAllowed
            && (d.flattenRequired <==>
                var (daily, dd) := Shown(cfg, base, later, e);
                dd || (daily && cfg.flatten) || Reaches(cfg, base, later, e))
  {
    HaltStandsExactly(cfg, base, w, events);
    assert events[..|events|] == events;
    assert Halted(Run(cfg, base, w, events[..|events|]).t);
    HaltedTick(cfg, base, Run(cfg, base, w, events), e);
  }

  /** The process that found the breach keeps the latch until it ends or the release is complete, so each of its ticks
      asks to flatten, whichever reads and writes fail and whatever the NAV does. */
  lemma {:induction false} LatchedHaltAlwaysFlattens(cfg: Config, base: real, w: World, events: seq<Event>, e: Event)
    requires CursorOk(w) && w.t.latch.dd && e.Tick?
    requires forall k :: 0 <= k < |events| ==>
               !events[k].Restart? && !(events[k].ClearDrawdown? && events[k].writes >= 3)
    ensures var later := Run(cfg, base, w, events);
            var (_, d) := Check(cfg, base, later, e);
            later.t.latch.dd && !d.entryAllowed && d.flattenRequired
  {
    if events != [] {
      var n := |events| - 1;
      LatchedHaltAlwaysFlattens(cfg, base, w, events[..n], e);
      if events[n].Tick? { HaltedTick(cfg, base, Run(cfg, base, w, events[..n]), events[n]); }
    }
    HaltedTick(cfg, base, Run(cfg, base, w, events), e);
  }

  /** Known before the tick: the NAV is at or below 95 percent of the baseline, corrected for the funds moved since the
      cursor. A tick that has to set the baseline sets it to the NAV itself. */
  predicate DrawdownBroken(cfg: Config, base: real, w: World)
    requires CursorOk(w)
  {
    var start := DrawdownBase(cfg, w.t.flags);
    start.Some? && 0.0 < start.value + MovedSince(w) && Nav(base, w) <= 0.95 * (start.value + MovedSince(w))
  }

  lemma FoldMovesBaselines(cfg: Config, w: World, r: Reads)
    requires CursorOk(w) && FoldOf(cfg, w, r).Some?
    ensures var f, moved := FoldOf(cfg, w, r).value, MovedSince(w);
            && DrawdownBase(cfg, f) == (match DrawdownBase(cfg, w.t.flags)
                                        case None => None
                                        case Some(start) => Some(start + moved))
            && f.ddStart == w.t.flags.ddStart && f.e0 == w.t.flags.e0 && f.day == w.t.flags.day
            && OrZero(f.transfers) == OrZero(w.t.flags.transfers)
                                      + (if f.day == Some(cfg.day(w.clock)) then moved else 0.0)
            && (f.day != Some(cfg.day(w.clock)) ==>
                  Baseline(f, w.clock) == match Baseline(w.t.flags, w.clock)
                                          case None => None
                                          case Some(last) => if last + moved > 0.0 then Some(last + moved) else None)
  {}

  lemma ReadyBaselines(cfg: Config, t: Tracker, nav: real, now: int, x: Faults)
    requires Sane(t.flags) && nav > 0.0 && Prepared(cfg, t, nav, now, x).1
    ensures var f, rolls := Prepared(cfg, t, nav, now, x).0.flags, t.flags.day != Some(cfg.day(now));
            && DrawdownBase(cfg, f) == (if DrawdownBase(cfg, t.flags).Some? then DrawdownBase(cfg, t.flags) else Some(nav))
            && f.e0 == (if !rolls then t.flags.e0 else if Baseline(t.flags, now).Some? then Baseline(t.flags, now)
                        else Some(nav))
            && OrZero(f.transfers) == if rolls then 0.0 else OrZero(t.flags.transfers)
  {}

  /** A halt begins exactly with a tick that gets to a verdict on an account whose drawdown is broken or whose NAV is not
      positive, and it is latched whether or not its flag is written. */
  lemma HaltBeginsExactly(cfg: Config, base: real, w: World, e: Event)
    requires CursorOk(w) && e.Tick? && !Halted(w.t)
    ensures var (next, d) := Check(cfg, base, w, e);
            && (Halted(next) <==> next.latch.dd) && (Halted(next) <==> d.ddHalted)
            && (Halted(next) <==>
                SeesNothing(cfg, base, w, e) || (Judges(cfg, base, w, e) && DrawdownBroken(cfg, base, w)))
  {
    CheckTracker(cfg, base, w, e);
    if FoldOf(cfg, w, e.r).Some? {
      var f := FoldOf(cfg, w, e.r).value;
      FoldKeepsHalts(cfg, w, e.r);
      FoldMovesBaselines(cfg, w, e.r);
      if Judges(cfg, base, w, e) {
        JudgedBegins(cfg, Tracker(f, w.t.latch), Nav(base, w), e.planned, w.clock, e.r.faults);
      } else if !SeesNothing(cfg, base, w, e) {
        UnreachedLatch(cfg, base, w, e, f);
      }
    }
  }

  lemma JudgedBegins(cfg: Config, t: Tracker, nav: real, planned: Planned, now: int, x: Faults)
    requires !Halted(t) && Began(cfg, t.flags, Some(nav), now, x)
    ensures var (next, d) := Evaluated(cfg, t, Some(nav), planned, now, x);
            && (Halted(next) <==> next.latch.dd) && (Halted(next) <==> d.ddHalted)
            && (Halted(next) <==> DrawdownBreached(DrawdownBase(cfg, t.flags), nav))
            && d.reason !in {Some(NavInvalid)}
            && (d.reason == Some(Unreadable) ==> !d.ddHalted && !next.latch.dd && !next.flags.ddHalt)
  {
    PreparedHalt(cfg, t, nav, now, x);
    ReadyBaselines(cfg, t, nav, now, x);
  }

  // --- what a restart loses ----------------------------------------------------------------------------------------

  /** The tick gets the flag of a halt that so far is only latched into the store. */
  predicate WritesHalt(cfg: Config, base: real, w: World, e: Event)
    requires CursorOk(w)
  {
    e.Tick? && Judges(cfg, base, w, e) && e.r.faults.retryDd
  }

  lemma UnwrittenStep(cfg: Config, base: real, w: World, e: Event)
    requires CursorOk(w) && w.t.latch.dd && !e.Restart? && !e.ClearDrawdown?
    ensures var next := Next(cfg, base, w, e).t;
            next.latch.dd && (next.flags.ddHalt <==> w.t.flags.ddHalt || WritesHalt(cfg, base, w, e))
  {
    if e.Tick? {
      HaltedTick(cfg, base, w, e);
      if FoldOf(cfg, w, e.r).Some? {
        var f := FoldOf(cfg, w, e.r).value;
        FoldKeepsHalts(cfg, w, e.r);
        if !Reaches(cfg, base, w, e) {
          UnreachedLatch(cfg, base, w, e, f);
        } else if Judges(cfg, base, w, e) {
          PreparedHalt(cfg, Tracker(f, w.t.latch), Nav(base, w), w.clock, e.r.faults);
        }
      }
    }
  }

  ghost predicate Written(cfg: Config, base: real, w: World, events: seq<Event>)
    requires CursorOk(w)
  {
    exists k :: 0 <= k < |events| && WritesHalt(cfg, base, Run(cfg, base, w, events[..k]), events[k])
  }

  lemma WrittenFront(cfg: Config, base: real, w: World, events: seq<Event>)
    requires CursorOk(w) && events != []
    ensures var n := |events| - 1;
            Written(cfg, base, w, events) <==>
            Written(cfg, base, w, events[..n]) || WritesHalt(cfg, base, Run(cfg, base, w, events[..n]), events[n])
  {
    var n := |events| - 1;
    assert forall k :: 0 <= k < n ==> events[..n][..k] == events[..k] && events[..n][k] == events[k];
    if Written(cfg, base, w, events[..n]) {
      var k :| 0 <= k < n && WritesHalt(cfg, base, Run(cfg, base, w, events[..n][..k]), events[..n][k]);
      assert WritesHalt(cfg, base, Run(cfg, base, w, events[..k]), events[k]);
    }
    if Written(cfg, base, w, events) {
      var k :| 0 <= k <= n && WritesHalt(cfg, base, Run(cfg, base, w, events[..k]), events[k]);
      if k < n { assert WritesHalt(cfg, base, Run(cfg, base, w, events[..n][..k]), events[..n][k]); }
    }
  }

  lemma {:induction false} FlagWrittenExactly(cfg: Config, base: real, w: World, events: seq<Event>)
    requires CursorOk(w) && w.t.latch.dd && !w.t.flags.ddHalt
    requires forall k :: 0 <= k < |events| ==> !events[k].Restart? && !events[k].ClearDrawdown?
    ensures var later := Run(cfg, base, w, events);
            later.t.latch.dd && (later.t.flags.ddHalt <==> Written(cfg, base, w, events))
  {
    if events == [] {
    } else {
      var n := |events| - 1;
      FlagWrittenExactly(cfg, base, w, events[..n]);
      UnwrittenStep(cfg, base, Run(cfg, base, w, events[..n]), events[n]);
      WrittenFront(cfg, base, w, events);
    }
  }

  /** A halt whose flag could not be written when it began survives a restart exactly when a tick before it judged the
      account and got the flag written. */
  lemma RestartKeepsExactly(cfg: Config, base: real, w: World, events: seq<Event>)
    requires CursorOk(w) && w.t.latch.dd && !w.t.flags.ddHalt
    requires forall k :: 0 <= k < |events| ==> !events[k].Restart? && !events[k].ClearDrawdown?
    ensures Halted(Next(cfg, base, Run(cfg, base, w, events), Restart).t) <==> Written(cfg, base, w, events)
  {
    FlagWrittenExactly(cfg, base, w, events);
  }

  // --- a stored halt and a blind tick ------------------------------------------------------------------------------

  /** Neither the balance nor the day's flag can be read; the drawdown flag, which is looked at after it, could be. */
  function Blind(): Reads {
    Reads(false, false, false, false, false, HaltReads(false, true),
          Faults(false, HaltReads(false, true), 0, 0, false, false, false, false, false, false))
  }

  function Inherited(): seq<Event> {
    [Tick(NoEntry, true, AllWell()), Earn(-600.0), Tick(NoEntry, true, AllWell()), Restart,
     Tick(NoEntry, true, AllWell())]
  }

  function HaltedStore(daily: Option<int>, dd: bool): Tracker {
    Tracker(Stored(0.0, 0).flags.(halt := Some(0), ddHalt := true, lastNav := Some(9400.0)), Latch(daily, dd))
  }

  function Lost(t: Tracker): World { World(t, [], -600.0, 0, Marks(0.0, -600.0, 0.0, 0.0, 0.0)) }

  lemma InheritedHalts()
    ensures Next(Example(), 10000.0, Opening(-600.0), Inherited()[2]) == Lost(HaltedStore(Some(0), true))
  {
    var start := Opening(-600.0);
    assert FoldOf(Example(), start, AllWell()) == Some(Stored(0.0, 0).flags);
    NextByParts(Example(), 10000.0, start, Inherited()[2], Stored(0.0, 0).flags, Some(9400.0));
  }

  lemma InheritedTick()
    ensures var w := Lost(HaltedStore(None, false));
            && Next(Example(), 10000.0, w, Inherited()[4]) == w
            && Check(Example(), 10000.0, w, Inherited()[4]).1.flattenRequired
  {
    var w := Lost(HaltedStore(None, false));
    assert FoldOf(Example(), w, AllWell()) == Some(w.t.flags);
    NextByParts(Example(), 10000.0, w, Inherited()[4], w.t.flags, Some(9400.0));
    HaltedTick(Example(), 10000.0, w, Inherited()[4]);
  }

  function Opening(gain: real): World { World(Stored(0.0, 0), [], gain, 0, Marks(0.0, 0.0, 0.0, 0.0, 0.0)) }

  lemma InheritedLoses()
    ensures Run(Example(), 10000.0, Fresh(0), Inherited()[..2]) == Opening(-600.0)
  {
    var cfg, base, events := Example(), 10000.0, Inherited();
    assert events[..1] == [events[0]] && [events[0]][..0] == [];
    ExampleOpens();
    RunStep(cfg, base, Fresh(0), events, 0);
    RunStep(cfg, base, Fresh(0), events, 1);
  }

  lemma InheritedRestarts()
    ensures Next(Example(), 10000.0, Lost(HaltedStore(Some(0), true)), Restart) == Lost(HaltedStore(None, false))
  {}

  lemma InheritedRun()
    ensures Run(Example(), 10000.0, Fresh(0), Inherited()[..4]) == Lost(HaltedStore(None, false))
  {
    var cfg, base, events := Example(), 10000.0, Inherited();
    InheritedLoses();
    RunStep(cfg, base, Fresh(0), events, 2);
    InheritedHalts();
    RunStep(cfg, base, Fresh(0), events, 3);
    InheritedRestarts();
  }

  /** The condition for the flatten is needed: a process that inherits a stored halt asks to flatten on a good tick, yet
      does not latch it, and asks for nothing on a next tick that can read neither the balance nor the day's flag, whether
      or not the drawdown flag can be read. */
  lemma StoredHaltMissesABlindTick()
    ensures var cfg, base := Example(), 10000.0;
            var before, w := Run(cfg, base, Fresh(0), Inherited()[..4]), Run(cfg, base, Fresh(0), Inherited());
            && Check(cfg, base, before, Inherited()[4]).1.flattenRequired
            && Halted(w.t) && !w.t.latch.dd
            && !Check(cfg, base, w, Tick(NoEntry, true, Blind())).1.flattenRequired
            && !Check(cfg, base, w, Tick(NoEntry, true, Blind())).1.entryAllowed
  {
    InheritedRun();
    InheritedTick();
    assert Inherited()[..|Inherited()| - 1] == Inherited()[..4];
    HaltedTick(Example(), 10000.0, Lost(HaltedStore(None, false)), Tick(NoEntry, true, Blind()));
  }

  // --- the daily halt ----------------------------------------------------------------------------------------------

  /** The day's halt stands, in memory, in the store or both, for the day it is. */
  predicate HaltedToday(cfg: Config, w: World) { DayHalted(cfg, w.t, w.clock) }

  /** What ends a day's halt: the end of the day, a release, and a restart that finds no flag. */
  predicate EndsDay(cfg: Config, w: World, e: Event) {
    || (e.Restart? && w.t.flags.halt != Some(cfg.day(w.clock)))
    || (e.ClearDaily? && e.written)
    || (e.Wait? && cfg.day(w.clock + e.seconds) != cfg.day(w.clock))
  }

  lemma JudgedDay(cfg: Config, t: Tracker, nav: real, planned: Planned, now: int, x: Faults)
    requires t.flags.e0.Some? && t.flags.transfers.Some? && DayHalted(cfg, t, now)
    ensures var (next, d) := Judged(cfg, t, nav, planned, now, x);
            && next.latch.daily == t.latch.daily
            && (next.flags.halt == Some(cfg.day(now)) <==>
                t.flags.halt == Some(cfg.day(now)) || (t.latch.daily == Some(cfg.day(now)) && x.retryDaily))
            && d.reason in {Some(DrawdownHalt), Some(DailyLossHalt)} && d.halted && !d.entryAllowed
            && (cfg.flatten ==> d.flattenRequired)
  {}

  /** An evaluation never ends a halted day, and allows no entry on it. */
  lemma EvaluatedDay(cfg: Config, t: Tracker, nav: Option<real>, planned: Planned, now: int, x: Faults)
    requires DayHalted(cfg, t, now) && (t.flags.day == Some(cfg.day(now)))
    ensures var (next, d) := Evaluated(cfg, t, nav, planned, now, x);
            && next.latch.daily == t.latch.daily && !d.entryAllowed
            && (next.flags.halt == Some(cfg.day(now)) <==>
                t.flags.halt == Some(cfg.day(now))
                || (Began(cfg, t.flags, nav, now, x) && t.latch.daily == Some(cfg.day(now)) && x.retryDaily))
            && (Began(cfg, t.flags, nav, now, x) ==>
                  d.reason in {Some(DrawdownHalt), Some(DailyLossHalt)} && (cfg.flatten ==> d.flattenRequired))
            && (nav.Some? && nav.value <= 0.0 ==> d.reason == Some(DrawdownHalt) && d.flattenRequired)
  {
    if Positive(nav) && x.readable && Sane(t.flags) {
      PreparedHalt(cfg, t, nav.value, now, x);
      var (t1, ready) := Prepared(cfg, t, nav.value, now, x);
      if ready { JudgedDay(cfg, t1, nav.value, planned, now, x); }
    }
  }

  /** A day that is halted gets no entry and stays halted; with flattening switched on the tick asks to flatten exactly
      when it can tell. */
  lemma HaltedDayTick(cfg: Config, base: real, w: World, e: Event)
    requires Sound(cfg, base, w) && e.Tick? && HaltedToday(cfg, w)
    ensures var (next, d) := Check(cfg, base, w, e);
            && next == Next(cfg, base, w, e).t && DayHalted(cfg, next, w.clock) && !d.entryAllowed
            && (w.t.latch.daily == Some(cfg.day(w.clock)) ==> next.latch.daily == w.t.latch.daily)
            && (cfg.flatten ==>
                  (d.flattenRequired <==>
                   w.t.latch.daily == Some(cfg.day(w.clock)) || w.t.latch.dd || e.r.halts.daily
                   || Reaches(cfg, base, w, e)))
  {
    CheckTracker(cfg, base, w, e);
    if FoldOf(cfg, w, e.r).Some? {
      var f := FoldOf(cfg, w, e.r).value;
      FoldKeepsHalts(cfg, w, e.r);
      EvaluatedDay(cfg, Tracker(f, w.t.latch), Seen(base, w, e), e.planned, w.clock, e.r.faults);
      if !Reaches(cfg, base, w, e) { UnreachedLatch(cfg, base, w, e, f); }
    }
  }

  lemma DayStep(cfg: Config, base: real, w: World, e: Event)
    requires Calendar(cfg) && Sound(cfg, base, w) && HaltedToday(cfg, w)
    ensures HaltedToday(cfg, Next(cfg, base, w, e)) <==> !EndsDay(cfg, w, e)
  {
    if e.Tick? {
      HaltedDayTick(cfg, base, w, e);
    } else if e.Wait? {
      assert cfg.day(w.clock) <= cfg.day(w.clock + e.seconds);
    }
  }

  ghost predicate DayNeverEnded(cfg: Config, base: real, w: World, events: seq<Event>)
    requires CursorOk(w)
  {
    forall k :: 0 <= k < |events| ==> !EndsDay(cfg, Run(cfg, base, w, events[..k]), events[k])
  }

  lemma DayNeverEndedFront(cfg: Config, base: real, w: World, events: seq<Event>)
    requires CursorOk(w) && events != [] && DayNeverEnded(cfg, base, w, events)
    ensures var n := |events| - 1;
            DayNeverEnded(cfg, base, w, events[..n]) && !EndsDay(cfg, Run(cfg, base, w, events[..n]), events[n])
  {
    var n := |events| - 1;
    forall k | 0 <= k < n ensures !EndsDay(cfg, Run(cfg, base, w, events[..n][..k]), events[..n][k]) {
      assert events[..n][..k] == events[..k];
      assert !EndsDay(cfg, Run(cfg, base, w, events[..k]), events[k]);
    }
    assert !EndsDay(cfg, Run(cfg, base, w, events[..n]), events[n]);
  }

  lemma {:induction false} SoundRun(cfg: Config, base: real, w: World, events: seq<Event>)
    requires Calendar(cfg) && Sound(cfg, base, w)
    ensures Sound(cfg, base, Run(cfg, base, w, events))
  {
    if events != [] {
      SoundRun(cfg, base, w, events[..|events| - 1]);
      NextKeeps(cfg, base, Run(cfg, base, w, events[..|events| - 1]), events[|events| - 1]);
    }
  }

  /** A day's halt lasts until an event ends it, and after an event it is gone exactly when that event ends it. */
  lemma {:induction false} DayHaltStands(cfg: Config, base: real, w: World, events: seq<Event>)
    requires Calendar(cfg) && Sound(cfg, base, w) && HaltedToday(cfg, w) && DayNeverEnded(cfg, base, w, events)
    ensures var later := Run(cfg, base, w, events);
            && Sound(cfg, base, later) && HaltedToday(cfg, later)
            && forall e :: HaltedToday(cfg, Next(cfg, base, later, e)) <==> !EndsDay(cfg, later, e)
  {
    SoundRun(cfg, base, w, events);
    var later := Run(cfg, base, w, events);
    if events != [] {
      var n := |events| - 1;
      DayNeverEndedFront(cfg, base, w, events);
      DayHaltStands(cfg, base, w, events[..n]);
      assert HaltedToday(cfg, Next(cfg, base, Run(cfg, base, w, events[..n]), events[n]));
    }
    forall e ensures HaltedToday(cfg, Next(cfg, base, later, e)) <==> !EndsDay(cfg, later, e) {
      DayStep(cfg, base, later, e);
    }
  }

  /** From a day's halt on, until an event ends it, no tick of this process or of a later one allows an entry; with
      flattening switched on a tick asks to flatten exactly when a latch is set, the day's flag can be read, or it gets as
      far as judging the account. */
  lemma DailyHaltIsSticky(cfg: Config, base: real, w: World, events: seq<Event>, e: Event)
    requires Calendar(cfg) && Sound(cfg, base, w) && HaltedToday(cfg, w) && e.Tick?
    requires DayNeverEnded(cfg, base, w, events)
    ensures var later := Run(cfg, base, w, events);
            var (_, d) := Check(cfg, base, later, e);
            && HaltedToday(cfg, later) && !d.entryAllowed
            && (cfg.flatten ==>
                  (d.flattenRequired <==>
                   later.t.latch.daily == Some(cfg.day(later.clock)) || later.t.latch.dd || e.r.halts.daily
                   || Reaches(cfg, base, later, e)))
  {
    DayHaltStands(cfg, base, w, events);
    HaltedDayTick(cfg, base, Run(cfg, base, w, events), e);
  }

  /** The loss since an opening, corrected for the funds moved, is at or beyond the day's limit. */
  predicate AtLimit(cfg: Config, e0: real, funds: real, nav: real, planned: Planned) {
    !planned.Unusable? && nav - e0 - funds <= -(cfg.fraction * e0)
  }

  /** Opening NAV and funds of the day over the flags `f`, which a roll replaces first when they are of another day. */
  function OpeningOver(cfg: Config, f: Flags, nav: real, now: int): (real, real) {
    if f.day == Some(cfg.day(now)) then (OrZero(f.e0), OrZero(f.transfers))
    else match Baseline(f, now)
         case Some(last) => (last, 0.0)
         case None => (nav, 0.0)
  }

  /** Known before the tick: the loss since the day's opening is at its limit, funds moved since the cursor apart. A new day
      opens on the last saved NAV if that is fresh and positive with those funds, otherwise on the NAV itself. */
  predicate DayBroken(cfg: Config, base: real, w: World, planned: Planned)
    requires CursorOk(w)
  {
    var f, nav := w.t.flags, Nav(base, w);
    if f.day == Some(cfg.day(w.clock)) then AtLimit(cfg, OrZero(f.e0), OrZero(f.transfers) + MovedSince(w), nav, planned)
    else match Baseline(f, w.clock)
         case Some(last) =>
           if last + MovedSince(w) > 0.0 then AtLimit(cfg, last + MovedSince(w), 0.0, nav, planned)
           else AtLimit(cfg, nav, 0.0, nav, planned)
         case None => AtLimit(cfg, nav, 0.0, nav, planned)
  }

  lemma JudgedDayBegins(cfg: Config, t: Tracker, nav: real, planned: Planned, now: int, x: Faults)
    requires t.flags.e0.Some? && t.flags.transfers.Some? && !DayHalted(cfg, t, now)
    ensures var (next, d) := Judged(cfg, t, nav, planned, now, x);
            && (DayHalted(cfg, next, now) <==> next.latch.daily == Some(cfg.day(now)))
            && (DayHalted(cfg, next, now) <==> d.halted)
            && (DayHalted(cfg, next, now) <==> AtLimit(cfg, t.flags.e0.value, t.flags.transfers.value, nav, planned))
            && (d.reason in {Some(NavInvalid), Some(Unreadable)} ==> !d.halted)
  {}

  lemma PreparedNotHalted(cfg: Config, t: Tracker, nav: real, now: int, x: Faults)
    requires Sane(t.flags) && nav > 0.0 && !DayHalted(cfg, t, now)
    ensures !DayHalted(cfg, Prepared(cfg, t, nav, now, x).0, now)
  {}

  lemma EvaluatedDayBegins(cfg: Config, t: Tracker, nav: Option<real>, planned: Planned, now: int, x: Faults)
    requires !DayHalted(cfg, t, now)
    ensures var (next, d) := Evaluated(cfg, t, nav, planned, now, x);
            && (DayHalted(cfg, next, now) <==> next.latch.daily == Some(cfg.day(now)))
            && (DayHalted(cfg, next, now) <==> d.halted)
            && (DayHalted(cfg, next, now) <==>
                Began(cfg, t.flags, nav, now, x) &&
                var (e0, funds) := OpeningOver(cfg, t.flags, nav.value, now);
                AtLimit(cfg, e0, funds, nav.value, planned))
            && (d.reason in {Some(NavInvalid), Some(Unreadable)} ==> !d.halted)
  {
    if Positive(nav) && x.readable && Sane(t.flags) {
      PreparedHalt(cfg, t, nav.value, now, x);
      PreparedNotHalted(cfg, t, nav.value, now, x);
      var (t1, ready) := Prepared(cfg, t, nav.value, now, x);
      if ready {
        ReadyBaselines(cfg, t, nav.value, now, x);
        JudgedDayBegins(cfg, t1, nav.value, planned, now, x);
      }
    }
  }

  /** A day's halt begins exactly with a tick that gets to a verdict on a day whose loss is at its limit, and it is latched
      whether or not its flag is written. */
  lemma DayHaltBeginsExactly(cfg: Config, base: real, w: World, e: Event)
    requires CursorOk(w) && e.Tick? && !HaltedToday(cfg, w)
    ensures var (next, d) := Check(cfg, base, w, e);
            && (DayHalted(cfg, next, w.clock) <==> next.latch.daily == Some(cfg.day(w.clock)))
            && (DayHalted(cfg, next, w.clock) <==> d.halted)
            && (DayHalted(cfg, next, w.clock) <==>
                Judges(cfg, base, w, e) && DayBroken(cfg, base, w, e.planned))
  {
    CheckTracker(cfg, base, w, e);
    if FoldOf(cfg, w, e.r).Some? {
      FoldKeepsHalts(cfg, w, e.r);
      FoldMovesBaselines(cfg, w, e.r);
      EvaluatedDayBegins(cfg, Tracker(FoldOf(cfg, w, e.r).value, w.t.latch), Seen(base, w, e), e.planned, w.clock,
                         e.r.faults);
    }
  }

  /** The tick gets the flag of a day's halt that so far is only latched into the store. */
  predicate WritesDay(cfg: Config, base: real, w: World, e: Event)
    requires CursorOk(w)
  {
    e.Tick? && Judges(cfg, base, w, e) && e.r.faults.retryDaily
  }

  ghost predicate DayWritten(cfg: Config, base: real, w: World, events: seq<Event>)
    requires CursorOk(w)
  {
    exists k :: 0 <= k < |events| && WritesDay(cfg, base, Run(cfg, base, w, events[..k]), events[k])
  }

  lemma DayWrittenFront(cfg: Config, base: real, w: World, events: seq<Event>)
    requires CursorOk(w) && events != []
    ensures var n := |events| - 1;
            DayWritten(cfg, base, w, events) <==>
            DayWritten(cfg, base, w, events[..n]) || WritesDay(cfg, base, Run(cfg, base, w, events[..n]), events[n])
  {
    var n := |events| - 1;
    assert forall k :: 0 <= k < n ==> events[..n][..k] == events[..k] && events[..n][k] == events[k];
    if DayWritten(cfg, base, w, events[..n]) {
      var k :| 0 <= k < n && WritesDay(cfg, base, Run(cfg, base, w, events[..n][..k]), events[..n][k]);
      assert WritesDay(cfg, base, Run(cfg, base, w, events[..k]), events[k]);
    }
    if DayWritten(cfg, base, w, events) {
      var k :| 0 <= k <= n && WritesDay(cfg, base, Run(cfg, base, w, events[..k]), events[k]);
      if k < n { assert WritesDay(cfg, base, Run(cfg, base, w, events[..n][..k]), events[..n][k]); }
    }
  }

  lemma UnwrittenDayStep(cfg: Config, base: real, w: World, e: Event)
    requires Calendar(cfg) && Sound(cfg, base, w) && w.t.latch.daily == Some(cfg.day(w.clock))
    requires !EndsDay(cfg, w, e) && !e.Restart?
    ensures var next := Next(cfg, base, w, e);
            && next.t.latch.daily == Some(cfg.day(next.clock))
            && (next.t.flags.halt == Some(cfg.day(next.clock)) <==>
                w.t.flags.halt == Some(cfg.day(w.clock)) || WritesDay(cfg, base, w, e))
  {
    if e.Tick? {
      CheckTracker(cfg, base, w, e);
      if FoldOf(cfg, w, e.r).Some? {
        FoldKeepsHalts(cfg, w, e.r);
        EvaluatedDay(cfg, Tracker(FoldOf(cfg, w, e.r).value, w.t.latch), Seen(base, w, e), e.planned, w.clock, e.r.faults);
      }
    }
  }

  lemma {:induction false} DayFlagWrittenExactly(cfg: Config, base: real, w: World, events: seq<Event>)
    requires Calendar(cfg) && Sound(cfg, base, w) && w.t.latch.daily == Some(cfg.day(w.clock))
    requires w.t.flags.halt != Some(cfg.day(w.clock)) && DayNeverEnded(cfg, base, w, events)
    requires forall k :: 0 <= k < |events| ==> !events[k].Restart?
    ensures var later := Run(cfg, base, w, events);
            && Sound(cfg, base, later) && later.t.latch.daily == Some(cfg.day(later.clock))
            && (later.t.flags.halt == Some(cfg.day(later.clock)) <==> DayWritten(cfg, base, w, events))
  {
    SoundRun(cfg, base, w, events);
    if events == [] {
    } else {
      var n := |events| - 1;
      DayNeverEndedFront(cfg, base, w, events);
      DayFlagWrittenExactly(cfg, base, w, events[..n]);
      UnwrittenDayStep(cfg, base, Run(cfg, base, w, events[..n]), events[n]);
      DayWrittenFront(cfg, base, w, events);
    }
  }

  /** A day's halt whose flag could not be written when it began survives a restart exactly when a tick before it judged
      the account and got the flag written. */
  lemma RestartKeepsDayExactly(cfg: Config, base: real, w: World, events: seq<Event>)
    requires Calendar(cfg) && Sound(cfg, base, w) && w.t.latch.daily == Some(cfg.day(w.clock))
    requires w.t.flags.halt != Some(cfg.day(w.clock)) && DayNeverEnded(cfg, base, w, events)
    requires forall k :: 0 <= k < |events| ==> !events[k].Restart?
    ensures HaltedToday(cfg, Next(cfg, base, Run(cfg, base, w, events), Restart)) <==> DayWritten(cfg, base, w, events)
  {
    DayFlagWrittenExactly(cfg, base, w, events);
  }
}
