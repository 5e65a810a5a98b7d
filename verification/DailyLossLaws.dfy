/** What the loss limit promises over whole runs (execution/daily_loss_limit.py). */
module DailyLossLaws {
  import opened Maybe
  import opened DailyLoss
  import opened DailyLossRun

  // --- the day's P&L -----------------------------------------------------------------------------------------------

  lemma StatusReadsTheFlags(cfg: Config, t: Tracker, nav: Option<real>, planned: Planned, now: int, x: Faults)
    requires Evaluated(cfg, t, nav, planned, now, x).1.daily.Some?
    ensures var (next, decision) := Evaluated(cfg, t, nav, planned, now, x);
            && Positive(nav) && next.flags.day == Some(cfg.day(now))
            && next.flags.e0.Some? && next.flags.transfers.Some? && next.flags.cursor == t.flags.cursor
            && next.flags.ddStart.Some? == (cfg.override.None? || t.flags.ddStart.Some?)
            && decision.daily.value ==
               StatusOfDay(next.flags.e0.value, nav.value, next.flags.transfers.value, planned, cfg.fraction)
  {
    PreparedFrame(cfg, t, nav.value, now, x);
    JudgedFrame(cfg, Prepared(cfg, t, nav.value, now, x).0, nav.value, planned, now, x);
  }

  lemma TickReadsTheFlags(cfg: Config, base: real, w: World, e: Event)
    requires Sound(cfg, base, w) && e.Tick? && Check(cfg, base, w, e).1.daily.Some?
    ensures var f := Next(cfg, base, w, e).t.flags;
            && e.finite && Nav(base, w) > 0.0 && f.cursor == Some(|w.history|) && f.day == Some(cfg.day(w.clock))
            && f.e0.Some? && f.transfers.Some? && (cfg.override.None? ==> f.ddStart.Some?)
            && Check(cfg, base, w, e).1.daily.value ==
               StatusOfDay(f.e0.value, Nav(base, w), f.transfers.value, e.planned, cfg.fraction)
  {
    CheckTracker(cfg, base, w, e);
    FoldKeeps(cfg, base, w, e.r);
    var f := FoldOf(cfg, w, e.r).value;
    StatusReadsTheFlags(cfg, Tracker(f, w.t.latch), Seen(base, w, e), e.planned, w.clock, e.r.faults);
  }

  lemma PnlOf(cfg: Config, base: real, w: World, e: Event)
    requires Calendar(cfg) && Sound(cfg, base, w) && e.Tick? && Check(cfg, base, w, e).1.daily.Some?
    ensures var m := Next(cfg, base, w, e).marks;
            Check(cfg, base, w, e).1.daily.value.pnl == w.gain - m.day + m.strayDay
    ensures cfg.override.None? ==>
              var next := Next(cfg, base, w, e);
              && DrawdownBase(cfg, next.t.flags).Some?
              && DrawdownBase(cfg, next.t.flags).value - Nav(base, w) == next.marks.drawdown - w.gain
  {
    TickReadsTheFlags(cfg, base, w, e);
    NextKeeps(cfg, base, w, e);
  }

  // --- which funds a baseline misses -------------------------------------------------------------------------------

  /** The tick folds funds into a saved NAV of an earlier day. */
  predicate Corrects(cfg: Config, w: World, e: Event)
    requires CursorOk(w)
  {
    && e.Tick? && FoldOf(cfg, w, e.r).Some?
    && w.t.flags.day != Some(cfg.day(w.clock)) && Baseline(w.t.flags, w.clock).Some?
  }

  /** Net funds an event folds without correcting the saved NAV for them. */
  function FoldedAside(cfg: Config, w: World, e: Event): real
    requires CursorOk(w)
  {
    if e.Tick? && FoldOf(cfg, w, e.r).Some? && !Corrects(cfg, w, e) then MovedSince(w) else 0.0
  }

  /** The tick saves its NAV. */
  predicate Saves(cfg: Config, base: real, w: World, e: Event)
    requires CursorOk(w)
  {
    && e.Tick? && FoldOf(cfg, w, e.r).Some?
    && Began(cfg, FoldOf(cfg, w, e.r).value, Seen(base, w, e), w.clock, e.r.faults) && e.r.faults.lastNav
  }

  /** The tick opens its day. */
  predicate Rolls(cfg: Config, base: real, w: World, e: Event)
    requires CursorOk(w)
  {
    && e.Tick? && FoldOf(cfg, w, e.r).Some?
    && FoldOf(cfg, w, e.r).value.day != Some(cfg.day(w.clock))
    && Reached(cfg, FoldOf(cfg, w, e.r).value, Seen(base, w, e), w.clock, e.r.faults)
  }

  /** The roll opens the day on the saved NAV, not on the one it sees. */
  predicate RollsOnSaved(cfg: Config, base: real, w: World, e: Event)
    requires CursorOk(w)
  {
    Rolls(cfg, base, w, e) && Baseline(FoldOf(cfg, w, e.r).value, w.clock).Some?
  }

  function LastSave(cfg: Config, base: real, clock: int, events: seq<Event>): (r: Option<nat>)
    ensures r.Some? ==> r.value < |events|
  {
    if events == [] then None
    else
      var n := |events| - 1;
      if Saves(cfg, base, Run(cfg, base, Fresh(clock), events[..n]), events[n]) then Some(n)
      else LastSave(cfg, base, clock, events[..n])
  }

  function LastRoll(cfg: Config, base: real, clock: int, events: seq<Event>): (r: Option<nat>)
    ensures r.Some? ==> r.value < |events|
  {
    if events == [] then None
    else
      var n := |events| - 1;
      if Rolls(cfg, base, Run(cfg, base, Fresh(clock), events[..n]), events[n]) then Some(n)
      else LastRoll(cfg, base, clock, events[..n])
  }

  /** Net funds folded aside by the events from `start` on. */
  function Aside(cfg: Config, base: real, clock: int, events: seq<Event>, start: nat): real {
    if |events| <= start then 0.0
    else
      var n := |events| - 1;
      Aside(cfg, base, clock, events[..n], start)
      + FoldedAside(cfg, Run(cfg, base, Fresh(clock), events[..n]), events[n])
  }

  function AsideSinceSave(cfg: Config, base: real, clock: int, events: seq<Event>): real {
    match LastSave(cfg, base, clock, events)
    case None => Aside(cfg, base, clock, events, 0)
    case Some(s) => Aside(cfg, base, clock, events, s + 1)
  }

  function GainAtSave(cfg: Config, base: real, clock: int, events: seq<Event>): real {
    match LastSave(cfg, base, clock, events)
    case None => 0.0
    case Some(s) => Run(cfg, base, Fresh(clock), events[..s]).gain
  }

  /** Net funds folded between the last saved NAV and the roll that opened the current day on it. */
  function Missed(cfg: Config, base: real, clock: int, events: seq<Event>): real {
    match LastRoll(cfg, base, clock, events)
    case None => 0.0
    case Some(r) =>
      if RollsOnSaved(cfg, base, Run(cfg, base, Fresh(clock), events[..r]), events[r])
      then AsideSinceSave(cfg, base, clock, events[..r]) else 0.0
  }

  /** The trading result at the observation the current day was opened on: the last saved NAV, or the roll's own. */
  function GainAtBaseline(cfg: Config, base: real, clock: int, events: seq<Event>): real {
    match LastRoll(cfg, base, clock, events)
    case None => 0.0
    case Some(r) =>
      var w := Run(cfg, base, Fresh(clock), events[..r]);
      if RollsOnSaved(cfg, base, w, events[r]) then GainAtSave(cfg, base, clock, events[..r]) else w.gain
  }

  lemma AsideTail(cfg: Config, base: real, clock: int, events: seq<Event>, start: nat)
    requires start < |events|
    ensures var n := |events| - 1;
            Aside(cfg, base, clock, events, start) == Aside(cfg, base, clock, events[..n], start)
            + FoldedAside(cfg, Run(cfg, base, Fresh(clock), events[..n]), events[n])
  {}

  lemma SaveTail(cfg: Config, base: real, clock: int, events: seq<Event>)
    requires events != []
    ensures var n := |events| - 1;
            var w := Run(cfg, base, Fresh(clock), events[..n]);
            if Saves(cfg, base, w, events[n]) then
              AsideSinceSave(cfg, base, clock, events) == 0.0 && GainAtSave(cfg, base, clock, events) == w.gain
            else
              && AsideSinceSave(cfg, base, clock, events)
                 == AsideSinceSave(cfg, base, clock, events[..n]) + FoldedAside(cfg, w, events[n])
              && GainAtSave(cfg, base, clock, events) == GainAtSave(cfg, base, clock, events[..n])
  {
    var n := |events| - 1;
    if !Saves(cfg, base, Run(cfg, base, Fresh(clock), events[..n]), events[n]) {
      var s := LastSave(cfg, base, clock, events[..n]);
      AsideTail(cfg, base, clock, events, if s.Some? then s.value + 1 else 0);
      if s.Some? { assert events[..n][..s.value] == events[..s.value]; }
    }
  }

  lemma {:induction false} SaveMarks(cfg: Config, base: real, clock: int, events: seq<Event>)
    ensures var m := Run(cfg, base, Fresh(clock), events).marks;
            m.stray == AsideSinceSave(cfg, base, clock, events) && m.last == GainAtSave(cfg, base, clock, events)
  {
    if events == [] {
    } else {
      var n := |events| - 1;
      SaveMarks(cfg, base, clock, events[..n]);
      SaveMarksStep(cfg, base, Run(cfg, base, Fresh(clock), events[..n]), events[n]);
      SaveTail(cfg, base, clock, events);
    }
  }

  lemma SaveMarksStep(cfg: Config, base: real, w: World, e: Event)
    requires CursorOk(w)
    ensures var m := Next(cfg, base, w, e).marks;
            if Saves(cfg, base, w, e) then m.stray == 0.0 && m.last == w.gain
            else m.stray == w.marks.stray + FoldedAside(cfg, w, e) && m.last == w.marks.last
  {}

  lemma RollMarksStep(cfg: Config, base: real, w: World, e: Event)
    requires CursorOk(w)
    ensures var m := Next(cfg, base, w, e).marks;
            && (!Rolls(cfg, base, w, e) ==> m.day == w.marks.day && m.strayDay == w.marks.strayDay)
            && (RollsOnSaved(cfg, base, w, e) ==> m.day == w.marks.last && m.strayDay == w.marks.stray)
            && (Rolls(cfg, base, w, e) && !RollsOnSaved(cfg, base, w, e) ==> m.day == w.gain && m.strayDay == 0.0)
  {
    if RollsOnSaved(cfg, base, w, e) { SavedIsCorrected(cfg, w, e); }
  }

  /** A saved NAV a roll opens on was corrected by the fold of that same tick. */
  lemma SavedIsCorrected(cfg: Config, w: World, e: Event)
    requires CursorOk(w) && e.Tick? && FoldOf(cfg, w, e.r).Some?
    requires FoldOf(cfg, w, e.r).value.day != Some(cfg.day(w.clock))
    requires Baseline(FoldOf(cfg, w, e.r).value, w.clock).Some?
    ensures Corrects(cfg, w, e)
  {}

  lemma RollTail(cfg: Config, base: real, clock: int, events: seq<Event>)
    requires events != []
    ensures var n := |events| - 1;
            var w := Run(cfg, base, Fresh(clock), events[..n]);
            if !Rolls(cfg, base, w, events[n]) then
              && Missed(cfg, base, clock, events) == Missed(cfg, base, clock, events[..n])
              && GainAtBaseline(cfg, base, clock, events) == GainAtBaseline(cfg, base, clock, events[..n])
            else if RollsOnSaved(cfg, base, w, events[n]) then
              && Missed(cfg, base, clock, events) == AsideSinceSave(cfg, base, clock, events[..n])
              && GainAtBaseline(cfg, base, clock, events) == GainAtSave(cfg, base, clock, events[..n])
            else Missed(cfg, base, clock, events) == 0.0 && GainAtBaseline(cfg, base, clock, events) == w.gain
  {
    var n := |events| - 1;
    if !Rolls(cfg, base, Run(cfg, base, Fresh(clock), events[..n]), events[n]) {
      var r := LastRoll(cfg, base, clock, events[..n]);
      if r.Some? { assert events[..n][..r.value] == events[..r.value]; }
    }
  }

  lemma {:induction false} RollMarks(cfg: Config, base: real, clock: int, events: seq<Event>)
    ensures var m := Run(cfg, base, Fresh(clock), events).marks;
            m.strayDay == Missed(cfg, base, clock, events) && m.day == GainAtBaseline(cfg, base, clock, events)
  {
    if events == [] {
    } else {
      var n := |events| - 1;
      RollMarks(cfg, base, clock, events[..n]);
      SaveMarks(cfg, base, clock, events[..n]);
      RollMarksStep(cfg, base, Run(cfg, base, Fresh(clock), events[..n]), events[n]);
      RollTail(cfg, base, clock, events);
    }
  }

  /** Whatever funds move and whichever writes fail: the P&L a tick judges is the trading result since the observation
      its day was opened on, plus the net funds folded between the last saved NAV and the roll that used it. It is the
      pure trading result exactly when no net funds were. */
  lemma PnlIsTradingGain(cfg: Config, base: real, clock: int, events: seq<Event>, e: Event)
    requires Calendar(cfg) && e.Tick?
    requires Check(cfg, base, Run(cfg, base, Fresh(clock), events), e).1.daily.Some?
    ensures var w, all := Run(cfg, base, Fresh(clock), events), events + [e];
            var pnl := Check(cfg, base, w, e).1.daily.value.pnl;
            var trading := w.gain - GainAtBaseline(cfg, base, clock, all);
            && pnl == trading + Missed(cfg, base, clock, all)
            && (pnl == trading <==> Missed(cfg, base, clock, all) == 0.0)
  {
    var all := events + [e];
    assert all[..|all| - 1] == events;
    RunKeeps(cfg, base, clock, events);
    RollMarks(cfg, base, clock, all);
    PnlOf(cfg, base, Run(cfg, base, Fresh(clock), events), e);
  }

  lemma CursorStep(cfg: Config, base: real, w: World, e: Event)
    requires CursorOk(w) && !Corrects(cfg, w, e) && w.t.flags.cursor.Some?
    ensures var next := Next(cfg, base, w, e);
            && next.t.flags.cursor.Some? && CursorOk(next) && w.history <= next.history
            && Moved(next.history, next.t.flags.cursor.value)
               == Moved(w.history, w.t.flags.cursor.value) + FoldedAside(cfg, w, e)
  {
    if e.Move? {
      MovedAppend(w.history, e.funds, w.t.flags.cursor.value);
    } else if e.Tick? && FoldOf(cfg, w, e.r).Some? {
      FoldCursor(cfg, w, e.r);
      EvaluatedCursor(cfg, Tracker(FoldOf(cfg, w, e.r).value, w.t.latch), Seen(base, w, e), e.planned, w.clock,
                      e.r.faults);
    }
  }

  lemma {:induction false} MovedPrefix(history: History, longer: History, upto: nat)
    requires history <= longer && upto <= |history|
    ensures Moved(longer, upto) == Moved(history, upto)
  {
    if upto > 0 { MovedPrefix(history, longer, upto - 1); }
  }

  lemma SaveHasCursor(cfg: Config, base: real, w: World, e: Event)
    requires CursorOk(w) && Saves(cfg, base, w, e)
    ensures Next(cfg, base, w, e).t.flags.cursor.Some?
  {
    var f := FoldOf(cfg, w, e.r).value;
    FoldCursor(cfg, w, e.r);
    EvaluatedCursor(cfg, Tracker(f, w.t.latch), Seen(base, w, e), e.planned, w.clock, e.r.faults);
    CheckTracker(cfg, base, w, e);
  }

  /** While no tick corrects the saved NAV, the funds folded aside since a save are what moved between the cursor of the
      save and the cursor now. */
  lemma {:induction false} AsideIsMoved(cfg: Config, base: real, clock: int, events: seq<Event>, s: nat)
    requires s < |events| && Saves(cfg, base, Run(cfg, base, Fresh(clock), events[..s]), events[s])
    requires forall k :: s < k < |events| ==> !Corrects(cfg, Run(cfg, base, Fresh(clock), events[..k]), events[k])
    ensures var saved, w := Run(cfg, base, Fresh(clock), events[..s + 1]), Run(cfg, base, Fresh(clock), events);
            && saved.t.flags.cursor.Some? && w.t.flags.cursor.Some? && saved.history <= w.history
            && Aside(cfg, base, clock, events, s + 1)
               == Moved(w.history, w.t.flags.cursor.value) - Moved(w.history, saved.t.flags.cursor.value)
  {
    var n := |events| - 1;
    var before := Run(cfg, base, Fresh(clock), events[..n]);
    if n == s {
      assert events[..s + 1] == events;
      SaveHasCursor(cfg, base, before, events[n]);
    } else {
      assert events[..n][..s] == events[..s] && events[..n][..s + 1] == events[..s + 1];
      forall k | s < k < n ensures !Corrects(cfg, Run(cfg, base, Fresh(clock), events[..n][..k]), events[..n][k]) {
        assert events[..n][..k] == events[..k];
      }
      AsideIsMoved(cfg, base, clock, events[..n], s);
      CursorStep(cfg, base, before, events[n]);
      AsideTail(cfg, base, clock, events, s + 1);
      var saved := Run(cfg, base, Fresh(clock), events[..s + 1]);
      MovedPrefix(before.history, Run(cfg, base, Fresh(clock), events).history, saved.t.flags.cursor.value);
    }
  }

  // --- the drawdown ------------------------------------------------------------------------------------------------

  /** The tick sets the drawdown's baseline to the NAV it sees. */
  predicate Starts(cfg: Config, base: real, w: World, e: Event)
    requires CursorOk(w)
  {
    && e.Tick? && FoldOf(cfg, w, e.r).Some? && cfg.override.None? && FoldOf(cfg, w, e.r).value.ddStart.None?
    && Began(cfg, FoldOf(cfg, w, e.r).value, Seen(base, w, e), w.clock, e.r.faults)
  }

  /** The trading result when the drawdown's baseline was last set. */
  function GainAtStart(cfg: Config, base: real, clock: int, events: seq<Event>): real {
    if events == [] then 0.0
    else
      var n := |events| - 1;
      var w := Run(cfg, base, Fresh(clock), events[..n]);
      if Starts(cfg, base, w, events[n]) then w.gain else GainAtStart(cfg, base, clock, events[..n])
  }

  lemma StartMarksStep(cfg: Config, base: real, w: World, e: Event)
    requires CursorOk(w)
    ensures Next(cfg, base, w, e).marks.drawdown == if Starts(cfg, base, w, e) then w.gain else w.marks.drawdown
  {}

  lemma {:induction false} StartMarks(cfg: Config, base: real, clock: int, events: seq<Event>)
    ensures Run(cfg, base, Fresh(clock), events).marks.drawdown == GainAtStart(cfg, base, clock, events)
  {
    if events == [] {
    } else {
      var n := |events| - 1;
      StartMarks(cfg, base, clock, events[..n]);
      StartMarksStep(cfg, base, Run(cfg, base, Fresh(clock), events[..n]), events[n]);
    }
  }

  /** The drawdown a tick judges is the trading loss since its baseline was set, whatever funds moved and whichever writes
      failed. */
  lemma DrawdownIsTradingLoss(cfg: Config, base: real, clock: int, events: seq<Event>, e: Event)
    requires Calendar(cfg) && e.Tick? && cfg.override.None?
    requires Check(cfg, base, Run(cfg, base, Fresh(clock), events), e).1.daily.Some?
    ensures var w, all := Run(cfg, base, Fresh(clock), events), events + [e];
            var start := DrawdownBase(cfg, Run(cfg, base, Fresh(clock), all).t.flags);
            start.Some? && start.value - Nav(base, w) == GainAtStart(cfg, base, clock, all) - w.gain
  {
    var all := events + [e];
    assert all[..|all| - 1] == events;
    RunKeeps(cfg, base, clock, events);
    StartMarks(cfg, base, clock, all);
    PnlOf(cfg, base, Run(cfg, base, Fresh(clock), events), e);
  }

  /** A tick that folds funds also saves its NAV. */
  predicate SavesWhatItFolds(cfg: Config, base: real, w: World, e: Event)
    requires CursorOk(w)
  {
    e.Tick? && FoldOf(cfg, w, e.r).Some? && MovedSince(w) != 0.0 ==>
      Began(cfg, FoldOf(cfg, w, e.r).value, Seen(base, w, e), w.clock, e.r.faults) && e.r.faults.lastNav
  }

  predicate AlwaysSaves(cfg: Config, base: real, clock: int, events: seq<Event>) {
    forall k :: 0 <= k < |events| ==> SavesWhatItFolds(cfg, base, Run(cfg, base, Fresh(clock), events[..k]), events[k])
  }

  lemma {:induction false} SavedFundsNeverStray(cfg: Config, base: real, clock: int, events: seq<Event>)
    requires AlwaysSaves(cfg, base, clock, events)
    ensures var m := Run(cfg, base, Fresh(clock), events).marks;
            m.stray == 0.0 && m.strayDay == 0.0
  {
    if events == [] {
    } else {
      var n := |events| - 1;
      forall k | 0 <= k < n
        ensures SavesWhatItFolds(cfg, base, Run(cfg, base, Fresh(clock), events[..n][..k]), events[..n][k])
      {
        assert events[..n][..k] == events[..k];
        assert SavesWhatItFolds(cfg, base, Run(cfg, base, Fresh(clock), events[..k]), events[k]);
      }
      SavedFundsNeverStray(cfg, base, clock, events[..n]);
      assert SavesWhatItFolds(cfg, base, Run(cfg, base, Fresh(clock), events[..n]), events[n]);
      StepSaves(cfg, base, Run(cfg, base, Fresh(clock), events[..n]), events[n]);
    }
  }

  /** No day is ever opened on a NAV that misses funds when every tick that folds funds also saves its NAV. */
  lemma NothingMissedWhenSaved(cfg: Config, base: real, clock: int, events: seq<Event>)
    requires AlwaysSaves(cfg, base, clock, events)
    ensures Missed(cfg, base, clock, events) == 0.0
  {
    SavedFundsNeverStray(cfg, base, clock, events);
    RollMarks(cfg, base, clock, events);
  }

  lemma StepSaves(cfg: Config, base: real, w: World, e: Event)
    requires CursorOk(w) && w.marks.stray == 0.0 && w.marks.strayDay == 0.0 && SavesWhatItFolds(cfg, base, w, e)
    ensures var m := Next(cfg, base, w, e).marks;
            m.stray == 0.0 && m.strayDay == 0.0
  {
    if e.Tick? && FoldOf(cfg, w, e.r).Some? {
      var f, nav := FoldOf(cfg, w, e.r).value, Seen(base, w, e);
      if MovedSince(w) != 0.0 {
        FoldCursor(cfg, w, e.r);
      }
    }
  }

  lemma FoldCursor(cfg: Config, w: World, r: Reads)
    requires CursorOk(w) && FoldOf(cfg, w, r).Some?
    ensures FoldOf(cfg, w, r).value.day == w.t.flags.day && FoldOf(cfg, w, r).value.cursor == Some(|w.history|)
  {}

  // --- a save that is lost -----------------------------------------------------------------------------------------

  function Example(): Config { Config(0.02, true, None, (n: int) => n / 86400) }

  function AllWell(): Reads {
    Reads(true, true, true, true, true, HaltReads(true, true),
          Faults(true, HaltReads(true, true), 4, 2, true, true, true, true, true, true))
  }

  function SaveLost(): Reads { AllWell().(faults := AllWell().faults.(lastNav := false)) }

  /** A withdrawal of 300 on day 0 whose tick does not get its NAV saved. */
  function LostSave(): seq<Event> {
    [Tick(NoEntry, true, AllWell()), Move(Some(-300.0)), Tick(NoEntry, true, SaveLost()), Wait(86400)]
  }

  function Stored(transfers: real, cursor: nat): Tracker {
    Tracker(Flags(Some(0), Some(10000.0), Some(transfers), None, Some(10000.0), false,
                  if cursor == 0 then None else Some(transfers), Some(10000.0), Some(0), Some(cursor)),
            Latch(None, false))
  }

  function Withdrawn(clock: int): World {
    World(Stored(-300.0, 1), [Some(-300.0)], 0.0, clock, Marks(0.0, 0.0, 0.0, -300.0, 0.0))
  }

  /** The first summary only sets the cursor. */
  function FirstFlags(): Flags { Fresh(0).t.flags.(cursor := Some(0)) }

  lemma ExampleFirst()
    ensures FoldOf(Example(), Fresh(0), AllWell()) == Some(FirstFlags())
    ensures Evaluated(Example(), Tracker(FirstFlags(), Latch(None, false)), Some(10000.0), NoEntry, 0,
                      AllWell().faults).0 == Stored(0.0, 0)
  {}

  lemma ExampleOpens()
    ensures Next(Example(), 10000.0, Fresh(0), LostSave()[0]) ==
            World(Stored(0.0, 0), [], 0.0, 0, Marks(0.0, 0.0, 0.0, 0.0, 0.0))
  {
    ExampleFirst();
    NextByParts(Example(), 10000.0, Fresh(0), LostSave()[0], FirstFlags(), Some(10000.0));
  }

  function Drawn(): World {
    World(Stored(0.0, 0), [Some(-300.0)], 0.0, 0, Marks(0.0, 0.0, 0.0, 0.0, 0.0))
  }

  lemma ExampleWithdraws()
    ensures var start := World(Stored(0.0, 0), [], 0.0, 0, Marks(0.0, 0.0, 0.0, 0.0, 0.0));
            Next(Example(), 10000.0, start, LostSave()[1]) == Drawn()
  {
    assert [] + [Some(-300.0)] == [Some(-300.0)];
  }

  lemma ExampleFolds()
    ensures FoldOf(Example(), Drawn(), SaveLost()) == Some(Stored(-300.0, 1).flags)
    ensures MovedSince(Drawn()) == -300.0
  {
    assert Moved([Some(-300.0)], 0) == 0.0 && Moved([Some(-300.0)], 1) == -300.0;
  }

  lemma ExampleEvaluates()
    ensures Evaluated(Example(), Tracker(Stored(-300.0, 1).flags, Latch(None, false)), Some(9700.0), NoEntry, 0,
                      SaveLost().faults).0 == Stored(-300.0, 1)
  {}

  lemma ExampleMarks()
    ensures Marked(Example(), Drawn(), Stored(-300.0, 1).flags, Some(9700.0), SaveLost().faults) ==
            Marks(0.0, 0.0, 0.0, -300.0, 0.0)
  {
    ExampleFolds();
  }

  lemma NextByParts(cfg: Config, base: real, w: World, e: Event, f: Flags, nav: Option<real>)
    requires CursorOk(w) && e.Tick? && FoldOf(cfg, w, e.r) == Some(f) && nav == Seen(base, w, e)
    ensures Next(cfg, base, w, e) ==
            w.(t := Evaluated(cfg, Tracker(f, w.t.latch), nav, e.planned, w.clock, e.r.faults).0,
               marks := Marked(cfg, w, f, nav, e.r.faults))
  {
    CheckTracker(cfg, base, w, e);
  }

  lemma ExampleNav()
    ensures Seen(10000.0, Drawn(), LostSave()[2]) == Some(9700.0)
  {
    assert Moved([Some(-300.0)], 0) == 0.0 && Moved([Some(-300.0)], 1) == -300.0;
  }

  lemma ExampleLosesSave()
    ensures Next(Example(), 10000.0, Drawn(), LostSave()[2]) == Withdrawn(0)
  {
    ExampleNav();
    ExampleFolds();
    ExampleEvaluates();
    ExampleMarks();
    NextByParts(Example(), 10000.0, Drawn(), LostSave()[2], Stored(-300.0, 1).flags, Some(9700.0));
  }

  lemma ExampleHalts()
    ensures var (_, decision) := Check(Example(), 10000.0, Withdrawn(86400), Tick(NoEntry, true, AllWell()));
            decision.halted && decision.flattenRequired && decision.daily.Some? && decision.daily.value.pnl == -300.0
  {
    assert Moved([Some(-300.0)], 0) == 0.0 && Moved([Some(-300.0)], 1) == -300.0;
  }

  /** The condition is needed: the withdrawal is folded once into day 0, but day 1 opens on a NAV from before it, so
      day 1 halts on a loss that was never made. */
  lemma LostSaveHaltsWithoutALoss()
    ensures var w := Run(Example(), 10000.0, Fresh(0), LostSave());
            var (_, decision) := Check(Example(), 10000.0, w, Tick(NoEntry, true, AllWell()));
            && w.gain == 0.0 && w.t.flags.cursor == Some(1)
            && decision.halted && decision.flattenRequired
            && decision.daily.Some? && decision.daily.value.pnl == -300.0
  {
    var cfg, base, events := Example(), 10000.0, LostSave();
    assert events[..3][..2] == events[..2] && events[..2][..1] == events[..1] && events[..1][..0] == [];
    ExampleOpens();
    assert Run(cfg, base, Fresh(0), events[..1]) == Next(cfg, base, Fresh(0), events[0]);
    ExampleWithdraws();
    assert Run(cfg, base, Fresh(0), events[..2]) == Drawn();
    ExampleLosesSave();
    assert Run(cfg, base, Fresh(0), events[..3]) == Withdrawn(0);
    assert Run(cfg, base, Fresh(0), events) == Withdrawn(86400);
    ExampleHalts();
  }

  // --- entries and the budget --------------------------------------------------------------------------------------

  /** No tick that asks to flatten allows an entry. */
  lemma FlattenRefusesEntries(cfg: Config, t: Tracker, history: History, id: nat, nav: Option<real>, planned: Planned,
                              now: int, r: Reads)
    requires id <= |history| && (t.flags.cursor.Some? ==> t.flags.cursor.value <= id)
    ensures var (_, decision) := Checked(cfg, t, history, id, nav, planned, now, r);
            decision.flattenRequired || decision.halted || decision.ddHalted ==> !decision.entryAllowed
  {}

  lemma EntryIsJudged(cfg: Config, base: real, w: World, e: Event)
    requires Sound(cfg, base, w) && e.Tick? && e.planned.Amount? && Check(cfg, base, w, e).1.entryAllowed
    ensures var (_, decision) := Check(cfg, base, w, e);
            && decision.daily.Some? && decision.daily.value.reason.None?
            && decision.daily.value.pnl - e.planned.risk >= -decision.daily.value.limit && e.planned.risk > 0.0
  {
    CheckTracker(cfg, base, w, e);
  }

  predicate AboveFloor(cfg: Config, f: Flags, nav: real) {
    f.ddStart.Some? && DrawdownBase(cfg, f).Some? && nav > (1.0 - DRAWDOWN_FRACTION) * DrawdownBase(cfg, f).value
  }

  lemma JudgedAboveFloor(cfg: Config, t: Tracker, nav: real, planned: Planned, now: int, x: Faults)
    requires t.flags.e0.Some? && t.flags.transfers.Some? && t.flags.ddStart.Some? && cfg.override.None?
    requires Judged(cfg, t, nav, planned, now, x).1.entryAllowed
    ensures AboveFloor(cfg, Judged(cfg, t, nav, planned, now, x).0.flags, nav)
  {
    JudgedFrame(cfg, t, nav, planned, now, x);
  }

  lemma EvaluatedAboveFloor(cfg: Config, t: Tracker, nav: Option<real>, planned: Planned, now: int, x: Faults)
    requires Evaluated(cfg, t, nav, planned, now, x).1.entryAllowed && cfg.override.None?
    ensures nav.Some? && AboveFloor(cfg, Evaluated(cfg, t, nav, planned, now, x).0.flags, nav.value)
  {
    JudgedAboveFloor(cfg, Prepared(cfg, t, nav.value, now, x).0, nav.value, planned, now, x);
  }

  lemma EntryAboveFloor(cfg: Config, base: real, w: World, e: Event)
    requires Sound(cfg, base, w) && e.Tick? && Check(cfg, base, w, e).1.entryAllowed
    ensures AboveDrawdownFloor(cfg, base, w, Next(cfg, base, w, e))
  {
    CheckTracker(cfg, base, w, e);
    if cfg.override.None? {
      EvaluatedAboveFloor(cfg, Tracker(FoldOf(cfg, w, e.r).value, w.t.latch), Seen(base, w, e), e.planned, w.clock,
                          e.r.faults);
    }
  }

  ghost predicate AboveDrawdownFloor(cfg: Config, base: real, w: World, next: World) {
    cfg.override.None? ==> AboveFloor(cfg, next.t.flags, Nav(base, w))
  }

  /** An entry is only allowed while no limit is broken. Losing its whole planned risk on top of the trading result since
      the day was opened, and of the funds its opening missed, leaves what is judged within the limit; without a
      start-equity override the NAV is above the drawdown's floor. */
  lemma AllowedEntryStaysWithinTheLimit(cfg: Config, base: real, clock: int, events: seq<Event>, e: Event)
    requires Calendar(cfg) && e.Tick? && e.planned.Amount?
    requires Check(cfg, base, Run(cfg, base, Fresh(clock), events), e).1.entryAllowed
    ensures var w, all := Run(cfg, base, Fresh(clock), events), events + [e];
            var daily := Check(cfg, base, w, e).1.daily;
            && daily.Some? && e.planned.risk > 0.0
            && w.gain - e.planned.risk - GainAtBaseline(cfg, base, clock, all) + Missed(cfg, base, clock, all)
               >= -daily.value.limit
            && AboveDrawdownFloor(cfg, base, w, Run(cfg, base, Fresh(clock), all))
  {
    var all := events + [e];
    assert all[..|all| - 1] == events;
    RunKeeps(cfg, base, clock, events);
    EntryIsJudged(cfg, base, Run(cfg, base, Fresh(clock), events), e);
    EntryAboveFloor(cfg, base, Run(cfg, base, Fresh(clock), events), e);
    PnlIsTradingGain(cfg, base, clock, events, e);
  }

  /** A tick on a day already opened never changes its opening NAV, and neither does anything else. */
  lemma OpeningNavIsFixed(cfg: Config, base: real, w: World, e: Event)
    requires Calendar(cfg) && Sound(cfg, base, w) && w.t.flags.day == Some(cfg.day(w.clock))
    ensures var next := Next(cfg, base, w, e);
            next.t.flags.e0 == w.t.flags.e0 && next.t.flags.day == w.t.flags.day
  {
    if e.Tick? {
      CheckTracker(cfg, base, w, e);
      if FoldOf(cfg, w, e.r).Some? {
        FoldKeeps(cfg, base, w, e.r);
        var t := Tracker(FoldOf(cfg, w, e.r).value, w.t.latch);
        var nav, x := Nav(base, w), e.r.faults;
        if e.finite && nav > 0.0 && x.readable {
          var (t1, ready) := Prepared(cfg, t, nav, w.clock, x);
          if ready { JudgedFrame(cfg, t1, nav, e.planned, w.clock, x); }
        }
      }
    }
  }
}
