/** Whole runs of the loss limit: what its P&L measures when funds move and writes fail, and how long a halt lasts. */
module DailyLossRun {
  import opened Maybe
  import opened DailyLoss

  /** Trading result seen so far at three observations, and the funds the last saved NAV does not contain. */
  datatype Marks = Marks(day: real, last: real, drawdown: real, stray: real, strayDay: real)

  datatype World = World(t: Tracker, history: History, gain: real, clock: int, marks: Marks)

  datatype Event =
    | Earn(amount: real)
    | Move(funds: Option<real>)
    | Wait(seconds: nat)
    | Tick(planned: Planned, finite: bool, r: Reads)
    | Restart
    | ClearDrawdown(writes: nat)
    | ClearDaily(written: bool)

  function Funds(w: World): real { Moved(w.history, |w.history|) }

  function Nav(base: real, w: World): real { base + w.gain + Funds(w) }

  function Seen(base: real, w: World, e: Event): Option<real>
    requires e.Tick?
  {
    if e.finite then Some(Nav(base, w)) else None
  }

  function MovedSince(w: World): real
    requires CursorOk(w)
  {
    if w.t.flags.cursor.Some? then Funds(w) - Moved(w.history, w.t.flags.cursor.value) else 0.0
  }

  predicate CursorOk(w: World) { w.t.flags.cursor.Some? ==> w.t.flags.cursor.value <= |w.history| }

  /** The tick got as far as a rolled day, and as far as saving its NAV. */
  predicate Reached(cfg: Config, f: Flags, nav: Option<real>, now: int, x: Faults) {
    && Positive(nav) && x.readable && Sane(f)
    && (f.day != Some(cfg.day(now)) ==> x.roll >= 4)
  }

  predicate Began(cfg: Config, f: Flags, nav: Option<real>, now: int, x: Faults) {
    Positive(nav) && x.readable && Sane(f) && Prepared(cfg, Tracker(f, Latch(None, false)), nav.value, now, x).1
  }

  function MarkFold(cfg: Config, w: World): Marks
    requires CursorOk(w)
  {
    var adjusted := w.t.flags.day != Some(cfg.day(w.clock)) && Baseline(w.t.flags, w.clock).Some?;
    if adjusted then w.marks else w.marks.(stray := w.marks.stray + MovedSince(w))
  }

  function MarkRoll(cfg: Config, f: Flags, gain: real, now: int, m: Marks): Marks {
    if f.day == Some(cfg.day(now)) then m
    else if Baseline(f, now).Some? then m.(day := m.last, strayDay := m.stray)
    else m.(day := gain, strayDay := 0.0)
  }

  function MarkStart(cfg: Config, f: Flags, gain: real, m: Marks): Marks {
    if cfg.override.None? && f.ddStart.None? then m.(drawdown := gain) else m
  }

  /** The bookkeeping of one tick over the flags `f` after the fold. */
  function Marked(cfg: Config, w: World, f: Flags, nav: Option<real>, x: Faults): Marks
    requires CursorOk(w)
  {
    var m1 := MarkFold(cfg, w);
    var m2 := if Reached(cfg, f, nav, w.clock, x) then MarkRoll(cfg, f, w.gain, w.clock, m1) else m1;
    if !Began(cfg, f, nav, w.clock, x) then m2
    else
      var m3 := MarkStart(cfg, f, w.gain, m2);
      if x.lastNav then m3.(last := w.gain, stray := 0.0) else m3
  }

  function Check(cfg: Config, base: real, w: World, e: Event): (Tracker, Decision)
    requires CursorOk(w) && e.Tick?
  {
    Checked(cfg, w.t, w.history, |w.history|, Seen(base, w, e), e.planned, w.clock, e.r)
  }

  function FoldOf(cfg: Config, w: World, r: Reads): Option<Flags>
    requires CursorOk(w)
  {
    if r.balance then Folded(cfg, w.t.flags, w.history, |w.history|, w.clock, r) else None
  }

  function Next(cfg: Config, base: real, w: World, e: Event): World
    requires CursorOk(w)
  {
    match e
    case Earn(amount) => w.(gain := w.gain + amount)
    case Move(funds) => w.(history := w.history + [funds])
    case Wait(seconds) => w.(clock := w.clock + seconds)
    case Restart => w.(t := w.t.(latch := Latch(None, false)))
    case ClearDrawdown(writes) => w.(t := DrawdownCleared(w.t, writes))
    case ClearDaily(written) => w.(t := DailyCleared(w.t, written))
    case Tick(planned, finite, r) =>
      var folded := FoldOf(cfg, w, r);
      w.(t := Check(cfg, base, w, e).0,
         marks := if folded.Some? then Marked(cfg, w, folded.value, Seen(base, w, e), r.faults) else w.marks)
  }

  lemma MovedAppend(history: History, item: Option<real>, upto: nat)
    requires upto <= |history|
    ensures Moved(history + [item], upto) == Moved(history, upto)
  {
    if upto > 0 { MovedAppend(history, item, upto - 1); }
  }

  lemma JudgedFrame(cfg: Config, t: Tracker, nav: real, planned: Planned, now: int, x: Faults)
    requires t.flags.e0.Some? && t.flags.transfers.Some?
    ensures var f := Judged(cfg, t, nav, planned, now, x).0.flags;
            && f.cursor == t.flags.cursor && f.day == t.flags.day && f.e0 == t.flags.e0
            && f.transfers == t.flags.transfers && f.ddStart == t.flags.ddStart && f.ddTransfers == t.flags.ddTransfers
            && f.lastNav == (if x.lastNav then Some(nav) else t.flags.lastNav)
            && f.lastAt == (if x.lastNav && x.lastAt then Some(now) else t.flags.lastAt)
  {}

  lemma RolledFrame(cfg: Config, t: Tracker, nav: real, now: int, writes: nat)
    requires Sane(t.flags) && nav > 0.0
    ensures var t1 := Rolled(cfg, t, nav, now, writes);
            && Sane(t1.flags) && t1.flags.cursor == t.flags.cursor
            && t1.flags.lastNav == t.flags.lastNav && t1.flags.lastAt == t.flags.lastAt
            && t1.flags.ddHalt == t.flags.ddHalt && t1.latch.dd == t.latch.dd
            && t1.flags == Rolled(cfg, Tracker(t.flags, Latch(None, false)), nav, now, writes).flags
  {}

  lemma PreparedFrame(cfg: Config, t: Tracker, nav: real, now: int, x: Faults)
    requires Sane(t.flags) && nav > 0.0
    ensures var t1 := Prepared(cfg, t, nav, now, x).0;
            && Sane(t1.flags) && t1.flags.cursor == t.flags.cursor
            && t1.flags.lastNav == t.flags.lastNav && t1.flags.lastAt == t.flags.lastAt
            && t1.flags.ddHalt == t.flags.ddHalt && t1.latch.dd == t.latch.dd
  {
    if t.flags.day != Some(cfg.day(now)) { RolledFrame(cfg, t, nav, now, x.roll); }
  }

  lemma ReadyIgnoresLatch(cfg: Config, t: Tracker, nav: real, now: int, x: Faults)
    requires Sane(t.flags) && nav > 0.0
    ensures Prepared(cfg, t, nav, now, x).1 == Prepared(cfg, Tracker(t.flags, Latch(None, false)), nav, now, x).1
  {
    if t.flags.day != Some(cfg.day(now)) { RolledFrame(cfg, t, nav, now, x.roll); }
  }

  lemma EvaluatedCursor(cfg: Config, t: Tracker, nav: Option<real>, planned: Planned, now: int, x: Faults)
    ensures Evaluated(cfg, t, nav, planned, now, x).0.flags.cursor == t.flags.cursor
  {
    if Positive(nav) && x.readable && Sane(t.flags) {
      PreparedFrame(cfg, t, nav.value, now, x);
      var (t1, ready) := Prepared(cfg, t, nav.value, now, x);
      if ready { JudgedFrame(cfg, t1, nav.value, planned, now, x); }
    }
  }

  lemma NextCursor(cfg: Config, base: real, w: World, e: Event)
    requires CursorOk(w)
    ensures CursorOk(Next(cfg, base, w, e))
  {
    if e.Tick? && FoldOf(cfg, w, e.r).Some? {
      var f := FoldOf(cfg, w, e.r).value;
      EvaluatedCursor(cfg, Tracker(f, w.t.latch), Seen(base, w, e), e.planned, w.clock, e.r.faults);
    }
  }

  function Run(cfg: Config, base: real, w: World, events: seq<Event>): (r: World)
    requires CursorOk(w)
    ensures CursorOk(r)
  {
    if events == [] then w
    else
      var before := Run(cfg, base, w, events[..|events| - 1]);
      NextCursor(cfg, base, before, events[|events| - 1]);
      Next(cfg, base, before, events[|events| - 1])
  }

  function Fresh(clock: int): World {
    World(Tracker(Flags(None, None, None, None, None, false, None, None, None, None), Latch(None, false)),
          [], 0.0, clock, Marks(0.0, 0.0, 0.0, 0.0, 0.0))
  }

  // --- what every run keeps ----------------------------------------------------------------------------------------

  ghost predicate Calendar(cfg: Config) {
    forall x: int, y: int :: x <= y ==> cfg.day(x) <= cfg.day(y)
  }

  /** The day's baseline, the pending baseline and the drawdown baseline, each corrected for exactly the funds moved up
      to the cursor. */
  ghost predicate Books(cfg: Config, base: real, f: Flags, history: History, clock: int, m: Marks) {
    && (f.cursor.Some? ==> f.cursor.value <= |history|)
    && (f.cursor.None? ==> f.day.None? && f.lastNav.None? && f.ddStart.None?)
    && (f.cursor.Some? ==>
          var moved := base + Moved(history, f.cursor.value);
          && (f.day == Some(cfg.day(clock)) && f.e0.Some? && f.transfers.Some? ==>
                f.e0.value + f.transfers.value == moved + m.day - m.strayDay)
          && (f.lastNav.Some? ==> f.lastNav.value == moved + m.last - m.stray)
          && (f.ddStart.Some? && cfg.override.None? ==>
                f.ddStart.value + OrZero(f.ddTransfers) == moved + m.drawdown))
  }

  ghost predicate Ordered(cfg: Config, t: Tracker, clock: int) {
    && Sane(t.flags)
    && (t.flags.day.Some? ==> t.flags.day.value <= cfg.day(clock))
    && (t.flags.halt.Some? ==> t.flags.halt.value <= cfg.day(clock))
    && (t.latch.daily.Some? ==> t.latch.daily.value <= cfg.day(clock))
    && (DayHalted(cfg, t, clock) ==> t.flags.day == Some(cfg.day(clock)))
  }

  predicate DayHalted(cfg: Config, t: Tracker, clock: int) {
    t.flags.halt == Some(cfg.day(clock)) || t.latch.daily == Some(cfg.day(clock))
  }

  ghost predicate Sound(cfg: Config, base: real, w: World) {
    Books(cfg, base, w.t.flags, w.history, w.clock, w.marks) && Ordered(cfg, w.t, w.clock)
  }

  /** Cursor and adjustment in one transaction keep every baseline corrected for the funds up to the cursor. */
  lemma TransferKeeps(cfg: Config, base: real, f: Flags, history: History, id: nat, now: int, m: Marks)
    requires Books(cfg, base, f, history, now, m) && Sane(f) && f.cursor.Some? && f.cursor.value <= id == |history|
    ensures var net := Moved(history, id) - Moved(history, f.cursor.value);
            var adjusted := f.day != Some(cfg.day(now)) && Baseline(f, now).Some?;
            var next := WithTransfer(cfg, f, net, id, now, true);
            && next.Some?
            && Books(cfg, base, next.value, history, now, if adjusted then m else m.(stray := m.stray + net))
  {}

  lemma FoldFrame(cfg: Config, w: World, r: Reads)
    requires CursorOk(w) && Sane(w.t.flags) && FoldOf(cfg, w, r).Some?
    ensures var f := FoldOf(cfg, w, r).value;
            && f.cursor == Some(|w.history|) && Sane(f) && f.day == w.t.flags.day && f.halt == w.t.flags.halt
            && f.ddHalt == w.t.flags.ddHalt && f.e0 == w.t.flags.e0 && f.ddStart == w.t.flags.ddStart
  {}

  lemma FoldBooks(cfg: Config, base: real, w: World, r: Reads)
    requires Sound(cfg, base, w) && FoldOf(cfg, w, r).Some?
    ensures Books(cfg, base, FoldOf(cfg, w, r).value, w.history, w.clock, MarkFold(cfg, w))
  {
    if w.t.flags.cursor.Some? {
      TransferKeeps(cfg, base, w.t.flags, w.history, |w.history|, w.clock, w.marks);
    }
  }

  lemma FoldKeeps(cfg: Config, base: real, w: World, r: Reads)
    requires Sound(cfg, base, w) && FoldOf(cfg, w, r).Some?
    ensures var f := FoldOf(cfg, w, r).value;
            && Books(cfg, base, f, w.history, w.clock, MarkFold(cfg, w)) && f.cursor == Some(|w.history|)
            && Sane(f) && f.day == w.t.flags.day && f.halt == w.t.flags.halt && f.ddHalt == w.t.flags.ddHalt
            && f.e0 == w.t.flags.e0
  {
    FoldFrame(cfg, w, r);
    FoldBooks(cfg, base, w, r);
  }

  lemma RollKeeps(cfg: Config, base: real, w: World, t: Tracker, m: Marks, writes: nat)
    requires Books(cfg, base, t.flags, w.history, w.clock, m) && t.flags.cursor == Some(|w.history|) && Sane(t.flags)
    requires Nav(base, w) > 0.0 && t.flags.day != Some(cfg.day(w.clock))
    ensures var t1 := Rolled(cfg, t, Nav(base, w), w.clock, writes);
            Sane(t1.flags) && Books(cfg, base, t1.flags, w.history, w.clock,
                                    if writes >= 4 then MarkRoll(cfg, t.flags, w.gain, w.clock, m) else m)
  {}

  lemma StartKeeps(cfg: Config, base: real, w: World, f: Flags, m: Marks, writes: nat)
    requires Books(cfg, base, f, w.history, w.clock, m) && f.cursor == Some(|w.history|) && Sane(f)
    requires Nav(base, w) > 0.0
    ensures var (f2, ok) := Started(cfg, f, Nav(base, w), writes);
            Sane(f2) && Books(cfg, base, f2, w.history, w.clock, if ok then MarkStart(cfg, f, w.gain, m) else m)
  {}

  lemma SaveKeeps(cfg: Config, base: real, w: World, t: Tracker, m: Marks, planned: Planned, x: Faults)
    requires Books(cfg, base, t.flags, w.history, w.clock, m) && t.flags.cursor == Some(|w.history|) && Sane(t.flags)
    requires t.flags.e0.Some? && t.flags.transfers.Some?
    ensures var t2 := Judged(cfg, t, Nav(base, w), planned, w.clock, x).0;
            Sane(t2.flags) && Books(cfg, base, t2.flags, w.history, w.clock,
                                    if x.lastNav then m.(last := w.gain, stray := 0.0) else m)
  {
    JudgedFrame(cfg, t, Nav(base, w), planned, w.clock, x);
  }

  lemma PreparedKeeps(cfg: Config, base: real, w: World, t: Tracker, m: Marks, x: Faults)
    requires Books(cfg, base, t.flags, w.history, w.clock, m) && t.flags.cursor == Some(|w.history|) && Sane(t.flags)
    requires Nav(base, w) > 0.0
    ensures var (t1, ready) := Prepared(cfg, t, Nav(base, w), w.clock, x);
            var reached := t.flags.day != Some(cfg.day(w.clock)) ==> x.roll >= 4;
            var m2 := if reached then MarkRoll(cfg, t.flags, w.gain, w.clock, m) else m;
            Sane(t1.flags) && t1.flags.cursor == t.flags.cursor &&
            Books(cfg, base, t1.flags, w.history, w.clock, if ready then MarkStart(cfg, t.flags, w.gain, m2) else m2)
  {
    var nav := Nav(base, w);
    var rolls := t.flags.day != Some(cfg.day(w.clock));
    var t1 := if rolls then Rolled(cfg, t, nav, w.clock, x.roll) else t;
    if rolls { RollKeeps(cfg, base, w, t, m, x.roll); }
    if !rolls || x.roll >= 4 {
      StartKeeps(cfg, base, w, t1.flags, MarkRoll(cfg, t.flags, w.gain, w.clock, m), x.start);
    }
  }

  lemma UnreachedKeeps(cfg: Config, base: real, w: World, t: Tracker, e: Event)
    requires e.Tick? && CursorOk(w) && Sane(t.flags)
    requires Books(cfg, base, t.flags, w.history, w.clock, MarkFold(cfg, w))
    requires !e.finite || Nav(base, w) <= 0.0 || !e.r.faults.readable
    ensures var f := Evaluated(cfg, t, Seen(base, w, e), e.planned, w.clock, e.r.faults).0.flags;
            Sane(f) && Books(cfg, base, f, w.history, w.clock,
                             Marked(cfg, w, t.flags, Seen(base, w, e), e.r.faults))
  {
    assert Marked(cfg, w, t.flags, Seen(base, w, e), e.r.faults) == MarkFold(cfg, w);
  }

  lemma MarkedWhenReady(cfg: Config, base: real, w: World, t: Tracker, e: Event)
    requires e.Tick? && CursorOk(w) && Sane(t.flags) && e.finite && Nav(base, w) > 0.0 && e.r.faults.readable
    ensures var x := e.r.faults;
            var reached := t.flags.day != Some(cfg.day(w.clock)) ==> x.roll >= 4;
            var m1 := MarkFold(cfg, w);
            var m2 := if reached then MarkRoll(cfg, t.flags, w.gain, w.clock, m1) else m1;
            var m3 := MarkStart(cfg, t.flags, w.gain, m2);
            Marked(cfg, w, t.flags, Seen(base, w, e), x) ==
            if !Prepared(cfg, t, Nav(base, w), w.clock, x).1 then m2
            else if x.lastNav then m3.(last := w.gain, stray := 0.0) else m3
  {
    ReadyIgnoresLatch(cfg, t, Nav(base, w), w.clock, e.r.faults);
  }

  lemma EvaluatedKeeps(cfg: Config, base: real, w: World, t: Tracker, e: Event)
    requires e.Tick? && CursorOk(w) && t.flags.cursor == Some(|w.history|) && Sane(t.flags)
    requires Books(cfg, base, t.flags, w.history, w.clock, MarkFold(cfg, w))
    requires e.finite && Nav(base, w) > 0.0 && e.r.faults.readable
    ensures var f := Evaluated(cfg, t, Seen(base, w, e), e.planned, w.clock, e.r.faults).0.flags;
            Sane(f) && Books(cfg, base, f, w.history, w.clock,
                             Marked(cfg, w, t.flags, Seen(base, w, e), e.r.faults))
  {
    var x, nav := e.r.faults, Nav(base, w);
    MarkedWhenReady(cfg, base, w, t, e);
    PreparedKeeps(cfg, base, w, t, MarkFold(cfg, w), x);
    var (t1, ready) := Prepared(cfg, t, nav, w.clock, x);
    if ready {
      SaveKeeps(cfg, base, w, t1, MarkStart(cfg, t.flags, w.gain, MarkRoll(cfg, t.flags, w.gain, w.clock, MarkFold(cfg, w))),
                e.planned, x);
    }
  }

  lemma CheckTracker(cfg: Config, base: real, w: World, e: Event)
    requires CursorOk(w) && e.Tick?
    ensures Check(cfg, base, w, e).0 ==
            match FoldOf(cfg, w, e.r)
            case None => w.t
            case Some(f) =>
              Evaluated(cfg, Tracker(f, w.t.latch), Seen(base, w, e), e.planned, w.clock, e.r.faults).0
  {}

  lemma TickKeepsBooks(cfg: Config, base: real, w: World, e: Event)
    requires Sound(cfg, base, w) && e.Tick?
    ensures var next := Next(cfg, base, w, e);
            Sane(next.t.flags) && Books(cfg, base, next.t.flags, w.history, w.clock, next.marks)
  {
    CheckTracker(cfg, base, w, e);
    if FoldOf(cfg, w, e.r).Some? {
      FoldKeeps(cfg, base, w, e.r);
      var t := Tracker(FoldOf(cfg, w, e.r).value, w.t.latch);
      if e.finite && Nav(base, w) > 0.0 && e.r.faults.readable {
        EvaluatedKeeps(cfg, base, w, t, e);
      } else {
        UnreachedKeeps(cfg, base, w, t, e);
      }
    }
  }

  lemma RolledOrdered(cfg: Config, t: Tracker, nav: real, now: int, writes: nat)
    requires Ordered(cfg, t, now) && nav > 0.0 && t.flags.day != Some(cfg.day(now))
    ensures Ordered(cfg, Rolled(cfg, t, nav, now, writes), now)
  {}

  lemma PreparedOrdered(cfg: Config, t: Tracker, nav: real, now: int, x: Faults)
    requires Calendar(cfg) && Ordered(cfg, t, now) && nav > 0.0
    ensures Ordered(cfg, Prepared(cfg, t, nav, now, x).0, now)
  {
    if t.flags.day != Some(cfg.day(now)) { RolledOrdered(cfg, t, nav, now, x.roll); }
  }

  lemma JudgedOrdered(cfg: Config, t: Tracker, nav: real, planned: Planned, now: int, x: Faults)
    requires Ordered(cfg, t, now) && t.flags.day == Some(cfg.day(now)) && nav > 0.0
    ensures Ordered(cfg, Judged(cfg, t, nav, planned, now, x).0, now)
  {
    JudgedFrame(cfg, t, nav, planned, now, x);
  }

  lemma EvaluatedOrdered(cfg: Config, t: Tracker, nav: Option<real>, planned: Planned, now: int, x: Faults)
    requires Calendar(cfg) && Ordered(cfg, t, now)
    ensures Ordered(cfg, Evaluated(cfg, t, nav, planned, now, x).0, now)
  {
    if Positive(nav) && x.readable {
      PreparedOrdered(cfg, t, nav.value, now, x);
      var (t1, ready) := Prepared(cfg, t, nav.value, now, x);
      if ready { JudgedOrdered(cfg, t1, nav.value, planned, now, x); }
    }
  }

  lemma TickKeepsOrder(cfg: Config, base: real, w: World, e: Event)
    requires Calendar(cfg) && Sound(cfg, base, w) && e.Tick?
    ensures Ordered(cfg, Next(cfg, base, w, e).t, w.clock)
  {
    CheckTracker(cfg, base, w, e);
    if FoldOf(cfg, w, e.r).Some? {
      FoldKeeps(cfg, base, w, e.r);
      EvaluatedOrdered(cfg, Tracker(FoldOf(cfg, w, e.r).value, w.t.latch), Seen(base, w, e), e.planned, w.clock,
                       e.r.faults);
    }
  }

  lemma WaitKeeps(cfg: Config, base: real, w: World, seconds: nat)
    requires Calendar(cfg) && Sound(cfg, base, w)
    ensures Sound(cfg, base, Next(cfg, base, w, Wait(seconds)))
  {
    assert cfg.day(w.clock) <= cfg.day(w.clock + seconds);
  }

  lemma MoveKeeps(cfg: Config, base: real, w: World, funds: Option<real>)
    requires Sound(cfg, base, w)
    ensures Sound(cfg, base, Next(cfg, base, w, Move(funds)))
  {
    if w.t.flags.cursor.Some? { MovedAppend(w.history, funds, w.t.flags.cursor.value); }
  }

  lemma RestartKeeps(cfg: Config, base: real, w: World)
    requires Sound(cfg, base, w)
    ensures Sound(cfg, base, Next(cfg, base, w, Restart))
  {}

  lemma BooksWithoutDrawdown(cfg: Config, base: real, f: Flags, g: Flags, history: History, clock: int, m: Marks)
    requires Books(cfg, base, f, history, clock, m)
    requires g == f.(ddHalt := g.ddHalt, ddStart := g.ddStart, ddTransfers := g.ddTransfers)
    requires g.ddStart.None? || (g.ddStart == f.ddStart && g.ddTransfers == f.ddTransfers)
    ensures Books(cfg, base, g, history, clock, m)
  {}

  lemma ClearDrawdownKeeps(cfg: Config, base: real, w: World, writes: nat)
    requires Sound(cfg, base, w)
    ensures Sound(cfg, base, Next(cfg, base, w, ClearDrawdown(writes)))
  {
    var t := DrawdownCleared(w.t, writes);
    BooksWithoutDrawdown(cfg, base, w.t.flags, t.flags, w.history, w.clock, w.marks);
    assert Ordered(cfg, t, w.clock);
  }

  lemma ClearDailyKeeps(cfg: Config, base: real, w: World, written: bool)
    requires Sound(cfg, base, w)
    ensures Sound(cfg, base, Next(cfg, base, w, ClearDaily(written)))
  {}

  lemma NextKeeps(cfg: Config, base: real, w: World, e: Event)
    requires Calendar(cfg) && Sound(cfg, base, w)
    ensures Sound(cfg, base, Next(cfg, base, w, e))
  {
    match e
    case Earn(_) =>
    case Move(funds) => MoveKeeps(cfg, base, w, funds);
    case Wait(seconds) => WaitKeeps(cfg, base, w, seconds);
    case Tick(_, _, _) =>
      TickKeepsBooks(cfg, base, w, e);
      TickKeepsOrder(cfg, base, w, e);
    case Restart => RestartKeeps(cfg, base, w);
    case ClearDrawdown(writes) => ClearDrawdownKeeps(cfg, base, w, writes);
    case ClearDaily(written) => ClearDailyKeeps(cfg, base, w, written);
  }

  lemma {:induction false} RunKeeps(cfg: Config, base: real, clock: int, events: seq<Event>)
    requires Calendar(cfg)
    ensures Sound(cfg, base, Run(cfg, base, Fresh(clock), events))
  {
    if events == [] {
    } else {
      RunKeeps(cfg, base, clock, events[..|events| - 1]);
      NextKeeps(cfg, base, Run(cfg, base, Fresh(clock), events[..|events| - 1]), events[|events| - 1]);
    }
  }

  lemma RunStep(cfg: Config, base: real, w: World, events: seq<Event>, k: nat)
    requires CursorOk(w) && k < |events|
    ensures Run(cfg, base, w, events[..k + 1]) == Next(cfg, base, Run(cfg, base, w, events[..k]), events[k])
  {
    assert events[..k + 1][..k] == events[..k];
  }

  /** What an event does to the tracker; a restart builds a new one over the stored flags. */
  method Take(limit: DailyLossLimit, base: real, w: World, e: Event) returns (next: DailyLossLimit)
    requires CursorOk(w) && Tracker(limit.flags, limit.latch) == w.t
    modifies limit
    ensures next == limit || fresh(next)
    ensures next.cfg == limit.cfg && Tracker(next.flags, next.latch) == Next(limit.cfg, base, w, e).t
  {
    next := limit;
    match e {
      case Restart => next := new DailyLossLimit(limit.cfg, limit.flags);
      case ClearDrawdown(writes) => limit.ClearDrawdownHalt(writes);
      case ClearDaily(written) => limit.ClearDailyHalt(written);
      case Tick(planned, _, r) =>
        var _ := limit.Check(w.history, |w.history|, Seen(base, w, e), planned, w.clock, r);
      case _ =>
    }
  }

  /** The tracker under any run is the one of the specified run. */
  method Replay(cfg: Config, base: real, clock: int, events: seq<Event>) returns (limit: DailyLossLimit)
    ensures fresh(limit) && limit.cfg == cfg
    ensures Tracker(limit.flags, limit.latch) == Run(cfg, base, Fresh(clock), events).t
  {
    var w := Fresh(clock);
    limit := new DailyLossLimit(cfg, w.t.flags);
    for n := 0 to |events|
      invariant fresh(limit) && limit.cfg == cfg
      invariant w == Run(cfg, base, Fresh(clock), events[..n]) && Tracker(limit.flags, limit.latch) == w.t
    {
      RunStep(cfg, base, Fresh(clock), events, n);
      limit := Take(limit, base, w, events[n]);
      w := Next(cfg, base, w, events[n]);
    }
    assert events[..|events|] == events;
  }
}
