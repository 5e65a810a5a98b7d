/** The daily loss limit and the account drawdown halt: durable flags, in-memory latches, and every write that may fail
    (execution/daily_loss_limit.py, and `_loss_check` of execution/broker_demo_router.py). */
module DailyLoss {
  import opened Maybe

  const DRAWDOWN_FRACTION := 0.05
  const LAST_NAV_MAX_AGE := 7 * 24 * 3600

  /** `day` gives the key of the 17:00 New York day a moment belongs to. */
  datatype Config = Config(fraction: real, flatten: bool, override: Option<real>, day: int -> int)

  datatype Flags = Flags(
    day: Option<int>, e0: Option<real>, transfers: Option<real>, halt: Option<int>,
    ddStart: Option<real>, ddHalt: bool, ddTransfers: Option<real>,
    lastNav: Option<real>, lastAt: Option<int>, cursor: Option<nat>)

  datatype Latch = Latch(daily: Option<int>, dd: bool)
  datatype Tracker = Tracker(flags: Flags, latch: Latch)

  datatype Planned = NoEntry | Amount(risk: real) | Unusable
  datatype Reason = DrawdownHalt | DailyLossHalt | Budget | InvalidInput | NavInvalid | Unreadable | Unavailable

  datatype DayStatus = DayStatus(pnl: real, limit: real, breached: bool, reason: Option<Reason>)
  datatype Decision = Decision(entryAllowed: bool, flattenRequired: bool, reason: Option<Reason>,
                               halted: bool, ddHalted: bool, daily: Option<DayStatus>)

  /** Which of the two flags a look at the halts can read. */
  datatype HaltReads = HaltReads(daily: bool, dd: bool)

  /** Which reads and writes of one evaluation go through: `roll` and `start` count the writes of those two steps that
      succeed before one raises, the others are writes whose failure is swallowed. */
  datatype Faults = Faults(readable: bool, halts: HaltReads, roll: nat, start: nat, retryDd: bool, retryDaily: bool,
                           haltDd: bool, haltDaily: bool, lastNav: bool, lastAt: bool)

  // --- the specification -------------------------------------------------------------------------------------------

  predicate Positive(value: Option<real>) { value.Some? && value.value > 0.0 }

  function OrZero(value: Option<real>): real { if value.Some? then value.value else 0.0 }

  /** Corrupt or incomplete flags are refused before anything is touched. */
  predicate Sane(f: Flags) {
    && (f.e0.Some? ==> f.e0.value > 0.0)
    && (f.ddStart.Some? ==> f.ddStart.value > 0.0)
    && (f.day.Some? ==> f.e0.Some? && f.transfers.Some?)
  }

  function Baseline(f: Flags, now: int): Option<real> {
    if Positive(f.lastNav) && f.lastAt.Some? && 0 <= now - f.lastAt.value <= LAST_NAV_MAX_AGE then f.lastNav else None
  }

  function DrawdownBase(cfg: Config, f: Flags): Option<real> {
    var start := if cfg.override.Some? then cfg.override else f.ddStart;
    if start.None? then None else Some(start.value + OrZero(f.ddTransfers))
  }

  function StatusOfDay(e0: real, nav: real, transfers: real, planned: Planned, fraction: real): DayStatus {
    var pnl := nav - e0 - transfers;
    var limit := fraction * e0;
    if planned.Unusable? then DayStatus(pnl, limit, false, Some(InvalidInput))
    else if pnl <= -limit then DayStatus(pnl, limit, true, Some(DailyLossHalt))
    else if planned.Amount? && !(0.0 < planned.risk <= limit + pnl) then DayStatus(pnl, limit, false, Some(Budget))
    else DayStatus(pnl, limit, false, None)
  }

  function Refusal(reason: Reason): Decision { Decision(false, false, Some(reason), false, false, None) }

  /** Flags and latch after the first `writes` of the four roll writes. */
  function Rolled(cfg: Config, t: Tracker, nav: real, now: int, writes: nat): Tracker {
    var f := t.flags;
    var e0 := match Baseline(f, now) case Some(last) => last case None => nav;
    var f1 := if writes >= 1 then f.(e0 := Some(e0)) else f;
    var f2 := if writes >= 2 then f1.(transfers := Some(0.0)) else f1;
    var f3 := if writes >= 3 then f2.(halt := None) else f2;
    if writes < 4 then Tracker(f3, t.latch)
    else Tracker(f3.(day := Some(cfg.day(now))),
                 t.latch.(daily := if t.latch.daily == Some(cfg.day(now)) then t.latch.daily else None))
  }

  /** The drawdown baseline is the first NAV seen; transfers of an older baseline go first. */
  function Started(cfg: Config, f: Flags, nav: real, writes: nat): (Flags, bool) {
    if cfg.override.Some? || f.ddStart.Some? then (f, true)
    else
      var needed := if f.ddTransfers.Some? then 2 else 1;
      var f1 := if f.ddTransfers.Some? && writes >= 1 then f.(ddTransfers := None) else f;
      if writes < needed then (f1, false) else (f1.(ddStart := Some(nav)), true)
  }

  /** Halt writes that failed earlier are tried again. */
  function Retried(t: Tracker, key: int, x: Faults): Tracker {
    t.(flags := t.flags.(ddHalt := t.flags.ddHalt || (t.latch.dd && x.retryDd),
                         halt := if t.latch.daily == Some(key) && x.retryDaily then Some(key) else t.flags.halt))
  }

  /** A new halt is latched before its flag is written. */
  function WithDrawdownHalt(t: Tracker, written: bool): Tracker {
    Tracker(t.flags.(ddHalt := t.flags.ddHalt || written), t.latch.(dd := true))
  }

  function WithDailyHalt(t: Tracker, key: int, written: bool): Tracker {
    Tracker(t.flags.(halt := if written then Some(key) else t.flags.halt), t.latch.(daily := Some(key)))
  }

  function Remembered(f: Flags, nav: real, now: int, x: Faults): Flags {
    f.(lastNav := if x.lastNav then Some(nav) else f.lastNav,
       lastAt := if x.lastNav && x.lastAt then Some(now) else f.lastAt)
  }

  predicate DrawdownBreached(start: Option<real>, nav: real) {
    Positive(start) && nav <= start.value * (1.0 - DRAWDOWN_FRACTION)
  }

  function Judged(cfg: Config, t: Tracker, nav: real, planned: Planned, now: int, x: Faults): (Tracker, Decision)
    requires t.flags.e0.Some? && t.flags.transfers.Some?
  {
    var key := cfg.day(now);
    var start := DrawdownBase(cfg, t.flags);
    var daily := StatusOfDay(t.flags.e0.value, nav, t.flags.transfers.value, planned, cfg.fraction);
    var breached := DrawdownBreached(start, nav);
    var ddBefore := t.flags.ddHalt || t.latch.dd;
    var haltedBefore := t.flags.halt == Some(key) || t.latch.daily == Some(key);
    var dd, halted := ddBefore || breached, haltedBefore || daily.breached;
    var t1 := Retried(t, key, x);
    var t2 := if breached && !ddBefore then WithDrawdownHalt(t1, x.haltDd) else t1;
    var t3 := if daily.breached && !haltedBefore then WithDailyHalt(t2, key, x.haltDaily) else t2;
    var reason := if dd then Some(DrawdownHalt) else if halted then Some(DailyLossHalt)
                  else if !Positive(start) then Some(Unreadable) else daily.reason;
    (t3.(flags := Remembered(t3.flags, nav, now, x)),
     Decision(reason.None?, dd || (halted && cfg.flatten), reason, halted, dd, Some(daily)))
  }

  /** `(daily, drawdown)` from the latches and, when they can be read, the flags. A latch spares the read of its flag, and
      a read that fails ends the look. */
  function HaltState(cfg: Config, t: Tracker, now: int, h: HaltReads): (bool, bool) {
    var today := t.latch.daily == Some(cfg.day(now));
    (today || (h.daily && t.flags.halt == Some(cfg.day(now))),
     t.latch.dd || ((today || h.daily) && h.dd && t.flags.ddHalt))
  }

  /** The day rolled and the drawdown baseline set, if every write of both steps succeeds. */
  function Prepared(cfg: Config, t: Tracker, nav: real, now: int, x: Faults): (r: (Tracker, bool))
    requires Sane(t.flags)
    ensures r.1 ==> r.0.flags.e0.Some? && r.0.flags.transfers.Some? && r.0.flags.day == Some(cfg.day(now))
  {
    var rolls := t.flags.day != Some(cfg.day(now));
    var t1 := if rolls then Rolled(cfg, t, nav, now, x.roll) else t;
    if rolls && x.roll < 4 then (t1, false)
    else
      var (f2, started) := Started(cfg, t1.flags, nav, x.start);
      (Tracker(f2, t1.latch), started)
  }

  function Evaluated(cfg: Config, t: Tracker, nav: Option<real>, planned: Planned, now: int, x: Faults)
    : (Tracker, Decision)
  {
    if nav.None? then (t, Refusal(NavInvalid))
    else if nav.value <= 0.0 then
      var (daily, dd) := HaltState(cfg, t, now, x.halts);
      (if dd then t else WithDrawdownHalt(t, x.haltDd),
       Decision(false, true, Some(DrawdownHalt), daily, true, None))
    else if !x.readable || !Sane(t.flags) then (t, Refusal(Unreadable))
    else
      var (t1, ready) := Prepared(cfg, t, nav.value, now, x);
      if ready then Judged(cfg, t1, nav.value, planned, now, x) else (t1, Refusal(Unreadable))
  }

  /** Cursor and adjustment in one transaction; `None` when the call raises and nothing changed. */
  function WithTransfer(cfg: Config, f: Flags, net: real, upto: nat, now: int, readable: bool): Option<Flags> {
    var moved := f.(cursor := Some(upto));
    if net == 0.0 then Some(moved)
    else if !readable || !Sane(f) then None
    else
      var based := if cfg.override.Some? || f.ddStart.Some?
                   then moved.(ddTransfers := Some(OrZero(f.ddTransfers) + net)) else moved;
      if f.day == Some(cfg.day(now)) then Some(based.(transfers := Some(OrZero(f.transfers) + net)))
      else match Baseline(f, now)
           case Some(last) => Some(based.(lastNav := Some(last + net)))
           case None => Some(based)
  }

  // --- the broker's cash movements ---------------------------------------------------------------------------------

  /** Transaction `i` has id `i + 1`; `None` is one that moves no funds. */
  type History = seq<Option<real>>

  function Moved(history: History, upto: nat): real
    requires upto <= |history|
  {
    if upto == 0 then 0.0 else Moved(history, upto - 1) + OrZero(history[upto - 1])
  }

  /** Net funds moved by the transactions after `since`, up to and including `upto`, in one pass over all later ones. */
  method TransfersSince(history: History, since: nat, upto: nat) returns (net: real)
    requires since <= upto <= |history|
    ensures net == Moved(history, upto) - Moved(history, since)
  {
    net := 0.0;
    var id := since;
    while id < |history|
      invariant since <= id <= |history|
      invariant net == Moved(history, if id <= upto then id else upto) - Moved(history, since)
    {
      var item := history[id];
      id := id + 1;
      if item.Some? {
        if id <= upto {
          net := net + item.value;
        }
      }
    }
  }

  /** What one router tick reads and which of its store calls go through. */
  datatype Reads = Reads(balance: bool, cursor: bool, transfers: bool, folds: bool, applied: bool, halts: HaltReads,
                         faults: Faults)

  function Folded(cfg: Config, f: Flags, history: History, id: nat, now: int, r: Reads): Option<Flags>
    requires id <= |history| && (f.cursor.Some? ==> f.cursor.value <= id)
  {
    if !r.cursor then None
    else if f.cursor == Some(id) then Some(f)
    else if f.cursor.None? then (if r.applied then WithTransfer(cfg, f, 0.0, id, now, true) else None)
    else if !r.transfers || !r.applied then None
    else WithTransfer(cfg, f, Moved(history, id) - Moved(history, f.cursor.value), id, now, r.folds)
  }

  function Held(cfg: Config, t: Tracker, reason: Reason, now: int, h: HaltReads): Decision {
    var (daily, dd) := HaltState(cfg, t, now, h);
    Decision(false, dd || (daily && cfg.flatten), Some(reason), daily, dd, None)
  }

  /** The router's check of one tick: fold the funds moved since the last tick, then evaluate the same summary. */
  function Checked(cfg: Config, t: Tracker, history: History, id: nat, nav: Option<real>, planned: Planned, now: int,
                   r: Reads): (Tracker, Decision)
    requires id <= |history| && (t.flags.cursor.Some? ==> t.flags.cursor.value <= id)
  {
    if !r.balance then (t, Held(cfg, t, Unavailable, now, r.halts))
    else match Folded(cfg, t.flags, history, id, now, r)
         case None => (t, Held(cfg, t, Unavailable, now, r.halts))
         case Some(f) =>
           var (next, decision) := Evaluated(cfg, Tracker(f, t.latch), nav, planned, now, r.faults);
           if decision.reason in {Some(NavInvalid), Some(Unreadable)}
           then (next, Held(cfg, next, decision.reason.value, now, r.halts))
           else (next, decision)
  }

  // --- the tracker -------------------------------------------------------------------------------------------------

  class DailyLossLimit {
    const cfg: Config
    var flags: Flags
    var latch: Latch

    constructor (config: Config, stored: Flags)
      ensures cfg == config && flags == stored && latch == Latch(None, false)
    {
      cfg, flags, latch := config, stored, Latch(None, false);
    }

    method Roll(nav: real, now: int, writes: nat) returns (ok: bool)
      modifies this
      ensures Tracker(flags, latch) == Rolled(cfg, old(Tracker(flags, latch)), nav, now, writes)
      ensures ok == (writes >= 4)
    {
      var last := Baseline(flags, now);
      var e0 := if last.Some? then last.value else nav;
      if writes == 0 { return false; }
      flags := flags.(e0 := Some(e0));
      if writes == 1 { return false; }
      flags := flags.(transfers := Some(0.0));
      if writes == 2 { return false; }
      flags := flags.(halt := None);
      if writes == 3 { return false; }
      flags := flags.(day := Some(cfg.day(now)));
      if latch.daily != Some(cfg.day(now)) {
        latch := latch.(daily := None);
      }
      return true;
    }

    method StartDrawdown(nav: real, writes: nat) returns (ok: bool)
      modifies this`flags
      ensures (flags, ok) == Started(cfg, old(flags), nav, writes)
    {
      if cfg.override.Some? || flags.ddStart.Some? { return true; }
      var budget := writes;
      if flags.ddTransfers.Some? {
        if budget == 0 { return false; }
        flags, budget := flags.(ddTransfers := None), budget - 1;
      }
      if budget == 0 { return false; }
      flags := flags.(ddStart := Some(nav));
      return true;
    }

    method RetryHalts(key: int, x: Faults)
      modifies this`flags
      ensures Tracker(flags, latch) == Retried(old(Tracker(flags, latch)), key, x)
    {
      if latch.dd && !flags.ddHalt && x.retryDd {
        flags := flags.(ddHalt := true);
      }
      if latch.daily == Some(key) && flags.halt != Some(key) && x.retryDaily {
        flags := flags.(halt := Some(key));
      }
    }

    method HaltDrawdown(written: bool)
      modifies this
      ensures Tracker(flags, latch) == WithDrawdownHalt(old(Tracker(flags, latch)), written)
    {
      latch := latch.(dd := true);
      if written { flags := flags.(ddHalt := true); }
    }

    method HaltDay(key: int, written: bool)
      modifies this
      ensures Tracker(flags, latch) == WithDailyHalt(old(Tracker(flags, latch)), key, written)
    {
      latch := latch.(daily := Some(key));
      if written { flags := flags.(halt := Some(key)); }
    }

    method Remember(nav: real, now: int, x: Faults)
      modifies this`flags
      ensures flags == Remembered(old(flags), nav, now, x)
    {
      if x.lastNav {
        flags := flags.(lastNav := Some(nav));
        if x.lastAt { flags := flags.(lastAt := Some(now)); }
      }
    }

    /** Both limits on a rolled state. */
    method Judge(nav: real, planned: Planned, now: int, x: Faults) returns (decision: Decision)
      requires flags.e0.Some? && flags.transfers.Some?
      modifies this
      ensures (Tracker(flags, latch), decision) == Judged(cfg, old(Tracker(flags, latch)), nav, planned, now, x)
    {
      var key := cfg.day(now);
      var start := DrawdownBase(cfg, flags);
      var daily := StatusOfDay(flags.e0.value, nav, flags.transfers.value, planned, cfg.fraction);
      var breached := DrawdownBreached(start, nav);
      var ddHalted, halted := flags.ddHalt || latch.dd, flags.halt == Some(key) || latch.daily == Some(key);
      RetryHalts(key, x);
      if breached && !ddHalted {
        HaltDrawdown(x.haltDd);
        ddHalted := true;
      }
      if daily.breached && !halted {
        HaltDay(key, x.haltDaily);
        halted := true;
      }
      Remember(nav, now, x);
      var reason := if ddHalted then Some(DrawdownHalt) else if halted then Some(DailyLossHalt)
                    else if !Positive(start) then Some(Unreadable) else daily.reason;
      decision := Decision(reason.None?, ddHalted || (halted && cfg.flatten), reason, halted, ddHalted, Some(daily));
    }

    method Evaluate(nav: Option<real>, planned: Planned, now: int, x: Faults) returns (decision: Decision)
      modifies this
      ensures (Tracker(flags, latch), decision) == Evaluated(cfg, old(Tracker(flags, latch)), nav, planned, now, x)
    {
      if nav.None? {
        return Refusal(NavInvalid);
      }
      var value := nav.value;
      if value <= 0.0 {
        var (daily, dd) := HaltState(cfg, Tracker(flags, latch), now, x.halts);
        if !dd { HaltDrawdown(x.haltDd); }
        return Decision(false, true, Some(DrawdownHalt), daily, true, None);
      }
      if !x.readable || !Sane(flags) {
        return Refusal(Unreadable);
      }
      if flags.day != Some(cfg.day(now)) {
        var rolled := Roll(value, now, x.roll);
        if !rolled { return Refusal(Unreadable); }
      }
      var started := StartDrawdown(value, x.start);
      if !started { return Refusal(Unreadable); }
      decision := Judge(value, planned, now, x);
    }

    method ApplyTransfer(net: real, upto: nat, now: int, readable: bool) returns (ok: bool)
      modifies this`flags
      ensures match WithTransfer(cfg, old(flags), net, upto, now, readable)
              case Some(f) => ok && flags == f
              case None => !ok && flags == old(flags)
    {
      var next := flags.(cursor := Some(upto));
      if net != 0.0 {
        if !readable || !Sane(flags) { return false; }
        if cfg.override.Some? || flags.ddStart.Some? {
          next := next.(ddTransfers := Some(OrZero(flags.ddTransfers) + net));
        }
        if flags.day == Some(cfg.day(now)) {
          next := next.(transfers := Some(OrZero(flags.transfers) + net));
        } else {
          var last := Baseline(flags, now);
          if last.Some? { next := next.(lastNav := Some(last.value + net)); }
        }
      }
      flags := next;
      return true;
    }

    /** `_loss_transfers`: bring the cursor up to the summary's transaction id. */
    method FoldTransfers(history: History, id: nat, now: int, r: Reads) returns (ok: bool)
      requires id <= |history| && (flags.cursor.Some? ==> flags.cursor.value <= id)
      modifies this`flags
      ensures match Folded(cfg, old(flags), history, id, now, r)
              case Some(f) => ok && flags == f
              case None => !ok && flags == old(flags)
    {
      if !r.cursor { return false; }
      if flags.cursor == Some(id) { return true; }
      if flags.cursor.None? {
        if !r.applied { return false; }
        ok := ApplyTransfer(0.0, id, now, true);
        return;
      }
      if !r.transfers { return false; }
      var net := TransfersSince(history, flags.cursor.value, id);
      if !r.applied { return false; }
      ok := ApplyTransfer(net, id, now, r.folds);
    }

    /** `_loss_check` of the router. */
    method Check(history: History, id: nat, nav: Option<real>, planned: Planned, now: int, r: Reads)
      returns (decision: Decision)
      requires id <= |history| && (flags.cursor.Some? ==> flags.cursor.value <= id)
      modifies this
      ensures (Tracker(flags, latch), decision) ==
              Checked(cfg, old(Tracker(flags, latch)), history, id, nav, planned, now, r)
    {
      if !r.balance {
        return Held(cfg, Tracker(flags, latch), Unavailable, now, r.halts);
      }
      var folded := FoldTransfers(history, id, now, r);
      if !folded {
        return Held(cfg, Tracker(flags, latch), Unavailable, now, r.halts);
      }
      decision := Evaluate(nav, planned, now, r.faults);
      if decision.reason == Some(NavInvalid) || decision.reason == Some(Unreadable) {
        decision := Held(cfg, Tracker(flags, latch), decision.reason.value, now, r.halts);
      }
    }

    /** The operator's release: the latch drops only after all three writes. */
    method ClearDrawdownHalt(writes: nat)
      modifies this
      ensures Tracker(flags, latch) == DrawdownCleared(old(Tracker(flags, latch)), writes)
    {
      if writes == 0 { return; }
      flags := flags.(ddHalt := false);
      if writes == 1 { return; }
      flags := flags.(ddStart := None);
      if writes == 2 { return; }
      flags := flags.(ddTransfers := None);
      latch := latch.(dd := false);
    }

    method ClearDailyHalt(written: bool)
      modifies this
      ensures Tracker(flags, latch) == DailyCleared(old(Tracker(flags, latch)), written)
    {
      if written {
        flags := flags.(halt := None);
        latch := latch.(daily := None);
      }
    }
  }

  function DrawdownCleared(t: Tracker, writes: nat): Tracker {
    var f1 := if writes >= 1 then t.flags.(ddHalt := false) else t.flags;
    var f2 := if writes >= 2 then f1.(ddStart := None) else f1;
    if writes >= 3 then Tracker(f2.(ddTransfers := None), t.latch.(dd := false)) else Tracker(f2, t.latch)
  }

  function DailyCleared(t: Tracker, written: bool): Tracker {
    if written then Tracker(t.flags.(halt := None), t.latch.(daily := None)) else t
  }
}
