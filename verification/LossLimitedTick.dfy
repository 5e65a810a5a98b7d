/** The loss limit at work inside a router tick: what a standing halt makes the router ask of the broker
    (execution/broker_demo_router.py, `_loss_check` and `_loss_flatten`). */
module LossLimitedTick {
  import opened Maybe
  import opened RouterTrace
  import opened RouterRows
  import DailyLoss
  import DailyLossHalts
  import DailyLossLaws
  import BrokerDemoRouter

  /** What a tracker shows of a drawdown halt through its latches and the flags it can read. */
  predicate Known(cfg: DailyLoss.Config, t: DailyLoss.Tracker, now: int, h: DailyLoss.HaltReads) {
    DailyLoss.HaltState(cfg, t, now, h).1
  }

  /** A known drawdown halt makes the check ask to flatten and refuse entries, whatever else it can read or write. */
  lemma KnownHaltFlattens(cfg: DailyLoss.Config, t: DailyLoss.Tracker, history: DailyLoss.History, id: nat,
                          nav: Option<real>, planned: DailyLoss.Planned, now: int, r: DailyLoss.Reads)
    requires id <= |history| && (t.flags.cursor.Some? ==> t.flags.cursor.value <= id)
    requires Known(cfg, t, now, r.halts)
    ensures var (next, d) := DailyLoss.Checked(cfg, t, history, id, nav, planned, now, r);
            d.flattenRequired && !d.entryAllowed && Known(cfg, next, now, r.halts)
  {
    if r.balance {
      var folded := DailyLoss.Folded(cfg, t.flags, history, id, now, r);
      if folded.Some? {
        var read := DailyLoss.Tracker(folded.value, t.latch);
        assert read.flags.ddHalt == t.flags.ddHalt;
        DailyLossHalts.EvaluatedKeepsShown(cfg, read, nav, planned, now, r.faults, r.halts);
        DailyLossHalts.EvaluatedShowsHalt(cfg, read, nav, planned, now, r.faults);
      }
    }
  }

  /** `_loss_check`: the tracker's decision, which never both flattens and allows an entry. */
  method Decide(limit: DailyLoss.DailyLossLimit, history: DailyLoss.History, id: nat, nav: Option<real>,
                planned: DailyLoss.Planned, now: int, r: DailyLoss.Reads) returns (ruling: Ruling)
    requires id <= |history| && (limit.flags.cursor.Some? ==> limit.flags.cursor.value <= id)
    modifies limit
    ensures (DailyLoss.Tracker(limit.flags, limit.latch), ruling) ==
            DailyLoss.Checked(limit.cfg, old(DailyLoss.Tracker(limit.flags, limit.latch)), history, id, nav, planned,
                              now, r)
  {
    DailyLossLaws.FlattenRefusesEntries(limit.cfg, DailyLoss.Tracker(limit.flags, limit.latch), history, id, nav,
                                        planned, now, r);
    ruling := limit.Check(history, id, nav, planned, now, r);
  }

  /** A tick of the router under the loss limit: the requests, then the decision, then the rest under it. While a drawdown
      halt is known, every tick that runs to its end has asked the broker to close every row that was open with nothing
      unknown, or has seen it end, whatever the NAV is and whichever reads and writes of the tracker fail. */
  method Manage(router: BrokerDemoRouter.BrokerDemoRouter, limit: DailyLoss.DailyLossLimit, input: TickInput,
                history: DailyLoss.History, id: nat, nav: Option<real>, now: int, r: DailyLoss.Reads)
    requires router.alive && router.Valid()
    requires id <= |history| && (limit.flags.cursor.Some? ==> limit.flags.cursor.value <= id)
    modifies router, limit
    ensures router.Valid() && Narrows(old(router.rows), router.rows) && Steady(old(router.trace), router.trace)
    ensures old(Known(limit.cfg, DailyLoss.Tracker(limit.flags, limit.latch), now, r.halts)) ==>
              && Known(limit.cfg, DailyLoss.Tracker(limit.flags, limit.latch), now, r.halts)
              && (router.alive ==> Flattened(old(router.rows), old(router.trace), router.rows, router.trace))
  {
    ghost var known := Known(limit.cfg, DailyLoss.Tracker(limit.flags, limit.latch), now, r.halts);
    ghost var rows0, trace0 := router.rows, router.trace;
    router.Begin();
    ghost var trace1 := router.trace;
    var touched, report := router.Requests(input);
    SteadyTransitive(trace0, trace1, router.trace);
    if !router.alive { return; }
    ghost var rows2, trace2 := router.rows, router.trace;
    if known {
      KnownHaltFlattens(limit.cfg, DailyLoss.Tracker(limit.flags, limit.latch), history, id, nav, DailyLoss.NoEntry, now,
                        r);
    }
    var ruling := Decide(limit, history, id, nav, DailyLoss.NoEntry, now, r);
    router.AfterRequests(input.(loss := ruling), touched, report);
    SteadyTransitive(trace0, trace2, router.trace);
    if router.alive && known {
      PursuedSince(rows0, trace0, trace1, rows2, trace2);
      FlattenedAfter(rows0, trace0, rows2, trace2, router.rows, router.trace);
    }
  }
}
