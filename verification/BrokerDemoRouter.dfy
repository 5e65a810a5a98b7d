/** The broker-demo router as a class over its durable rows, against a broker that answers anything, a store whose calls
    may fail, and a process that may stop before any store or broker call (execution/broker_demo_router.py). */
module BrokerDemoRouter {
  import opened Maybe
  import opened RouterTrace
  import opened RouterRows
  import DailyLoss

  datatype Event =
    | Cycle(input: TickInput, plan: Plan)
    | ManageTick(input: TickInput)
    | RequestPoll(input: TickInput)
    | Restarted(closing: bool)
    | Released
    | DriftCleared
    | NotSent(client: int)

  class BrokerDemoRouter {
    const world: World
    const reversal: bool
    var closingOnly: bool
    var rows: seq<Row>
    var blockedFlag: Option<Block>
    var blocked: Option<Block>
    var ops: nat
    /** Control proceeds normally; else an exception is on its way up (`raised`) or the process has stopped. */
    var alive: bool
    var raised: bool
    ghost var trace: Trace

    ghost predicate Valid()
      reads this
    {
      Good(rows, trace) && !(alive && raised)
    }

    constructor (w: World, reverse: bool, closing: bool)
      ensures Valid() && rows == [] && trace == [] && alive && world == w
    {
      world, reversal, closingOnly := w, reverse, closing;
      rows, blockedFlag, blocked, ops, alive, raised, trace := [], None, None, 0, true, false, [];
    }

    method Halt()
      requires alive && Valid()
      modifies `trace, `alive
      ensures Valid() && Moves(rows, old(trace), rows, trace) && !alive && trace == old(trace) + [Stopped]
    {
      NoteKeeps(rows, trace, Stopped);
      EntryMoves(rows, trace, Stopped);
      alive, trace := false, trace + [Stopped];
    }

    /** One broker call; the process may stop instead. */
    method BrokerCall()
      requires alive && Valid()
      modifies `trace, `ops, `alive
      ensures Valid() && Moves(rows, old(trace), rows, trace) && ops == old(ops) + 1
      ensures alive == !world.fate(old(ops)).Stops? && (alive ==> trace == old(trace))
    {
      if world.fate(ops).Stops? { Halt(); }
      ops := ops + 1;
    }

    /** One store call; it may raise, and the process may stop instead. */
    method StoreCall()
      requires alive && Valid()
      modifies `trace, `ops, `alive, `raised
      ensures Valid() && Moves(rows, old(trace), rows, trace) && ops == old(ops) + 1
      ensures alive == world.fate(old(ops)).Done? && raised == world.fate(old(ops)).Fails?
      ensures alive || raised ==> trace == old(trace)
    {
      if world.fate(ops).Stops? {
        Halt();
      } else if world.fate(ops).Fails? {
        alive, raised := false, true;
      }
      ops := ops + 1;
    }

    /** An `except` clause: an exception ends here, a stop does not. */
    method Catch()
      requires Valid()
      modifies `alive, `raised
      ensures Valid() && !raised && alive == (old(alive) || old(raised))
    {
      alive, raised := alive || raised, false;
    }

    // --- row updates -----------------------------------------------------------------------------------------------

    method Store(i: nat, r: Row)
      requires alive && Valid() && i < |rows| && Successor(rows[i], r) && (Live(r) ==> r.latched == rows[i].latched)
      modifies `rows, `trace, `ops, `alive, `raised
      ensures Valid() && Moves(old(rows), old(trace), rows, trace)
      ensures alive == world.fate(old(ops)).Done? && ops == old(ops) + 1
      ensures rows == old(rows)[i := rows[i]] && rows[i] == if alive then r else old(rows)[i]
      ensures alive ==> trace == old(trace) + EndedBy(old(rows)[i], r)
      ensures raised ==> trace == old(trace)
    {
      SameRow(rows, i);
      StoreCall();
      if alive {
        StoreMoves(rows, trace, i, r);
        trace := trace + EndedBy(rows[i], r);
        rows := rows[i := r];
      }
    }

    method Settle(i: nat, r: Row)
      requires alive && Valid() && i < |rows| && Live(rows[i]) && Successor(rows[i], r) && !r.latched
      modifies `rows, `trace, `ops, `alive, `raised
      ensures Valid() && Moves(old(rows), old(trace), rows, trace)
      ensures rows == old(rows)[i := rows[i]] && rows[i] == if alive then r else old(rows)[i]
    {
      SameRow(rows, i);
      StoreCall();
      if alive {
        SettleMoves(rows, trace, i, r, Evidence(r.client));
        trace := trace + [Evidence(r.client)] + EndedBy(rows[i], r);
        rows := rows[i := r];
      }
    }

    // --- actions on one row ----------------------------------------------------------------------------------------

    /** The record that an outcome is unknown. When it fails, or the process stops before it, the row stays as it was. */
    method RecordUnknown(i: nat, action: Action, ghost before: Trace)
      requires alive && !raised && i < |rows| && Good(rows, before) && Live(rows[i]) && !rows[i].latched
      requires trace == before + [Ask(rows[i].client, action, Unheard)]
      modifies `rows, `trace, `ops, `alive, `raised
      ensures Valid() && Moves(old(rows), before, rows, trace) && ops == old(ops) + 1
      ensures alive == world.fate(old(ops)).Done? && raised == world.fate(old(ops)).Fails?
      ensures rows == old(rows)[i := rows[i]]
      ensures rows[i] == if alive then WithLatch(old(rows)[i], action) else old(rows)[i]
      ensures Called(world, old(ops), before, ops, trace, alive, raised)
      ensures AskedSince(before, trace, old(rows)[i].client, action)
      ensures raised ==>
                trace == before + [Ask(old(rows)[i].client, action, Unheard)] + [RecordFailed(old(rows)[i].client)]
    {
      ghost var c := rows[i].client;
      SameRow(rows, i);
      if world.fate(ops).Stops? {
        LostAskKeeps(rows, before, i, action, Unheard, Stopped);
        TwoEntriesMove(rows, before, Ask(c, action, Unheard), Stopped);
        alive, trace := false, trace + [Stopped];
      } else if world.fate(ops).Fails? {
        LostAskKeeps(rows, before, i, action, Unheard, RecordFailed(c));
        TwoEntriesMove(rows, before, Ask(c, action, Unheard), RecordFailed(c));
        alive, raised, trace := false, true, trace + [RecordFailed(c)];
      } else {
        LatchMoves(rows, before, i, action);
        trace, rows := trace + [Ambiguous(c)], rows[i := WithLatch(rows[i], action)];
      }
      ops := ops + 1;
      assert trace[|before|] == Ask(c, action, Unheard);
    }

    /** The record that a close or cancel was taken. When it fails, or the process stops before it, the row stays as it
        was. */
    method RecordTaken(i: nat, action: Action, r: Row, ghost before: Trace)
      requires alive && !raised && i < |rows| && Good(rows, before) && Live(rows[i]) && !rows[i].latched
      requires Final(action) && trace == before + [Ask(rows[i].client, action, Taken)]
      requires Successor(rows[i], r) && !Live(r)
      modifies `rows, `trace, `ops, `alive, `raised
      ensures Valid() && Moves(old(rows), before, rows, trace) && ops == old(ops) + 1
      ensures alive == world.fate(old(ops)).Done? && raised == world.fate(old(ops)).Fails?
      ensures rows == old(rows)[i := rows[i]] && rows[i] == if alive then r else old(rows)[i]
      ensures Called(world, old(ops), before, ops, trace, alive, raised)
      ensures AskedSince(before, trace, old(rows)[i].client, action)
      ensures raised ==> trace == before + [Ask(old(rows)[i].client, action, Taken)] + [Unrecorded(old(rows)[i].client)]
    {
      ghost var c := rows[i].client;
      SameRow(rows, i);
      if world.fate(ops).Stops? {
        LostAskKeeps(rows, before, i, action, Taken, Stopped);
        TwoEntriesMove(rows, before, Ask(c, action, Taken), Stopped);
        alive, trace := false, trace + [Stopped];
      } else if world.fate(ops).Fails? {
        LostAskKeeps(rows, before, i, action, Taken, Unrecorded(c));
        TwoEntriesMove(rows, before, Ask(c, action, Taken), Unrecorded(c));
        alive, raised, trace := false, true, trace + [Unrecorded(c)];
      } else {
        TakenMoves(rows, before, i, action, r);
        trace, rows := trace + [Ended(r.client, r.trade)], rows[i := r];
      }
      ops := ops + 1;
      assert trace[|before|] == Ask(c, action, Taken);
    }

    /** One action at the broker and, when its outcome is unknown, the record of that on the row. A close or cancel that was
        taken is left for its caller to record. */
    method Send(i: nat, action: Action) returns (reply: Reply)
      requires alive && Valid() && i < |rows| && Live(rows[i]) && !rows[i].latched
      modifies `rows, `trace, `ops, `alive, `raised
      ensures reply == world.reply(old(ops))
      ensures alive && reply.Accepted? && Final(action) ==>
                && !raised && rows == old(rows) && ops == old(ops) + 1
                && trace == old(trace) + [Ask(old(rows)[i].client, action, Taken)]
      ensures !(alive && reply.Accepted? && Final(action)) ==>
                && Valid() && Moves(old(rows), old(trace), rows, trace)
                && Called(world, old(ops), old(trace), ops, trace, alive, raised)
                && AskedSince(old(trace), trace, old(rows)[i].client, action)
      ensures rows == old(rows)[i := rows[i]]
      ensures rows[i] == if alive && Unclear(reply) then WithLatch(old(rows)[i], action) else old(rows)[i]
      ensures world.fate(old(ops)).Done? && !Unclear(reply) ==> alive
      ensures world.fate(old(ops)).Done? && Unclear(reply) && world.fate(old(ops) + 1).Fails? ==>
                && raised && ops == old(ops) + 2
                && trace == old(trace) + [Ask(old(rows)[i].client, action, Unheard)]
                            + [RecordFailed(old(rows)[i].client)]
    {
      reply := world.reply(ops);
      ghost var c, before := rows[i].client, trace;
      SameRow(rows, i);
      if world.fate(ops).Stops? {
        LostAskKeeps(rows, trace, i, action, Unheard, Stopped);
        TwoEntriesMove(rows, trace, Ask(c, action, Unheard), Stopped);
        alive, ops, trace := false, ops + 1, trace + [Ask(c, action, Unheard)] + [Stopped];
        assert trace[|before|] == Ask(c, action, Unheard);
        return;
      }
      ghost var ask := Ask(c, action, AnswerTo(reply));
      ops, trace := ops + 1, trace + [ask];
      assert trace[|before|] == ask;
      if Unclear(reply) {
        ghost var ops1 := ops;
        RecordUnknown(i, action, before);
        CalledEarlier(world, old(ops), ops1, before, ops, trace, alive, raised);
      } else if !(reply.Accepted? && Final(action)) {
        AskKeeps(rows, before, i, action, AnswerTo(reply));
        EntryMoves(rows, before, ask);
      }
    }

    method Close(i: nat) returns (reply: Reply)
      requires alive && Valid() && i < |rows| && rows[i].status == Open && !rows[i].latched
      modifies `rows, `trace, `ops, `alive, `raised
      ensures Valid() && Moves(old(rows), old(trace), rows, trace)
      ensures reply == world.reply(old(ops))
      ensures rows == old(rows)[i := rows[i]]
      ensures rows[i] == if alive then Answered(CloseAll, old(rows)[i], reply) else old(rows)[i]
      ensures AskedSince(old(trace), trace, old(rows)[i].client, CloseAll)
      ensures Called(world, old(ops), old(trace), ops, trace, alive, raised)
      ensures world.fate(old(ops)).Done? && (Unclear(reply) || reply.Accepted?) && world.fate(old(ops) + 1).Fails? ==>
                && raised && ops == old(ops) + 2
                && trace == old(trace) + [Ask(old(rows)[i].client, CloseAll, AnswerTo(reply))]
                            + [LostEntry(old(rows)[i].client, reply)]
    {
      SameRow(rows, i);
      ghost var before := trace;
      reply := Send(i, CloseAll);
      if !alive { return; }
      ghost var rows1, trace1, ops1 := rows, trace, ops;
      if reply.Accepted? {
        RecordTaken(i, CloseAll, rows[i].(status := Closed, pending := None), before);
        CalledEarlier(world, old(ops), ops1, before, ops, trace, alive, raised);
      } else if reply == Refused(true) {
        Store(i, rows[i].(status := ClosedAtBroker, pending := None));
        MovesTransitive(old(rows), old(trace), rows1, trace1, rows, trace);
        StoreCalled(world, old(ops), old(trace), ops1, trace1, rows1[i], rows[i], alive, raised, trace);
        AskedStays(old(trace), trace1, trace, old(rows)[i].client, CloseAll);
      }
    }

    method MoveToBreakeven(i: nat)
      requires alive && Valid() && i < |rows| && rows[i].status == Open && !rows[i].latched
      modifies `rows, `trace, `ops, `alive, `raised
      ensures Valid() && Moves(old(rows), old(trace), rows, trace)
      ensures rows == old(rows)[i := rows[i]]
      ensures rows[i] == if alive then Answered(Breakeven, old(rows)[i], world.reply(old(ops))) else old(rows)[i]
    {
      SameRow(rows, i);
      var reply := Send(i, Breakeven);
      if alive && reply.Accepted? {
        ghost var rows1, trace1 := rows, trace;
        Store(i, rows[i]);
        MovesTransitive(old(rows), old(trace), rows1, trace1, rows, trace);
      }
    }

    method ClosePart(i: nat) returns (accepted: bool)
      requires alive && Valid() && i < |rows| && rows[i].status == Open && !rows[i].latched
      modifies `rows, `trace, `ops, `alive, `raised
      ensures Valid() && Moves(old(rows), old(trace), rows, trace)
      ensures rows == old(rows)[i := rows[i]]
      ensures rows[i] == if alive then Answered(PartialClose, old(rows)[i], world.reply(old(ops))) else old(rows)[i]
      ensures accepted == world.reply(old(ops)).Accepted?
    {
      SameRow(rows, i);
      var reply := Send(i, PartialClose);
      accepted := reply.Accepted?;
      if !alive { return; }
      ghost var rows1, trace1 := rows, trace;
      if accepted {
        Store(i, rows[i].(pending := None));
      } else if reply == Refused(true) {
        Store(i, rows[i].(status := ClosedAtBroker, pending := None));
      } else {
        return;
      }
      MovesTransitive(old(rows), old(trace), rows1, trace1, rows, trace);
    }

    method MoveTrail(i: nat) returns (accepted: bool)
      requires alive && Valid() && i < |rows| && rows[i].status == Open && !rows[i].latched
      modifies `rows, `trace, `ops, `alive, `raised
      ensures Valid() && Moves(old(rows), old(trace), rows, trace)
      ensures rows == old(rows)[i := rows[i]]
      ensures rows[i] == if alive then Answered(TrailStop, old(rows)[i], world.reply(old(ops))) else old(rows)[i]
      ensures accepted == world.reply(old(ops)).Accepted?
    {
      SameRow(rows, i);
      var reply := Send(i, TrailStop);
      accepted := reply.Accepted?;
      if !alive { return; }
      ghost var rows1, trace1 := rows, trace;
      if accepted {
        Store(i, rows[i].(pending := None));
      } else {
        return;
      }
      MovesTransitive(old(rows), old(trace), rows1, trace1, rows, trace);
    }

    /** One scale-out step; `true` when the next one may follow. */
    method ApplyStep(i: nat, step: ScaleStep) returns (next: bool)
      requires alive && Valid() && i < |rows| && rows[i].status == Open && !rows[i].latched
      modifies `rows, `trace, `ops, `alive, `raised
      ensures Valid() && Moves(old(rows), old(trace), rows, trace)
      ensures rows == old(rows)[i := rows[i]]
      ensures rows[i] == if alive then StepAnswered(step, old(rows)[i], world.reply(old(ops))) else old(rows)[i]
      ensures next == (step == MarkOnly || world.reply(old(ops)).Accepted?)
    {
      match step {
        case Part => next := ClosePart(i);
        case Trail => next := MoveTrail(i);
        case MarkOnly =>
          next := true;
          Store(i, rows[i]);
      }
    }

    method ScaleOut(i: nat, steps: seq<ScaleStep>)
      requires alive && Valid() && i < |rows| && rows[i].status == Open && !rows[i].latched
      modifies `rows, `trace, `ops, `alive, `raised
      ensures Valid() && Moves(old(rows), old(trace), rows, trace) && rows == old(rows)[i := rows[i]]
    {
      SameRow(rows, i);
      var n, next := 0, true;
      while n < |steps| && next && alive
        invariant 0 <= n <= |steps|
        invariant Valid() && Moves(old(rows), old(trace), rows, trace) && rows == old(rows)[i := rows[i]]
        invariant alive && next ==> rows[i].status == Open && !rows[i].latched
        decreases |steps| - n
      {
        ghost var rows1, trace1 := rows, trace;
        next := ApplyStep(i, steps[n]);
        MovesTransitive(old(rows), old(trace), rows1, trace1, rows, trace);
        n := n + 1;
      }
    }

    /** A resting limit always has its order id, so nothing is ever marked cancelled without asking the broker. */
    method Cancel(i: nat)
      requires alive && Valid() && i < |rows| && rows[i].status == PendingLimit && !rows[i].latched
      modifies `rows, `trace, `ops, `alive, `raised
      ensures Valid() && Moves(old(rows), old(trace), rows, trace)
      ensures rows == old(rows)[i := rows[i]]
      ensures rows[i] == if alive then Answered(CancelLimit, old(rows)[i], world.reply(old(ops))) else old(rows)[i]
      ensures AskedSince(old(trace), trace, old(rows)[i].client, CancelLimit)
      ensures Called(world, old(ops), old(trace), ops, trace, alive, raised)
    {
      assert RowOk(trace, rows[i]);
      if rows[i].order.None? {
        assert false;
      }
      ghost var before := trace;
      var reply := Send(i, CancelLimit);
      if !alive || !reply.Accepted? { return; }
      ghost var ops1 := ops;
      RecordTaken(i, CancelLimit, rows[i].(status := Cancelled, pending := None), before);
      CalledEarlier(world, old(ops), ops1, before, ops, trace, alive, raised);
    }

    // --- all open or resting rows of a tick ------------------------------------------------------------------------

    /** Cancels every resting limit, skipping unsettled ones. */
    method CancelAll() returns (touched: set<int>)
      requires alive && Valid()
      modifies `rows, `trace, `ops, `alive, `raised
      ensures Valid() && Moves(old(rows), old(trace), rows, trace)
      ensures forall i :: 0 <= i < |rows| && old(rows)[i].status != PendingLimit ==> rows[i] == old(rows)[i]
      ensures Called(world, old(ops), old(trace), ops, trace, alive, raised)
    {
      touched := {};
      StoreCall();
      var i := 0;
      while i < |rows| && alive
        invariant 0 <= i <= |rows|
        invariant Valid() && Moves(old(rows), old(trace), rows, trace)
        invariant forall j :: 0 <= j < |rows| && old(rows)[j].status != PendingLimit ==> rows[j] == old(rows)[j]
        invariant Called(world, old(ops), old(trace), ops, trace, alive, raised)
        decreases |rows| - i
      {
        if rows[i].status == PendingLimit {
          touched := touched + {rows[i].client};
          if !rows[i].latched {
            ghost var rows1, trace1, ops1 := rows, trace, ops;
            Cancel(i);
            MovesTransitive(old(rows), old(trace), rows1, trace1, rows, trace);
            CalledTransitive(world, old(ops), old(trace), ops1, trace1, ops, trace, alive, raised);
          }
        }
        i := i + 1;
      }
    }

    /** Asks the broker to close every open row, skipping unsettled ones. Returns the open rows, and those a close was sent
        for, whatever the broker answered. */
    method CloseAllRows() returns (touched: set<int>, sent: set<int>)
      requires alive && Valid()
      modifies `rows, `trace, `ops, `alive, `raised
      ensures Valid() && Moves(old(rows), old(trace), rows, trace)
      ensures Pursued(old(rows), old(trace), rows, trace)
      ensures alive ==> AllAsked(old(rows), |rows|, old(trace), trace)
      ensures Called(world, old(ops), old(trace), ops, trace, alive, raised)
    {
      touched, sent := {}, {};
      StoreCall();
      var i := 0;
      while i < |rows| && alive
        invariant 0 <= i <= |rows|
        invariant Valid() && Moves(old(rows), old(trace), rows, trace)
        invariant forall j :: i <= j < |rows| ==> rows[j] == old(rows)[j]
        invariant Pursued(old(rows), old(trace), rows, trace)
        invariant alive ==> AllAsked(old(rows), i, old(trace), trace)
        invariant Called(world, old(ops), old(trace), ops, trace, alive, raised)
        decreases |rows| - i
      {
        if rows[i].status == Open {
          touched := touched + {rows[i].client};
        }
        ghost var rows1, trace1, ops1 := rows, trace, ops;
        if Settleable(rows[i]) {
          sent := sent + {rows[i].client};
          var _ := Close(i);
          AskedEarlier(old(trace), trace1, trace, old(rows)[i].client, CloseAll);
          AskedIsPursued(rows1, trace1, rows, trace, i);
          MovesTransitive(old(rows), old(trace), rows1, trace1, rows, trace);
          PursuedTransitive(old(rows), old(trace), rows1, trace1, rows, trace);
          CalledTransitive(world, old(ops), old(trace), ops1, trace1, ops, trace, alive, raised);
        }
        AllAskedNext(old(rows), i, old(trace), trace1, trace);
        i := i + 1;
      }
    }

    /** A flatten: every resting limit cancelled and every open row closed. */
    method CloseRows() returns (touched: set<int>)
      requires alive && Valid()
      modifies `rows, `trace, `ops, `alive, `raised
      ensures Valid() && Moves(old(rows), old(trace), rows, trace)
      ensures Pursued(old(rows), old(trace), rows, trace)
      ensures alive ==> AllAsked(old(rows), |rows|, old(trace), trace)
      ensures Called(world, old(ops), old(trace), ops, trace, alive, raised)
    {
      touched := CancelAll();
      if !alive { return; }
      ghost var rows1, trace1, ops1 := rows, trace, ops;
      var more, _ := CloseAllRows();
      touched := touched + more;
      MovesTransitive(old(rows), old(trace), rows1, trace1, rows, trace);
      CalledTransitive(world, old(ops), old(trace), ops1, trace1, ops, trace, alive, raised);
      PursuedTransitive(old(rows), old(trace), rows1, trace1, rows, trace);
      forall i | 0 <= i < |rows| && alive && Settleable(old(rows)[i])
        ensures AskedSince(old(trace), trace, old(rows)[i].client, CloseAll)
      {
        AskedEarlier(old(trace), trace1, trace, old(rows)[i].client, CloseAll);
      }
    }

    method ExpireLimits(input: TickInput)
      requires alive && Valid()
      modifies `rows, `trace, `ops, `alive, `raised
      ensures Valid() && Moves(old(rows), old(trace), rows, trace)
    {
      StoreCall();
      var i := 0;
      while i < |rows| && alive
        invariant 0 <= i <= |rows|
        invariant Valid() && Moves(old(rows), old(trace), rows, trace)
        decreases |rows| - i
      {
        if rows[i].status == PendingLimit && !rows[i].latched && input.expired(rows[i].client) {
          ghost var rows1, trace1 := rows, trace;
          Cancel(i);
          MovesTransitive(old(rows), old(trace), rows1, trace1, rows, trace);
        }
        i := i + 1;
      }
    }

    // --- reconciliation --------------------------------------------------------------------------------------------

    method ReconcileLimit(i: nat, snap: Snapshot)
      requires alive && Valid() && i < |rows| && Live(rows[i])
      requires rows[i].status == PendingLimit || (rows[i].kind == Limit && rows[i].status in {PendingSend, Unknown})
      modifies `rows, `trace, `ops, `alive, `raised
      ensures Valid() && Moves(old(rows), old(trace), rows, trace) && rows == old(rows)[i := rows[i]]
      ensures rows[i] == if alive then ReconciledRow(old(rows)[i], snap) else old(rows)[i]
    {
      SameRow(rows, i);
      var r := rows[i];
      var filled := TradeByClient(snap.trades, r.client);
      if filled.Some? {
        Settle(i, r.(status := Open, trade := Some(filled.value.id), pending := None, latched := false));
        return;
      }
      if snap.orders.None? {
        return;
      }
      var resting := RestingFor(snap.orders.value, r);
      if resting.Some? {
        if r.status != PendingLimit {
          Store(i, r.(status := PendingLimit, order := Some(resting.value.order)));
        }
        return;
      }
      match snap.lookup(r.client) {
        case LookupFailed =>
        case FoundTrade(id) =>
          Settle(i, r.(status := ClosedAtBroker, trade := Some(id), pending := None, latched := false));
        case NoTrade => Settle(i, r.(status := Cancelled, pending := None, latched := false));
      }
    }

    method ReconcileOpen(i: nat, snap: Snapshot)
      requires alive && Valid() && i < |rows| && rows[i].status == Open
      modifies `rows, `trace, `ops, `alive, `raised
      ensures Valid() && Moves(old(rows), old(trace), rows, trace) && rows == old(rows)[i := rows[i]]
      ensures rows[i] == if alive then ReconciledRow(old(rows)[i], snap) else old(rows)[i]
    {
      SameRow(rows, i);
      var r := rows[i];
      var trade := TradeById(snap.trades, r.trade);
      if trade.None? {
        Settle(i, r.(status := if r.pending == Some(CloseAll) then Closed else ClosedAtBroker, pending := None,
                     latched := false));
        return;
      }
      if r.latched && r.pending == Some(Breakeven) && trade.value.atBreakeven {
        Settle(i, r.(pending := None, latched := false));
      }
    }

    method ReconcileMarket(i: nat, snap: Snapshot)
      requires alive && Valid() && i < |rows| && rows[i].status in {PendingSend, Unknown} && rows[i].kind == Market
      modifies `rows, `trace, `ops, `alive, `raised
      ensures Valid() && Moves(old(rows), old(trace), rows, trace) && rows == old(rows)[i := rows[i]]
      ensures rows[i] == if alive then ReconciledRow(old(rows)[i], snap) else old(rows)[i]
    {
      SameRow(rows, i);
      var r := rows[i];
      var found := TradeByClient(snap.trades, r.client);
      if found.Some? {
        Store(i, r.(status := Open, trade := Some(found.value.id)));
        return;
      }
      match snap.lookup(r.client) {
        case FoundTrade(id) => Store(i, r.(status := ClosedAtBroker, trade := Some(id)));
        case _ =>
      }
    }

    method ReconcileRow(i: nat, snap: Snapshot)
      requires alive && Valid() && i < |rows| && Live(rows[i])
      modifies `rows, `trace, `ops, `alive, `raised
      ensures Valid() && Moves(old(rows), old(trace), rows, trace) && rows == old(rows)[i := rows[i]]
      ensures rows[i] == if alive then ReconciledRow(old(rows)[i], snap) else old(rows)[i]
    {
      if rows[i].status == PendingLimit || (rows[i].kind == Limit && rows[i].status in {PendingSend, Unknown}) {
        ReconcileLimit(i, snap);
      } else if rows[i].status == Open {
        ReconcileOpen(i, snap);
      } else {
        ReconcileMarket(i, snap);
      }
    }

    /** The block takes effect in memory before it is stored, and also when storing it fails. */
    method SetBlocked(reason: Option<Block>)
      requires alive && Valid()
      modifies `trace, `blocked, `blockedFlag, `ops, `alive, `raised
      ensures Valid() && Moves(rows, old(trace), rows, trace) && (alive ==> trace == old(trace)) && blocked == reason
    {
      blocked := reason;
      StoreCall();
      if alive { blockedFlag := reason; }
    }

    method MatchRows(snap: Snapshot)
      requires alive && Valid()
      modifies `rows, `trace, `ops, `alive, `raised
      ensures Valid() && Moves(old(rows), old(trace), rows, trace) && Pursued(old(rows), old(trace), rows, trace)
      ensures alive ==> AllMatched(old(rows), rows, snap)
    {
      StoreCall();
      var i := 0;
      while i < |rows| && alive
        invariant 0 <= i <= |rows|
        invariant Valid() && Moves(old(rows), old(trace), rows, trace) && Pursued(old(rows), old(trace), rows, trace)
        invariant alive ==> forall j :: 0 <= j < i ==>
                    rows[j] == if Live(old(rows)[j]) then ReconciledRow(old(rows)[j], snap) else old(rows)[j]
        invariant forall j :: i <= j < |rows| ==> rows[j] == old(rows)[j]
        decreases |rows| - i
      {
        ghost var rows1, trace1 := rows, trace;
        if Live(rows[i]) {
          ReconcileRow(i, snap);
          MovesTransitive(old(rows), old(trace), rows1, trace1, rows, trace);
          ReconcilePursues(rows1, trace1, rows, trace, i, snap);
          PursuedTransitive(old(rows), old(trace), rows1, trace1, rows, trace);
        }
        assert forall j :: 0 <= j < |rows| && j != i ==> rows[j] == rows1[j];
        i := i + 1;
      }
    }

    /** Honours a drift-clear request on a verified match. When its transaction fails nothing changes and nothing is
        raised. */
    method DriftClearRequest(clears: bool, verified: bool) returns (cleared: bool)
      requires alive && Valid()
      modifies `trace, `blocked, `blockedFlag, `ops, `alive, `raised
      ensures Valid() && Moves(rows, old(trace), rows, trace) && !raised
      ensures cleared ==> clears && verified && old(blocked) == Some(Drift) && blocked.None? && blockedFlag.None?
      ensures !cleared ==> blocked == old(blocked) && blockedFlag == old(blockedFlag)
      ensures clears && verified && old(blocked) == Some(Drift) && world.fate(old(ops)).Done? ==> cleared
    {
      cleared := false;
      if clears && verified && blocked == Some(Drift) {
        StoreCall();
        if alive { blocked, blockedFlag, cleared := None, None, true; }
        Catch();
      }
    }

    method UpdateBlock(drift: bool, clears: bool) returns (ghost cleared: bool)
      requires alive && Valid()
      modifies `trace, `blocked, `blockedFlag, `ops, `alive, `raised
      ensures Valid() && Moves(rows, old(trace), rows, trace) && (cleared ==> clears)
      ensures alive ==> blocked == BlockAfter(old(blocked), drift, cleared, UnresolvedIn(rows), UnknownIn(rows))
    {
      cleared := false;
      if drift && blocked != Some(Drift) {
        SetBlocked(Some(Drift));
        if !alive { return; }
      }
      ghost var trace1 := trace;
      var ended := DriftClearRequest(clears, !drift && !UnresolvedIn(rows) && !UnknownIn(rows));
      cleared := ended;
      if !alive { return; }
      assert blocked.None? || blocked.value.Drift? || blocked.value.UnresolvedAction?;
      if blocked != Some(Drift) {
        if UnknownIn(rows) && blocked != Some(UnresolvedAction) {
          SetBlocked(Some(UnresolvedAction));
        } else if !UnknownIn(rows) && blocked == Some(UnresolvedAction) {
          SetBlocked(None);
        }
      }
    }

    /** Match every row against the snapshot just read, then decide what blocks. */
    method Compare(snap: Snapshot, clears: bool) returns (ghost cleared: bool)
      requires alive && Valid()
      modifies `rows, `trace, `blocked, `blockedFlag, `ops, `alive, `raised
      ensures Valid() && Moves(old(rows), old(trace), rows, trace) && Pursued(old(rows), old(trace), rows, trace)
      ensures alive ==> AllMatched(old(rows), rows, snap) && (cleared ==> clears)
      ensures alive ==> blocked == BlockAfter(old(blocked), DriftIn(rows, snap.trades), cleared, UnresolvedIn(rows),
                                              UnknownIn(rows))
    {
      cleared := false;
      MatchRows(snap);
      if !alive { return; }
      ghost var rows1, trace1 := rows, trace;
      cleared := UpdateBlock(DriftIn(rows, snap.trades), clears);
      MovesTransitive(old(rows), old(trace), rows1, trace1, rows, trace);
      PursuedLater(old(rows), old(trace), rows, trace1, trace);
    }

    /** Compare the broker's open trades with the rows; `None` when the read failed. */
    method Reconcile() returns (report: Option<seq<OpenTrade>>)
      requires alive && Valid()
      modifies `rows, `trace, `blocked, `blockedFlag, `ops, `alive, `raised
      ensures Valid() && Narrows(old(rows), rows) && Steady(old(trace), trace)
      ensures Pursued(old(rows), old(trace), rows, trace)
      ensures report.Some? ==> alive && LastSeen(trace) == report
      ensures report.Some? ==> Reconciled(rows, report.value, blocked) && Accounted(rows, trace, blocked)
    {
      report := None;
      var snap := world.read(ops);
      var clears := world.clears(ops);
      BrokerCall();
      if !alive || snap.None? { return; }
      var trades := snap.value.trades;
      NoteKeeps(rows, trace, Seen(trades));
      Appended(trace, Seen(trades));
      trace := trace + [Seen(trades)];
      ghost var was, seen := blocked, trace;
      ghost var cleared := Compare(snap.value, clears);
      PursuedSince(old(rows), old(trace), seen, rows, trace);
      if !alive { return; }
      OpenRowsListed(old(rows), rows, seen, snap.value);
      MatchedMeansReconciled(rows, trades, was, cleared);
      ReconciledAccounts(rows, trace, trades, blocked);
      report := Some(trades);
    }

    // --- one tick --------------------------------------------------------------------------------------------------

    /** The emergency button, or the active emergency of a closing-only router. Never raises. */
    method ProcessRequests(input: TickInput) returns (touched: set<int>, report: Option<seq<OpenTrade>>)
      requires alive && Valid()
      modifies `rows, `trace, `blocked, `blockedFlag, `ops, `alive, `raised
      ensures Valid() && Narrows(old(rows), rows) && Steady(old(trace), trace) && !raised
      ensures Pursued(old(rows), old(trace), rows, trace)
      ensures report.Some? ==> alive && LastSeen(trace) == report && Accounted(rows, trace, blocked)
    {
      touched, report := {}, None;
      StoreCall();
      if alive && (input.flatten || (closingOnly && LiveIn(rows))) {
        touched, report := FlattenRequest(input);
      }
      if !alive {
        touched, report := {}, None;
        Catch();
      }
    }

    method FlattenRequest(input: TickInput) returns (touched: set<int>, report: Option<seq<OpenTrade>>)
      requires alive && Valid()
      modifies `rows, `trace, `blocked, `blockedFlag, `ops, `alive, `raised
      ensures Valid() && Narrows(old(rows), rows) && Steady(old(trace), trace)
      ensures Pursued(old(rows), old(trace), rows, trace)
      ensures alive && report.Some? ==> LastSeen(trace) == report && Accounted(rows, trace, blocked)
    {
      touched := {};
      report := Reconcile();
      if !alive || report.None? { return; }
      ghost var rows1, trace1 := rows, trace;
      touched := CloseRows();
      SteadyTransitive(old(trace), trace1, trace);
      PursuedTransitive(old(rows), old(trace), rows1, trace1, rows, trace);
      AccountedKeeps(rows1, trace1, rows, trace, blocked);
      if alive && !LiveIn(rows) && input.flatten {
        ghost var trace2 := trace;
        StoreCall();
        SteadyTransitive(old(trace), trace2, trace);
        PursuedLater(old(rows), old(trace), rows, trace2, trace);
      }
    }

    /** The requested row, once a reconcile of this tick is known. */
    method CloseRequested(client: int, matches: bool) returns (touched: set<int>)
      requires alive && Valid()
      modifies `rows, `trace, `ops, `alive, `raised
      ensures Valid() && Moves(old(rows), old(trace), rows, trace) && Pursued(old(rows), old(trace), rows, trace)
      ensures matches && CanClose(old(rows), client) && LostClose(old(ops)) ==>
                && raised && ops == old(ops) + 3 && rows == old(rows)
                && trace == old(trace) + [Ask(client, CloseAll, AnswerTo(world.reply(old(ops) + 1)))]
                            + [LostEntry(client, world.reply(old(ops) + 1))]
    {
      touched := {};
      StoreCall();
      if !alive { return; }
      var i := 0;
      while i < |rows| && rows[i].client != client
        invariant 0 <= i <= |rows|
        invariant forall j :: 0 <= j < i ==> rows[j].client != client
      {
        i := i + 1;
      }
      if i == |rows| || rows[i].status != Open || !matches {
        StoreCall();
        return;
      }
      touched := {client};
      if rows[i].latched { return; }
      SameRow(rows, i);
      ghost var rows1, trace1 := rows, trace;
      var reply := Close(i);
      AskedIsPursued(rows1, trace1, rows, trace, i);
      if !alive { return; }
      if !Live(rows[i]) || reply == Refused(false) {
        ghost var rows2, trace2 := rows, trace;
        StoreCall();
        MovesTransitive(rows1, trace1, rows2, trace2, rows, trace);
        PursuedLater(rows1, trace1, rows, trace2, trace);
      }
    }

    /** From this operation on a close is asked for, the broker takes it or its outcome stays unknown, and recording that
        fails. */
    ghost predicate LostClose(n: nat) {
      && world.fate(n).Done? && world.fate(n + 1).Done? && world.fate(n + 2).Fails?
      && (Unclear(world.reply(n + 1)) || world.reply(n + 1).Accepted?)
    }

    /** The operator's manual close. Never raises. */
    method ProcessManualClose(input: TickInput, known: Option<seq<OpenTrade>>)
      returns (touched: set<int>, report: Option<seq<OpenTrade>>)
      requires alive && Valid() && (known.Some? ==> LastSeen(trace) == known && Accounted(rows, trace, blocked))
      modifies `rows, `trace, `blocked, `blockedFlag, `ops, `alive, `raised
      ensures Valid() && Narrows(old(rows), rows) && Steady(old(trace), trace) && !raised
      ensures Pursued(old(rows), old(trace), rows, trace)
      ensures alive && report.Some? ==> LastSeen(trace) == report && Accounted(rows, trace, blocked)
      ensures known.Some? && input.manual.Some? && input.manualMatches && CanClose(old(rows), input.manual.value)
              && world.fate(old(ops)).Done? && LostClose(old(ops) + 1) ==>
                && alive && rows == old(rows) && ops == old(ops) + 4
                && trace == old(trace) + [Ask(input.manual.value, CloseAll, AnswerTo(world.reply(old(ops) + 2)))]
                            + [LostEntry(input.manual.value, world.reply(old(ops) + 2))]
    {
      touched, report := {}, known;
      StoreCall();
      if alive && input.manual.Some? {
        if report.None? { report := Reconcile(); }
        if alive && report.Some? {
          ghost var rows1, trace1 := rows, trace;
          touched := CloseRequested(input.manual.value, input.manualMatches);
          SteadyTransitive(old(trace), trace1, trace);
          PursuedTransitive(old(rows), old(trace), rows1, trace1, rows, trace);
          AccountedKeeps(rows1, trace1, rows, trace, blocked);
        }
      }
      if !alive {
        touched := {};
        Catch();
      }
    }

    /** `_loss_check` once the tracker has decided. What this raises ends the tick. */
    method LossCheck(decision: Ruling) returns (touched: set<int>)
      requires alive && Valid()
      modifies `rows, `trace, `ops, `alive, `raised
      ensures Valid() && Moves(old(rows), old(trace), rows, trace) && Pursued(old(rows), old(trace), rows, trace)
      ensures !decision.flattenRequired ==> alive && rows == old(rows) && trace == old(trace)
      ensures decision.flattenRequired && alive ==> AllAsked(old(rows), |rows|, old(trace), trace)
      ensures Called(world, old(ops), old(trace), ops, trace, alive, raised)
    {
      touched := {};
      if decision.flattenRequired { touched := CloseRows(); }
    }

    /** The close before the weekend. Only the rows a close was sent for are left out of the rest of the tick; a definite
        failure counts as sent. Never raises. */
    method FridayTick(input: TickInput) returns (sent: set<int>)
      requires alive && Valid()
      modifies `rows, `trace, `ops, `alive, `raised
      ensures Valid() && Moves(old(rows), old(trace), rows, trace) && !raised
    {
      sent := {};
      if input.friday && input.quoted {
        var _, closed := CloseAllRows();
        sent := closed;
        if !alive {
          sent := {};
          Catch();
        }
      }
    }

    method ManageRow(i: nat, due: Due)
      requires alive && Valid() && i < |rows| && rows[i].status == Open && !rows[i].latched
      modifies `rows, `trace, `ops, `alive, `raised
      ensures Valid() && Moves(old(rows), old(trace), rows, trace) && rows == old(rows)[i := rows[i]]
    {
      SameRow(rows, i);
      match due {
        case Nothing =>
        case CloseNow => var _ := Close(i);
        case MoveStop => MoveToBreakeven(i);
        case Scale(steps) => ScaleOut(i, steps);
      }
    }

    method ManageRows(input: TickInput, skip: set<int>)
      requires alive && Valid()
      modifies `rows, `trace, `ops, `alive, `raised
      ensures Valid() && Moves(old(rows), old(trace), rows, trace)
    {
      StoreCall();
      var i := 0;
      while i < |rows| && alive
        invariant 0 <= i <= |rows|
        invariant Valid() && Moves(old(rows), old(trace), rows, trace)
        decreases |rows| - i
      {
        if rows[i].status == Open && rows[i].client !in skip && !rows[i].latched {
          ghost var rows1, trace1 := rows, trace;
          ManageRow(i, input.due(rows[i].client));
          MovesTransitive(old(rows), old(trace), rows1, trace1, rows, trace);
        }
        i := i + 1;
      }
    }

    method ManageLocked(input: TickInput, skip: set<int>, known: Option<seq<OpenTrade>>)
      returns (report: Option<seq<OpenTrade>>)
      requires alive && Valid() && (known.Some? ==> LastSeen(trace) == known && Accounted(rows, trace, blocked))
      modifies `rows, `trace, `blocked, `blockedFlag, `ops, `alive, `raised
      ensures Valid() && Narrows(old(rows), rows) && Steady(old(trace), trace)
      ensures alive && report.Some? ==> LastSeen(trace) == report && Accounted(rows, trace, blocked)
    {
      report := known;
      if report.None? { report := Reconcile(); }
      if !alive || report.None? { return; }
      ghost var rows1, trace1 := rows, trace;
      ExpireLimits(input);
      SteadyTransitive(old(trace), trace1, trace);
      if !alive { return; }
      ghost var rows2, trace2 := rows, trace;
      ManageRows(input, skip);
      MovesTransitive(rows1, trace1, rows2, trace2, rows, trace);
      SteadyTransitive(old(trace), trace1, trace);
      AccountedKeeps(rows1, trace1, rows, trace, blocked);
    }

    /** The operator's requests, before anything else in a tick. Never raises. */
    method Requests(input: TickInput) returns (touched: set<int>, report: Option<seq<OpenTrade>>)
      requires alive && Valid()
      modifies `rows, `trace, `blocked, `blockedFlag, `ops, `alive, `raised
      ensures Valid() && Narrows(old(rows), rows) && Steady(old(trace), trace) && !raised
      ensures Pursued(old(rows), old(trace), rows, trace)
      ensures alive && report.Some? ==> LastSeen(trace) == report && Accounted(rows, trace, blocked)
    {
      touched, report := ProcessRequests(input);
      if !alive { return; }
      ghost var rows1, trace1 := rows, trace;
      var more: set<int>;
      more, report := ProcessManualClose(input, report);
      touched := touched + more;
      SteadyTransitive(old(trace), trace1, trace);
      PursuedTransitive(old(rows), old(trace), rows1, trace1, rows, trace);
    }

    /** The loss limit's decision and the close before the weekend, which come after the requests. */
    method LossAndFriday(input: TickInput) returns (touched: set<int>)
      requires alive && Valid()
      modifies `rows, `trace, `ops, `alive, `raised
      ensures Valid() && Moves(old(rows), old(trace), rows, trace)
      ensures alive && input.loss.flattenRequired ==> AllAsked(old(rows), |rows|, old(trace), trace)
    {
      touched := LossCheck(input.loss);
      if !alive { return; }
      ghost var rows1, trace1 := rows, trace;
      var more := FridayTick(input);
      touched := touched + more;
      MovesTransitive(old(rows), old(trace), rows1, trace1, rows, trace);
      if input.loss.flattenRequired { AllAskedStays(old(rows), |rows|, old(trace), trace1, trace); }
    }

    method Begin()
      requires alive && Valid()
      modifies `trace
      ensures Valid() && Steady(old(trace), trace) && LastSeen(trace).None?
    {
      NoteKeeps(rows, trace, Began);
      Appended(trace, Began);
      trace := trace + [Began];
    }

    /** The rest of the pass outside a cycle, once the loss limit has decided. */
    method AfterRequests(input: TickInput, touched: set<int>, known: Option<seq<OpenTrade>>)
      requires alive && Valid() && (known.Some? ==> LastSeen(trace) == known && Accounted(rows, trace, blocked))
      modifies `rows, `trace, `blocked, `blockedFlag, `ops, `alive, `raised
      ensures Valid() && Narrows(old(rows), rows) && Steady(old(trace), trace)
      ensures alive && input.loss.flattenRequired ==> AllAsked(old(rows), |rows|, old(trace), trace)
    {
      var more := LossAndFriday(input);
      if !alive { return; }
      if known.Some? { AccountedKeeps(old(rows), old(trace), rows, trace, blocked); }
      ghost var trace1 := trace;
      var _ := ManageLocked(input, touched + more, known);
      SteadyTransitive(old(trace), trace1, trace);
      if input.loss.flattenRequired { AllAskedStays(old(rows), |rows|, old(trace), trace1, trace); }
    }

    /** The pass outside a cycle. A tick that ends normally and whose loss decision flattens has asked for every row that
        was open with nothing unknown when it began, or has seen it end. */
    method Manage(input: TickInput)
      requires alive && Valid()
      modifies `rows, `trace, `blocked, `blockedFlag, `ops, `alive, `raised
      ensures Valid() && Narrows(old(rows), rows) && Steady(old(trace), trace)
      ensures alive && input.loss.flattenRequired ==> Flattened(old(rows), old(trace), rows, trace)
    {
      Begin();
      ghost var trace1 := trace;
      var touched, report := Requests(input);
      SteadyTransitive(old(trace), trace1, trace);
      if !alive { return; }
      ghost var rows2, trace2 := rows, trace;
      AfterRequests(input, touched, report);
      SteadyTransitive(old(trace), trace2, trace);
      if alive && input.loss.flattenRequired {
        PursuedSince(old(rows), old(trace), trace1, rows2, trace2);
        FlattenedAfter(old(rows), old(trace), rows2, trace2, rows, trace);
      }
    }

    /** The poll between cycles: the operator's requests and nothing else. */
    method Poll(input: TickInput)
      requires alive && Valid()
      modifies `rows, `trace, `blocked, `blockedFlag, `ops, `alive, `raised
      ensures Valid() && Narrows(old(rows), rows) && Steady(old(trace), trace)
    {
      Begin();
      ghost var trace1 := trace;
      var _, report := ProcessRequests(input);
      SteadyTransitive(old(trace), trace1, trace);
      if !alive { return; }
      ghost var trace2 := trace;
      var _, _ := ProcessManualClose(input, report);
      SteadyTransitive(old(trace), trace2, trace);
    }

    // --- routing ---------------------------------------------------------------------------------------------------

    predicate OnInstrument(trades: seq<OpenTrade>) {
      exists i :: 0 <= i < |trades| && trades[i].instrument == EUR_USD
    }

    /** The one live row, when an opposite plan may close it first. */
    method ReversalRow(plan: Plan, trades: seq<OpenTrade>) returns (found: Option<nat>)
      ensures found.Some? ==> found.value < |rows| && rows[found.value].status == Open && !rows[found.value].latched
    {
      if !reversal || |trades| != 1 || trades[0].instrument != EUR_USD {
        return None;
      }
      var i := 0;
      while i < |rows| && !Live(rows[i])
        invariant 0 <= i <= |rows|
      {
        i := i + 1;
      }
      if i == |rows| || !IsOpen(rows[i], trades[0].id) || rows[i].latched || rows[i].side == plan.side {
        return None;
      }
      return if plan.inProfit then Some(i) else None;
    }

    /** The durable row before anything is sent; when it cannot be stored nothing is sent. */
    method RecordIntent(plan: Plan)
      requires alive && Valid() && !HasRow(rows, plan.client) && !LiveIn(rows) && FlatSnapshot(trace)
      modifies `rows, `trace, `ops, `alive, `raised
      ensures Valid() && old(trace) <= trace && ops == old(ops) + 1 && alive == world.fate(old(ops)).Done?
      ensures alive ==> rows == old(rows) + [NewRow(plan)] && trace == old(trace) + [Intent(plan.client)]
      ensures alive ==> Submit(plan.client) !in trace && FlatSnapshot(trace)
      ensures !alive ==> rows == old(rows)
    {
      StoreCall();
      if !alive { return; }
      IntentKeeps(rows, trace, NewRow(plan));
      Appended(trace, Intent(plan.client));
      trace, rows := trace + [Intent(plan.client)], rows + [NewRow(plan)];
    }

    /** What the broker's answer makes of the row just submitted. */
    method RecordOutcome(plan: Plan, reply: Reply)
      requires alive && Valid() && rows != [] && rows[|rows| - 1] == NewRow(plan)
      modifies `rows, `trace, `ops, `alive, `raised
      ensures Valid() && old(trace) <= trace
      ensures rows == old(rows)[..|old(rows)| - 1] + [if alive then SubmittedRow(plan, reply) else NewRow(plan)]
      ensures alive ==> trace == old(trace) + EndedBy(NewRow(plan), SubmittedRow(plan, reply))
    {
      LastRow(rows, SubmittedRow(plan, reply));
      LastRow(rows, NewRow(plan));
      if reply.Accepted? {
        BrokerCall();
        if !alive { return; }
      }
      Store(|rows| - 1, SubmittedRow(plan, reply));
    }

    /** The write-ahead intent, the one submit of this client id, and what its answer makes of the row. When that cannot
        be stored the row stays as it was inserted. */
    method SendOrder(plan: Plan)
      requires alive && Valid() && !HasRow(rows, plan.client) && !LiveIn(rows) && FlatSnapshot(trace)
      modifies `rows, `trace, `ops, `alive, `raised
      ensures Valid() && old(trace) <= trace
      ensures alive ==>
                var row := SubmittedRow(plan, world.reply(old(ops) + 1));
                trace == old(trace) + [Intent(plan.client)] + [Submit(plan.client)] + EndedBy(NewRow(plan), row)
      ensures alive ==> rows == old(rows) + [SubmittedRow(plan, world.reply(old(ops) + 1))]
      ensures !alive ==> rows == old(rows) || rows == old(rows) + [NewRow(plan)]
    {
      RecordIntent(plan);
      if !alive { return; }
      assert rows[..|rows| - 1] == old(rows);
      SubmitKeeps(rows, trace, plan.client);
      trace := trace + [Submit(plan.client)];
      var reply := world.reply(ops);
      BrokerCall();
      if alive { RecordOutcome(plan, reply); }
    }

    /** Close the profitable opposite trade, then require a fresh read that shows no trade at all. */
    method CloseOpposite(plan: Plan, i: nat) returns (flat: bool)
      requires alive && Valid() && i < |rows| && rows[i].status == Open && !rows[i].latched
      modifies `rows, `trace, `blocked, `blockedFlag, `ops, `alive, `raised
      ensures Valid() && Narrows(old(rows), rows) && Steady(old(trace), trace)
      ensures flat ==> alive && !LiveIn(rows) && FlatSnapshot(trace) && LastSeen(trace) == Some([])
    {
      flat := false;
      var reply := Close(i);
      if !alive || Live(rows[i]) { return; }
      ghost var trace1 := trace;
      var report := Reconcile();
      SteadyTransitive(old(trace), trace1, trace);
      if !alive || report.None? || blocked.Some? { return; }
      if LiveIn(rows) || OnInstrument(report.value) || !plan.resized { return; }
      NothingSeen(rows, report.value);
      ghost var trace2 := trace;
      var _ := LossCheck(plan.lossAgain);
      SteadyTransitive(old(trace), trace2, trace);
      flat := alive && plan.lossAgain.entryAllowed;
    }

    /** The way to a flat account for a plan against the one open row. */
    method Reverse(plan: Plan, trades: seq<OpenTrade>) returns (flat: bool)
      requires alive && Valid()
      modifies `rows, `trace, `blocked, `blockedFlag, `ops, `alive, `raised
      ensures Valid() && Narrows(old(rows), rows) && Steady(old(trace), trace)
      ensures flat ==> alive && !LiveIn(rows) && FlatSnapshot(trace) && LastSeen(trace) == Some([])
    {
      flat := false;
      var reversing := ReversalRow(plan, trades);
      if reversing.None? || !plan.prepared || !plan.sized { return; }
      var _ := LossCheck(plan.loss);
      if !alive || !plan.loss.entryAllowed { return; }
      ghost var trace1 := trace;
      flat := CloseOpposite(plan, reversing.value);
      SteadyTransitive(old(trace), trace1, trace);
    }

    /** Everything that must hold before an entry is sent. */
    method MayEnter(plan: Plan, known: Option<seq<OpenTrade>>) returns (ok: bool)
      requires alive && Valid() && (known.Some? ==> LastSeen(trace) == known && Accounted(rows, trace, blocked))
      modifies `rows, `trace, `blocked, `blockedFlag, `ops, `alive, `raised
      ensures Valid() && Narrows(old(rows), rows) && Steady(old(trace), trace)
      ensures ok ==> alive && !LiveIn(rows) && FlatSnapshot(trace)
    {
      ok := false;
      var report := known;
      if report.None? {
        report := Reconcile();
        if !alive || report.None? { return; }
      }
      if blocked.Some? || UnresolvedIn(rows) || !plan.allowed { return; }
      ghost var rows1, trace1 := rows, trace;
      if LiveIn(rows) || OnInstrument(report.value) {
        ok := Reverse(plan, report.value);
        SteadyTransitive(old(trace), trace1, trace);
        return;
      }
      if !plan.prepared || !plan.sized { return; }
      var _ := LossCheck(plan.loss);
      SteadyTransitive(old(trace), trace1, trace);
      AccountedKeeps(rows1, trace1, rows, trace, blocked);
      ok := alive && plan.loss.entryAllowed;
      if ok { AccountedFlat(rows, trace); }
    }

    method Route(plan: Plan, known: Option<seq<OpenTrade>>)
      requires alive && Valid() && (known.Some? ==> LastSeen(trace) == known && Accounted(rows, trace, blocked))
      modifies `rows, `trace, `blocked, `blockedFlag, `ops, `alive, `raised
      ensures Valid() && old(trace) <= trace
      ensures |old(rows)| <= |rows| && Narrows(old(rows), rows[..|old(rows)|])
    {
      if !plan.candidate || closingOnly || HasRow(rows, plan.client) || plan.weekend { return; }
      ghost var before := rows;
      var ok := MayEnter(plan, known);
      if !ok || !plan.anchored || !plan.approved { return; }
      assert forall i :: 0 <= i < |rows| ==> rows[i].client == before[i].client;
      SendOrder(plan);
    }

    /** The management of what is held, then the routing of the plan. */
    method ManageThenRoute(input: TickInput, skip: set<int>, plan: Plan, known: Option<seq<OpenTrade>>)
      requires alive && Valid() && (known.Some? ==> LastSeen(trace) == known && Accounted(rows, trace, blocked))
      modifies `rows, `trace, `blocked, `blockedFlag, `ops, `alive, `raised
      ensures Valid() && old(trace) <= trace
      ensures |old(rows)| <= |rows| && Narrows(old(rows), rows[..|old(rows)|])
    {
      var report := known;
      if exists i :: 0 <= i < |rows| && rows[i].status in {Open, PendingLimit} {
        report := ManageLocked(input, skip, report);
        assert rows[..|old(rows)|] == rows;
        if !alive { return; }
      }
      ghost var rows1 := rows;
      Route(plan, report);
      NarrowsTransitive(old(rows), rows1, rows[..|rows1|]);
    }

    /** The rest of a cycle's pass, once the loss limit has decided. */
    method ManageAndRoute(input: TickInput, plan: Plan, touched: set<int>, known: Option<seq<OpenTrade>>)
      requires alive && Valid() && (known.Some? ==> LastSeen(trace) == known && Accounted(rows, trace, blocked))
      modifies `rows, `trace, `blocked, `blockedFlag, `ops, `alive, `raised
      ensures Valid() && old(trace) <= trace
      ensures |old(rows)| <= |rows| && Narrows(old(rows), rows[..|old(rows)|])
      ensures alive && input.loss.flattenRequired ==> AllAsked(old(rows), |old(rows)|, old(trace), trace)
    {
      var more := LossAndFriday(input);
      assert rows[..|old(rows)|] == rows;
      if !alive { return; }
      if known.Some? { AccountedKeeps(old(rows), old(trace), rows, trace, blocked); }
      ghost var rows1, trace1 := rows, trace;
      ManageThenRoute(input, touched + more, plan, known);
      NarrowsTransitive(old(rows), rows1, rows[..|rows1|]);
      if input.loss.flattenRequired { AllAskedStays(old(rows), |old(rows)|, old(trace), trace1, trace); }
    }

    /** The pass of a cycle: the same requests and checks first, then the routing of its plan. */
    method OnCycle(input: TickInput, plan: Plan)
      requires alive && Valid()
      modifies `rows, `trace, `blocked, `blockedFlag, `ops, `alive, `raised
      ensures Valid() && old(trace) <= trace && |old(rows)| <= |rows|
      ensures alive && input.loss.flattenRequired ==>
                Flattened(old(rows), old(trace), rows[..|old(rows)|], trace)
    {
      Begin();
      ghost var trace1 := trace;
      var touched, report := Requests(input);
      if !alive { return; }
      ghost var rows2, trace2 := rows, trace;
      ManageAndRoute(input, plan, touched, report);
      if alive && input.loss.flattenRequired {
        PursuedSince(old(rows), old(trace), trace1, rows2, trace2);
        FlattenedAfter(old(rows), old(trace), rows2, trace2, rows[..|rows2|], trace);
      }
    }

    // --- operator and process --------------------------------------------------------------------------------------

    /** The operator drops the latches of open rows whose action never became known. */
    method ClearUnresolved()
      requires alive && Valid()
      modifies `rows, `trace, `blocked, `blockedFlag, `ops, `alive, `raised
      ensures Valid() && Moves(old(rows), old(trace), rows, trace)
    {
      StoreCall();
      var i := 0;
      while i < |rows| && alive
        invariant 0 <= i <= |rows|
        invariant Valid() && Moves(old(rows), old(trace), rows, trace)
        decreases |rows| - i
      {
        if rows[i].status == Open && rows[i].latched {
          ghost var rows1, trace1 := rows, trace;
          ReleaseRow(i);
          MovesTransitive(old(rows), old(trace), rows1, trace1, rows, trace);
        }
        i := i + 1;
      }
      if alive && blocked == Some(UnresolvedAction) {
        ghost var rows1, trace1 := rows, trace;
        SetBlocked(None);
        MovesTransitive(old(rows), old(trace), rows1, trace1, rows, trace);
      }
    }

    method ReleaseRow(i: nat)
      requires alive && Valid() && i < |rows| && rows[i].status == Open
      modifies `rows, `trace, `ops, `alive, `raised
      ensures Valid() && Moves(old(rows), old(trace), rows, trace)
      ensures rows == if alive then old(rows)[i := old(rows)[i].(pending := None, latched := false)] else old(rows)
    {
      var r := rows[i].(pending := None, latched := false);
      assert RowOk(trace, rows[i]);
      StoreCall();
      if alive {
        SettleMoves(rows, trace, i, r, Release(r.client));
        trace := trace + [Release(r.client)] + EndedBy(rows[i], r);
        rows := rows[i := r];
      }
    }

    method ClearDrift()
      requires alive && Valid()
      modifies `trace, `blocked, `blockedFlag, `ops, `alive, `raised
      ensures Valid()
    {
      SetBlocked(None);
    }

    /** An unresolved submission is released only when a fresh read has no trade of that client id. */
    method MarkNotSent(client: int)
      requires alive && Valid()
      modifies `rows, `trace, `ops, `alive, `raised
      ensures Valid() && Narrows(old(rows), rows)
    {
      var i := 0;
      while i < |rows| && rows[i].client != client
        invariant 0 <= i <= |rows|
      {
        i := i + 1;
      }
      if i == |rows| || rows[i].status !in {PendingSend, Unknown} { return; }
      var snap := world.read(ops);
      BrokerCall();
      if !alive || snap.None? { return; }
      if TradeByClient(snap.value.trades, client).Some? || snap.value.lookup(client) != NoTrade { return; }
      Store(i, rows[i].(status := Rejected));
    }

    /** A new process: it keeps the store and nothing else. */
    method Restart(closing: bool)
      requires Valid()
      modifies `blocked, `alive, `raised, `closingOnly
      ensures Valid() && alive && blocked == blockedFlag && closingOnly == closing
    {
      blocked, alive, raised, closingOnly := blockedFlag, true, false, closing;
    }

    /** One event of a run. A process that stopped does nothing until it is started again; an exception that leaves the
        router is swallowed by its caller, and the process goes on. */
    method Handle(e: Event)
      requires Valid() && !raised
      modifies this
      ensures Valid() && !raised
    {
      match e {
        case Restarted(closing) => Restart(closing);
        case Cycle(input, plan) => if alive { OnCycle(input, plan); }
        case ManageTick(input) => if alive { Manage(input); }
        case RequestPoll(input) => if alive { Poll(input); }
        case Released => if alive { ClearUnresolved(); }
        case DriftCleared => if alive { ClearDrift(); }
        case NotSent(client) => if alive { MarkNotSent(client); }
      }
      Catch();
    }
  }

  /** Any run: ticks, polls, operator calls, stops and restarts in any order, against any broker and any store. */
  method Run(world: World, reversal: bool, events: seq<Event>)
    returns (rows: seq<Row>, blocked: Option<Block>, ghost trace: Trace)
    ensures Good(rows, trace)
    ensures forall i, j :: 0 <= i < j < |rows| ==> !(Live(rows[i]) && Live(rows[j])) && rows[i].client != rows[j].client
    ensures forall i :: 0 <= i < |rows| && rows[i].status == PendingLimit ==> rows[i].order.Some?
  {
    var router := new BrokerDemoRouter(world, reversal, false);
    for n := 0 to |events|
      invariant fresh(router) && router.Valid() && !router.raised
    {
      router.Handle(events[n]);
    }
    rows, blocked, trace := router.rows, router.blocked, router.trace;
    assert forall i :: 0 <= i < |rows| ==> RowOk(trace, rows[i]);
  }

  /** The lost records are needed in what lets a close be repeated: in any state with an open row whose manual close is
      requested, when the broker takes that close, or its outcome stays unknown, and recording this is the one store call
      to fail, the manual close swallows the failure and the loss limit's flatten of the same tick closes again. */
  method FailedRecordIsAskedAgain(router: BrokerDemoRouter, input: TickInput, report: seq<OpenTrade>, client: int)
    requires router.alive && router.Valid() && LastSeen(router.trace) == Some(report)
    requires Accounted(router.rows, router.trace, router.blocked) && CanClose(router.rows, client)
    requires input.manual == Some(client) && input.manualMatches && input.loss.flattenRequired
    requires router.world.fate(router.ops).Done? && router.LostClose(router.ops + 1)
    requires Smooth(router.world, router.ops + 4)
    modifies router
    ensures router.Valid() && router.alive
    ensures var answer := AnswerTo(router.world.reply(old(router.ops) + 2));
            answer != Failed && exists b :: ClosedTwice(router.trace, |old(router.trace)|, b, client, answer)
  {
    ghost var t0, lost := router.trace, LostEntry(client, router.world.reply(router.ops + 2));
    var _, _ := router.ProcessManualClose(input, Some(report));
    ghost var t1 := router.trace;
    var _ := router.LossCheck(input.loss);
    AllAskedOne(old(router.rows), t1, router.trace, client);
    ClosesAgain(t0, t1, router.trace, client, AnswerTo(router.world.reply(old(router.ops) + 2)), lost);
  }
}
