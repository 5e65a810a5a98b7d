/** The values the broker-demo router works on: what the world answers, what each answer and each snapshot makes of a row,
    and what a tick keeps about its rows (execution/broker_demo_router.py). */
module RouterRows {
  import opened Maybe
  import opened RouterTrace
  import DailyLoss

  datatype Block = Drift | UnresolvedAction

  /** The broker's answer to an order or an action: `Lost` covers every outcome that is not known. */
  datatype Reply = Accepted(ref: int) | Rested(ref: int) | Refused(gone: bool) | Definite | Lost

  datatype Lookup = FoundTrade(id: int) | NoTrade | LookupFailed
  datatype Resting = Resting(order: int, client: Option<int>)
  datatype Snapshot = Snapshot(trades: seq<OpenTrade>, orders: Option<seq<Resting>>, lookup: int -> Lookup)

  /** A store call that fails raises an exception; a failing broker call is one of the broker's answers. */
  datatype Fate = Done | Fails | Stops

  /** What the world does at each numbered operation: replies, reads, whether a drift-clear request bound to the current
      episode is stored, and whether the operation goes through. */
  datatype World = World(reply: nat -> Reply, read: nat -> Option<Snapshot>, clears: nat -> bool, fate: nat -> Fate)

  ghost predicate Smooth(world: World, from: nat) { forall k :: from <= k ==> world.fate(k) == Done }

  datatype Due = Nothing | CloseNow | MoveStop | Scale(steps: seq<ScaleStep>)
  datatype ScaleStep = Part | Trail | MarkOnly

  /** A decision of the loss limit. One that flattens never allows an entry (DailyLossLaws.FlattenRefusesEntries). */
  type Ruling = d: DailyLoss.Decision | d.flattenRequired ==> !d.entryAllowed
    witness DailyLoss.Refusal(DailyLoss.Unavailable)

  datatype Plan = Plan(client: int, side: Side, kind: OrderKind, scaled: bool, candidate: bool, weekend: bool,
                       allowed: bool, prepared: bool, sized: bool, loss: Ruling, inProfit: bool,
                       resized: bool, lossAgain: Ruling, anchored: bool, approved: bool)

  /** `loss` is the tracker's decision in this tick; without a tracker it allows everything. */
  datatype TickInput = TickInput(flatten: bool, manual: Option<int>, manualMatches: bool, loss: Ruling,
                                 friday: bool, quoted: bool, due: int -> Due, expired: int -> bool)

  // --- the broker's view of a row ----------------------------------------------------------------------------------

  function TradeById(trades: seq<OpenTrade>, id: Option<int>): (r: Option<OpenTrade>)
    ensures r.Some? ==> r.value in trades && id == Some(r.value.id)
    ensures r.None? ==> forall i :: 0 <= i < |trades| ==> id != Some(trades[i].id)
  {
    if trades == [] then None
    else if id == Some(trades[|trades| - 1].id) then Some(trades[|trades| - 1])
    else TradeById(trades[..|trades| - 1], id)
  }

  function TradeByClient(trades: seq<OpenTrade>, client: int): (r: Option<OpenTrade>)
    ensures r.Some? ==> r.value in trades && r.value.client == Some(client)
  {
    if trades == [] then None
    else if trades[|trades| - 1].client == Some(client) then Some(trades[|trades| - 1])
    else TradeByClient(trades[..|trades| - 1], client)
  }

  function RestingFor(orders: seq<Resting>, r: Row): Option<Resting> {
    if orders == [] then None
    else
      var last := orders[|orders| - 1];
      if last.client == Some(r.client) || r.order == Some(last.order) then Some(last)
      else RestingFor(orders[..|orders| - 1], r)
  }

  /** The outcome of an action is not known from this answer. */
  predicate Unclear(reply: Reply) { reply.Lost? || reply.Rested? }

  /** What the answer to an action makes of its row. */
  function Answered(action: Action, r: Row, reply: Reply): Row {
    if Unclear(reply) then WithLatch(r, action)
    else match (action, reply)
         case (CloseAll, Accepted(_)) => r.(status := Closed, pending := None)
         case (CloseAll, Refused(gone)) => if gone then r.(status := ClosedAtBroker, pending := None) else r
         case (PartialClose, Accepted(_)) => r.(pending := None)
         case (PartialClose, Refused(gone)) => if gone then r.(status := ClosedAtBroker, pending := None) else r
         case (TrailStop, Accepted(_)) => r.(pending := None)
         case (CancelLimit, Accepted(_)) => r.(status := Cancelled, pending := None)
         case _ => r
  }

  function StepAnswered(step: ScaleStep, r: Row, reply: Reply): Row {
    match step
    case Part => Answered(PartialClose, r, reply)
    case Trail => Answered(TrailStop, r, reply)
    case MarkOnly => r
  }

  function AnswerTo(reply: Reply): Answer {
    match reply
    case Accepted(_) => Taken
    case Refused(_) => Failed
    case Definite => Failed
    case _ => Unheard
  }

  /** What a failing store call leaves of a close whose answer it was to record. */
  function LostEntry(client: int, reply: Reply): Entry {
    if Unclear(reply) then RecordFailed(client) else Unrecorded(client)
  }

  /** What one reconcile makes of a live row. */
  function ReconciledRow(r: Row, snap: Snapshot): Row {
    var mine := TradeByClient(snap.trades, r.client);
    if r.status == PendingLimit || (r.kind == Limit && r.status in {PendingSend, Unknown}) then
      if mine.Some? then r.(status := Open, trade := Some(mine.value.id), pending := None, latched := false)
      else if snap.orders.None? then r
      else
        var resting := RestingFor(snap.orders.value, r);
        if resting.Some? then
          (if r.status == PendingLimit then r else r.(status := PendingLimit, order := Some(resting.value.order)))
        else match snap.lookup(r.client)
             case LookupFailed => r
             case FoundTrade(id) =>
               r.(status := ClosedAtBroker, trade := Some(id), pending := None, latched := false)
             case NoTrade => r.(status := Cancelled, pending := None, latched := false)
    else if r.status == Open then
      var trade := TradeById(snap.trades, r.trade);
      if trade.None? then
        r.(status := if r.pending == Some(CloseAll) then Closed else ClosedAtBroker, pending := None, latched := false)
      else if r.latched && r.pending == Some(Breakeven) && trade.value.atBreakeven then
        r.(pending := None, latched := false)
      else r
    else if mine.Some? then r.(status := Open, trade := Some(mine.value.id))
    else match snap.lookup(r.client)
         case FoundTrade(id) => r.(status := ClosedAtBroker, trade := Some(id))
         case _ => r
  }

  lemma OpenIsListed(r: Row, snap: Snapshot)
    requires BrokerIds(r) && ReconciledRow(r, snap).status == Open
    requires Live(r)
    ensures ReconciledRow(r, snap).trade.Some? && Listed(snap.trades, ReconciledRow(r, snap).trade.value)
  {}

  /** Drift blocks first and is only lifted by a request on a verified match; an unknown action blocks until settled. */
  function BlockAfter(blocked: Option<Block>, drift: bool, clears: bool, unresolved: bool, unknown: bool): Option<Block> {
    var b1 := if drift then Some(Drift) else blocked;
    var b2 := if clears && b1 == Some(Drift) && !drift && !unresolved && !unknown then None else b1;
    if b2 == Some(Drift) then b2
    else if unknown then Some(UnresolvedAction)
    else None
  }

  /** The row of a submitted order after the broker's answer. */
  function SubmittedRow(plan: Plan, reply: Reply): Row {
    var row := NewRow(plan);
    match reply
    case Accepted(ref) => row.(status := Open, trade := Some(ref))
    case Rested(ref) => row.(status := if plan.kind == Limit then PendingLimit else Unknown, order := Some(ref))
    case Lost => row.(status := Unknown)
    case _ => row.(status := Rejected)
  }

  function NewRow(plan: Plan): Row {
    Row(plan.client, plan.kind, plan.side, plan.scaled, PendingSend, None, None, None, false)
  }

  ghost predicate AskedSince(t0: Trace, t1: Trace, client: int, action: Action) {
    exists k :: |t0| <= k < |t1| && t1[k].Ask? && t1[k].client == client && t1[k].action == action
  }

  lemma AskedEarlier(t0: Trace, t1: Trace, t2: Trace, client: int, action: Action)
    requires t0 <= t1 && AskedSince(t1, t2, client, action)
    ensures AskedSince(t0, t2, client, action)
  {}

  lemma AskedStays(t0: Trace, t1: Trace, t2: Trace, client: int, action: Action)
    requires t1 <= t2 && AskedSince(t0, t1, client, action)
    ensures AskedSince(t0, t2, client, action)
  {
    var k :| |t0| <= k < |t1| && t1[k].Ask? && t1[k].client == client && t1[k].action == action;
    assert t2[k] == t1[k];
  }

  /** Every row that was open with nothing unknown is still so, was asked to close, or is over. */
  ghost predicate Pursued(rows0: seq<Row>, t0: Trace, rows1: seq<Row>, t1: Trace)
    requires |rows0| == |rows1|
  {
    forall i :: 0 <= i < |rows0| && Settleable(rows0[i]) ==>
      rows1[i] == rows0[i] || !Live(rows1[i]) || AskedSince(t0, t1, rows0[i].client, CloseAll)
  }

  predicate CanClose(rows: seq<Row>, client: int) {
    exists i :: 0 <= i < |rows| && rows[i].client == client && Settleable(rows[i])
  }

  predicate Settleable(r: Row) { r.status == Open && !r.latched }

  lemma PursuedSince(rows0: seq<Row>, t0: Trace, t1: Trace, rows2: seq<Row>, t2: Trace)
    requires |rows0| == |rows2| && t0 <= t1 && Pursued(rows0, t1, rows2, t2)
    ensures Pursued(rows0, t0, rows2, t2)
  {}

  lemma PursuedLater(rows0: seq<Row>, t0: Trace, rows1: seq<Row>, t1: Trace, t2: Trace)
    requires |rows0| == |rows1| && t1 <= t2 && Pursued(rows0, t0, rows1, t1)
    ensures Pursued(rows0, t0, rows1, t2)
  {
    forall i | 0 <= i < |rows0| && Settleable(rows0[i])
      ensures rows1[i] == rows0[i] || !Live(rows1[i]) || AskedSince(t0, t2, rows0[i].client, CloseAll)
    {
      if AskedSince(t0, t1, rows0[i].client, CloseAll) { AskedStays(t0, t1, t2, rows0[i].client, CloseAll); }
    }
  }

  /** A reconcile leaves an open row with nothing unknown as it is, or finds it gone. */
  lemma ReconcilePursues(rows0: seq<Row>, t0: Trace, rows1: seq<Row>, t1: Trace, i: nat, snap: Snapshot)
    requires i < |rows0| == |rows1| && rows1 == rows0[i := rows1[i]]
    requires rows1[i] == rows0[i] || rows1[i] == ReconciledRow(rows0[i], snap)
    ensures Pursued(rows0, t0, rows1, t1)
  {}

  /** The first `n` rows that were open with nothing unknown were asked to close. */
  ghost predicate AllAsked(rows0: seq<Row>, n: nat, t0: Trace, t1: Trace)
    requires n <= |rows0|
  {
    forall i :: 0 <= i < n && Settleable(rows0[i]) ==> AskedSince(t0, t1, rows0[i].client, CloseAll)
  }

  lemma AllAskedNext(rows0: seq<Row>, n: nat, t0: Trace, t1: Trace, t2: Trace)
    requires n < |rows0| && AllAsked(rows0, n, t0, t1) && t1 <= t2
    requires Settleable(rows0[n]) ==> AskedSince(t0, t2, rows0[n].client, CloseAll)
    ensures AllAsked(rows0, n + 1, t0, t2)
  {
    forall i | 0 <= i < n && Settleable(rows0[i]) ensures AskedSince(t0, t2, rows0[i].client, CloseAll) {
      AskedStays(t0, t1, t2, rows0[i].client, CloseAll);
    }
  }

  lemma AllAskedStays(rows0: seq<Row>, n: nat, t0: Trace, t1: Trace, t2: Trace)
    requires n <= |rows0| && AllAsked(rows0, n, t0, t1) && t1 <= t2
    ensures AllAsked(rows0, n, t0, t2)
  {
    forall i | 0 <= i < n && Settleable(rows0[i]) ensures AskedSince(t0, t2, rows0[i].client, CloseAll) {
      AskedStays(t0, t1, t2, rows0[i].client, CloseAll);
    }
  }

  lemma AskedIsPursued(rows0: seq<Row>, t0: Trace, rows1: seq<Row>, t1: Trace, i: nat)
    requires i < |rows0| == |rows1| && rows1 == rows0[i := rows1[i]] && AskedSince(t0, t1, rows0[i].client, CloseAll)
    ensures Pursued(rows0, t0, rows1, t1)
  {}

  /** Every row that was open with nothing unknown was asked to close, or is over. */
  ghost predicate Flattened(rows0: seq<Row>, t0: Trace, rows1: seq<Row>, t1: Trace)
    requires |rows0| == |rows1|
  {
    forall i :: 0 <= i < |rows0| && Settleable(rows0[i]) ==>
      !Live(rows1[i]) || AskedSince(t0, t1, rows0[i].client, CloseAll)
  }

  lemma FlattenedAfter(rows0: seq<Row>, t0: Trace, rows1: seq<Row>, t1: Trace, rows2: seq<Row>, t2: Trace)
    requires Narrows(rows0, rows1) && Narrows(rows1, rows2) && t0 <= t1 <= t2
    requires Pursued(rows0, t0, rows1, t1) && AllAsked(rows1, |rows1|, t1, t2)
    ensures Flattened(rows0, t0, rows2, t2)
  {
    forall i | 0 <= i < |rows0| && Settleable(rows0[i])
      ensures !Live(rows2[i]) || AskedSince(t0, t2, rows0[i].client, CloseAll)
    {
      if AskedSince(t0, t1, rows0[i].client, CloseAll) {
        AskedStays(t0, t1, t2, rows0[i].client, CloseAll);
      } else if rows1[i] == rows0[i] {
        AskedEarlier(t0, t1, t2, rows0[i].client, CloseAll);
      }
    }
  }

  lemma PursuedTransitive(rows0: seq<Row>, t0: Trace, rows1: seq<Row>, t1: Trace, rows2: seq<Row>, t2: Trace)
    requires Narrows(rows0, rows1) && Narrows(rows1, rows2) && t0 <= t1 <= t2
    requires Pursued(rows0, t0, rows1, t1) && Pursued(rows1, t1, rows2, t2)
    ensures Pursued(rows0, t0, rows2, t2)
  {
    forall i | 0 <= i < |rows0| && Settleable(rows0[i])
      ensures rows2[i] == rows0[i] || !Live(rows2[i]) || AskedSince(t0, t2, rows0[i].client, CloseAll)
    {
      if rows1[i] == rows0[i] && AskedSince(t1, t2, rows1[i].client, CloseAll) {
        AskedEarlier(t0, t1, t2, rows0[i].client, CloseAll);
      }
    }
  }

  /** Nothing was settled and no process ended. */
  ghost predicate OnlyAsked(t0: Trace, t1: Trace) {
    forall k :: |t0| <= k < |t1| ==> !t1[k].Evidence? && !t1[k].Release? && !t1[k].Stopped?
  }

  /** Broker and store calls from operation `from` up to `to`: smooth ones end normally, and without a stop nothing is
      settled by them. */
  ghost predicate Called(world: World, from: nat, t0: Trace, to: nat, t1: Trace, alive: bool, raised: bool) {
    from <= to && t0 <= t1 && (Smooth(world, from) ==> alive) && (alive || raised ==> OnlyAsked(t0, t1))
  }

  lemma CalledTransitive(world: World, n0: nat, t0: Trace, n1: nat, t1: Trace, n2: nat, t2: Trace, alive: bool,
                         raised: bool)
    requires Called(world, n0, t0, n1, t1, true, false) && Called(world, n1, t1, n2, t2, alive, raised)
    ensures Called(world, n0, t0, n2, t2, alive, raised)
  {
    if alive || raised {
      forall k | |t0| <= k < |t2| ensures !t2[k].Evidence? && !t2[k].Release? && !t2[k].Stopped? {
        if k < |t1| { assert t2[k] == t1[k]; }
      }
    }
  }

  predicate IsOpen(r: Row, id: int) { r.status == Open && r.trade == Some(id) }

  predicate Matched(rows: seq<Row>, id: int) { exists i :: 0 <= i < |rows| && IsOpen(rows[i], id) }

  predicate DriftIn(rows: seq<Row>, trades: seq<OpenTrade>) {
    exists j :: 0 <= j < |trades| && !Matched(rows, trades[j].id)
  }

  predicate UnresolvedIn(rows: seq<Row>) { exists i :: 0 <= i < |rows| && rows[i].status in {PendingSend, Unknown} }

  predicate UnknownIn(rows: seq<Row>) { exists i :: 0 <= i < |rows| && rows[i].status == Open && rows[i].latched }

  predicate LiveIn(rows: seq<Row>) { exists i :: 0 <= i < |rows| && Live(rows[i]) }

  predicate HasRow(rows: seq<Row>, client: int) { exists i :: 0 <= i < |rows| && rows[i].client == client }

  ghost predicate Listed(trades: seq<OpenTrade>, id: int) { exists i :: 0 <= i < |trades| && trades[i].id == id }

  /** A broker trade without a row blocks as drift; unblocked means rows and trades match and nothing is unknown. */
  ghost predicate Reconciled(rows: seq<Row>, trades: seq<OpenTrade>, blocked: Option<Block>) {
    && (forall j :: 0 <= j < |trades| && !Matched(rows, trades[j].id) ==> blocked == Some(Drift))
    && (forall i :: 0 <= i < |rows| && rows[i].status == Open ==> rows[i].trade.Some? && Listed(trades, rows[i].trade.value))
    && (blocked.None? ==> forall i :: 0 <= i < |rows| && rows[i].status == Open ==> !rows[i].latched)
  }

  /** Unblocked after a reconcile, every trade of the snapshot has an open row or was recorded closed since. */
  ghost predicate Accounted(rows: seq<Row>, t: Trace, blocked: Option<Block>) {
    blocked.None? && LastSeen(t).Some? ==>
      forall j :: 0 <= j < |LastSeen(t).value| ==>
        Matched(rows, LastSeen(t).value[j].id) || EndedSince(t, LastSeen(t).value[j].id)
  }

  lemma ReconciledAccounts(rows: seq<Row>, t: Trace, trades: seq<OpenTrade>, blocked: Option<Block>)
    requires Reconciled(rows, trades, blocked) && LastSeen(t) == Some(trades)
    ensures Accounted(rows, t, blocked)
  {}

  lemma AccountedKeeps(rows0: seq<Row>, t0: Trace, rows1: seq<Row>, t1: Trace, blocked: Option<Block>)
    requires Accounted(rows0, t0, blocked) && Moves(rows0, t0, rows1, t1)
    ensures Accounted(rows1, t1, blocked)
  {
    if blocked.None? && LastSeen(t1).Some? {
      var trades := LastSeen(t1).value;
      forall j | 0 <= j < |trades| ensures Matched(rows1, trades[j].id) || EndedSince(t1, trades[j].id) {
        if Matched(rows0, trades[j].id) {
          var i :| 0 <= i < |rows0| && IsOpen(rows0[i], trades[j].id);
          assert IsOpen(rows1[i], trades[j].id) || EndedSince(t1, trades[j].id);
        }
      }
    }
  }

  /** With no live row left, nothing is open at the broker but what was closed since the snapshot. */
  lemma AccountedFlat(rows: seq<Row>, t: Trace)
    requires Accounted(rows, t, None) && LastSeen(t).Some? && !Holds(LastSeen(t).value, EUR_USD) && !LiveIn(rows)
    ensures FlatSnapshot(t)
  {
    assert forall id :: !Matched(rows, id);
  }

  lemma NothingSeen(rows: seq<Row>, trades: seq<OpenTrade>)
    requires Reconciled(rows, trades, None) && !LiveIn(rows)
    ensures trades == []
  {
    assert trades != [] ==> Matched(rows, trades[0].id);
  }

  ghost predicate AllMatched(before: seq<Row>, rows: seq<Row>, snap: Snapshot) {
    && |rows| == |before|
    && forall j :: 0 <= j < |rows| ==>
         rows[j] == if Live(before[j]) then ReconciledRow(before[j], snap) else before[j]
  }

  lemma OpenRowsListed(before: seq<Row>, rows: seq<Row>, t: Trace, snap: Snapshot)
    requires Good(before, t) && AllMatched(before, rows, snap)
    ensures forall i :: 0 <= i < |rows| && rows[i].status == Open ==>
              rows[i].trade.Some? && Listed(snap.trades, rows[i].trade.value)
  {
    forall i | 0 <= i < |rows| && rows[i].status == Open
      ensures rows[i].trade.Some? && Listed(snap.trades, rows[i].trade.value)
    {
      assert RowOk(t, before[i]);
      OpenIsListed(before[i], snap);
    }
  }

  /** After every row was matched against the snapshot, the block that follows makes rows and trades agree. */
  lemma MatchedMeansReconciled(rows: seq<Row>, trades: seq<OpenTrade>, was: Option<Block>, clears: bool)
    requires forall i :: 0 <= i < |rows| && rows[i].status == Open ==>
               rows[i].trade.Some? && Listed(trades, rows[i].trade.value)
    ensures Reconciled(rows, trades, BlockAfter(was, DriftIn(rows, trades), clears, UnresolvedIn(rows), UnknownIn(rows)))
  {}

  // --- steps on the rows -------------------------------------------------------------------------------------------

  /** A row may only be rewritten into one of these. */
  predicate Successor(a: Row, b: Row) {
    && b.client == a.client && (Live(b) ==> Live(a)) && BrokerIds(b)
    && (a.status == Open ==> b.trade == a.trade && (Live(b) ==> b.status == Open))
  }

  /** What the record gets when a row is over. */
  function EndedBy(a: Row, b: Row): Trace {
    if Live(a) && !Live(b) then [Ended(b.client, b.trade)] else []
  }

  lemma EntryMoves(rows: seq<Row>, t: Trace, e: Entry)
    requires Acting(e)
    ensures Moves(rows, t, rows, t + [e])
  {
    ActedOne(t, e);
  }

  lemma StoreMoves(rows: seq<Row>, t: Trace, i: nat, r: Row)
    requires Good(rows, t) && i < |rows| && Successor(rows[i], r) && (Live(r) ==> r.latched == rows[i].latched)
    ensures Good(rows[i := r], t + EndedBy(rows[i], r)) && Moves(rows, t, rows[i := r], t + EndedBy(rows[i], r))
  {
    var ended := EndedBy(rows[i], r);
    if ended == [] {
      assert t + ended == t;
      SetKeeps(rows, t, i, r);
    } else {
      EndKeeps(rows, t, i, r);
      Appended(t, ended[0]);
      ActedOne(t, ended[0]);
    }
  }

  lemma SettleMoves(rows: seq<Row>, t: Trace, i: nat, r: Row, e: Entry)
    requires Good(rows, t) && i < |rows| && Live(rows[i]) && Successor(rows[i], r) && !r.latched
    requires e == Evidence(r.client) || e == Release(r.client)
    ensures var t1 := t + [e] + EndedBy(rows[i], r);
            Good(rows[i := r], t1) && Moves(rows, t, rows[i := r], t1)
  {
    EntryMoves(rows, t, e);
    var ended, t1 := EndedBy(rows[i], r), t + [e];
    if ended == [] {
      assert t1 + ended == t1;
      SettleKeeps(rows, t, i, r, e);
    } else {
      var settled := rows[i].(latched := false);
      assert RowOk(t, rows[i]);
      SettleKeeps(rows, t, i, settled, e);
      EndKeeps(rows[i := settled], t1, i, r);
      assert rows[i := settled][i := r] == rows[i := r];
      Appended(t1, ended[0]);
      ActedOne(t1, ended[0]);
    }
  }

  lemma LatchMoves(rows: seq<Row>, t: Trace, i: nat, action: Action)
    requires Good(rows, t) && i < |rows| && Live(rows[i]) && !rows[i].latched
    ensures var t1 := t + [Ask(rows[i].client, action, Unheard)] + [Ambiguous(rows[i].client)];
            var next := rows[i := WithLatch(rows[i], action)];
            Good(next, t1) && Moves(rows, t, next, t1)
  {
    LatchKeeps(rows, t, i, action);
    TwoEntriesMove(rows, t, Ask(rows[i].client, action, Unheard), Ambiguous(rows[i].client));
  }

  /** A close or cancel that was taken and recorded. */
  lemma TakenMoves(rows: seq<Row>, t: Trace, i: nat, action: Action, r: Row)
    requires Good(rows, t) && i < |rows| && Live(rows[i]) && !rows[i].latched && Successor(rows[i], r) && !Live(r)
    requires Final(action)
    ensures var t1 := t + [Ask(r.client, action, Taken)] + [Ended(r.client, r.trade)];
            Good(rows[i := r], t1) && Moves(rows, t, rows[i := r], t1)
  {
    TakenKeeps(rows, t, i, action, r);
    TwoEntriesMove(rows, t, Ask(r.client, action, Taken), Ended(r.client, r.trade));
    Appended(t + [Ask(r.client, action, Taken)], Ended(r.client, r.trade));
  }

  lemma TwoEntriesMove(rows: seq<Row>, t: Trace, e: Entry, f: Entry)
    requires Acting(e) && Acting(f)
    ensures Moves(rows, t, rows, t + [e] + [f])
  {
    ActedOne(t, e);
    ActedOne(t + [e], f);
    ActedTransitive(t, t + [e], t + [e] + [f]);
  }

  lemma SameRow(rows: seq<Row>, i: nat)
    requires i < |rows|
    ensures rows[i := rows[i]] == rows
  {}

  lemma LastRow(rows: seq<Row>, r: Row)
    requires rows != []
    ensures rows[|rows| - 1 := r] == rows[..|rows| - 1] + [r]
    ensures rows == rows[..|rows| - 1] + [rows[|rows| - 1]]
  {}

  lemma CalledEarlier(world: World, n0: nat, n1: nat, t0: Trace, n2: nat, t2: Trace, alive: bool, raised: bool)
    requires n0 <= n1 && Called(world, n1, t0, n2, t2, alive, raised)
    ensures Called(world, n0, t0, n2, t2, alive, raised)
  {}

  /** Entry `b` asks again for the close entry `a` asked, and nothing between them settled the first. */
  ghost predicate ClosedTwice(t: Trace, a: nat, b: nat, client: int, answer: Answer) {
    && a < b < |t| && t[a] == Ask(client, CloseAll, answer) && t[b].Ask? && t[b].client == client
    && t[b].action == CloseAll
    && forall k :: a < k < b ==> !t[k].Evidence? && !t[k].Release? && !t[k].Stopped?
  }

  lemma ClosesAgain(t0: Trace, t1: Trace, t2: Trace, client: int, answer: Answer, lost: Entry)
    requires t1 == t0 + [Ask(client, CloseAll, answer)] + [lost] && (lost.RecordFailed? || lost.Unrecorded?)
    requires t1 <= t2 && OnlyAsked(t1, t2) && AskedSince(t1, t2, client, CloseAll)
    ensures exists b :: ClosedTwice(t2, |t0|, b, client, answer)
  {
    var b :| |t1| <= b < |t2| && t2[b].Ask? && t2[b].client == client && t2[b].action == CloseAll;
    assert t2[|t0|] == t1[|t0|] && t2[|t0| + 1] == t1[|t0| + 1];
    assert ClosedTwice(t2, |t0|, b, client, answer);
  }

  lemma AllAskedOne(rows: seq<Row>, t0: Trace, t1: Trace, client: int)
    requires AllAsked(rows, |rows|, t0, t1) && CanClose(rows, client)
    ensures AskedSince(t0, t1, client, CloseAll)
  {
    var i :| 0 <= i < |rows| && rows[i].client == client && Settleable(rows[i]);
  }

  lemma StoreCalled(world: World, from: nat, t0: Trace, ops: nat, t: Trace, a: Row, b: Row, alive: bool, raised: bool,
                    t1: Trace)
    requires Called(world, from, t0, ops, t, true, false) && alive == world.fate(ops).Done?
    ensures alive ==> Called(world, from, t0, ops + 1, t + EndedBy(a, b), true, false)
    ensures !alive && raised ==> Called(world, from, t0, ops + 1, t, false, true)
    ensures !alive && !raised && t <= t1 ==> Called(world, from, t0, ops + 1, t1, false, false)
  {}

  /** In every reachable state at most one row is live, and a resting limit always has the id to cancel it with. */
  lemma OneLiveRow(rows: seq<Row>, t: Trace, i: nat, j: nat)
    requires Good(rows, t) && i < |rows| && j < |rows| && Live(rows[i]) && Live(rows[j])
    ensures i == j && (rows[i].status == PendingLimit ==> rows[i].order.Some?)
  {
    assert RowOk(t, rows[i]);
  }

  ghost predicate DistinctIds(trades: seq<OpenTrade>) {
    forall i, j :: 0 <= i < j < |trades| ==> trades[i].id != trades[j].id
  }

  lemma OnlyTrade(rows: seq<Row>, t: Trace, trades: seq<OpenTrade>, j: nat)
    requires Good(rows, t) && Reconciled(rows, trades, None) && DistinctIds(trades) && j < |trades|
    ensures j == 0
  {
    assert Matched(rows, trades[0].id) && Matched(rows, trades[j].id);
    var a :| 0 <= a < |rows| && IsOpen(rows[a], trades[0].id);
    var b :| 0 <= b < |rows| && IsOpen(rows[b], trades[j].id);
    OneLiveRow(rows, t, a, b);
  }

  /** Unblocked after a reconcile means one-to-one: there is a broker trade exactly when there is an open row, there is at
      most one of each, they carry the same id, and no action of the row is unknown. */
  lemma UnblockedIsOneToOne(rows: seq<Row>, t: Trace, trades: seq<OpenTrade>)
    requires Good(rows, t) && Reconciled(rows, trades, None) && DistinctIds(trades)
    ensures |trades| <= 1
    ensures |trades| == 1 <==> exists i :: 0 <= i < |rows| && rows[i].status == Open
    ensures forall i :: 0 <= i < |rows| && rows[i].status == Open ==>
              |trades| == 1 && IsOpen(rows[i], trades[0].id) && !rows[i].latched
  {
    if |trades| > 1 { OnlyTrade(rows, t, trades, 1); }
    if |trades| == 1 { assert Matched(rows, trades[0].id); }
    if |trades| == 1 {
      var a :| 0 <= a < |rows| && IsOpen(rows[a], trades[0].id);
      assert rows[a].status == Open;
    }
    forall i | 0 <= i < |rows| && rows[i].status == Open
      ensures |trades| == 1 && IsOpen(rows[i], trades[0].id) && !rows[i].latched
    {
      assert Listed(trades, rows[i].trade.value);
    }
  }
}
