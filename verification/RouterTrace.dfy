/** The routed rows of the broker-demo router, the trace of what it told the broker, and what every run keeps about
    them (execution/broker_demo_router.py, execution/broker_demo_state.py). */
module RouterTrace {
  import opened Maybe

  const EUR_USD := 0

  datatype Status = PendingSend | Open | Unknown | PendingLimit | Rejected | Closed | ClosedAtBroker | Cancelled
  datatype OrderKind = Market | Limit
  datatype Side = Long | Short
  datatype Action = CloseAll | Breakeven | PartialClose | TrailStop | CancelLimit

  datatype Row = Row(client: int, kind: OrderKind, side: Side, scaled: bool, status: Status, trade: Option<int>,
                     order: Option<int>, pending: Option<Action>, latched: bool)

  datatype OpenTrade = OpenTrade(id: int, client: Option<int>, instrument: int, atBreakeven: bool)

  predicate Live(r: Row) { r.status in {PendingSend, Open, Unknown, PendingLimit} }

  /** How the broker answered an action: it took it, it definitely did not, or the router never learned. */
  datatype Answer = Taken | Failed | Unheard

  /** An action that is the row's last when the broker takes it. */
  predicate Final(action: Action) { action == CloseAll || action == CancelLimit }

  /** What the router does, as seen from outside. `Seen` is a reconcile that read the broker; `Ask` an action sent for a
      row, with the broker's answer; `Ambiguous` the durable record that an outcome is unknown, `RecordFailed` that this
      record could not be written; `Evidence` a reconcile that settled it, `Release` the operator's; `Ended` the durable
      record that a row is over, with its broker trade, `Unrecorded` that a close or cancel was taken and this record could
      not be written; `Stopped` the end of a process. */
  datatype Entry =
    | Began
    | Seen(trades: seq<OpenTrade>)
    | Intent(client: int)
    | Submit(client: int)
    | Ask(client: int, action: Action, answer: Answer)
    | Ambiguous(client: int)
    | RecordFailed(client: int)
    | Evidence(client: int)
    | Release(client: int)
    | Ended(client: int, trade: Option<int>)
    | Unrecorded(client: int)
    | Stopped

  type Trace = seq<Entry>

  function Last(t: Trace): Entry
    requires t != []
  {
    t[|t| - 1]
  }

  function Front(t: Trace): Trace
    requires t != []
  {
    t[..|t| - 1]
  }

  /** Where a row stands: nothing is open about it, an outcome stayed unknown and this process has heard so, that is on
      record, a close or cancel was taken and its record is owed, or the row is over. */
  datatype Standing = Settled | Heard | Latched | Owed | Over

  function After(action: Action, answer: Answer): Standing {
    match answer
    case Taken => if Final(action) then Owed else Settled
    case Failed => Settled
    case Unheard => Heard
  }

  function StandingOf(t: Trace, client: int): Standing {
    if t == [] then Settled
    else match Last(t)
         case Ask(c, action, answer) => if c == client then After(action, answer) else StandingOf(Front(t), client)
         case Ambiguous(c) => if c == client then Standing.Latched else StandingOf(Front(t), client)
         case RecordFailed(c) => if c == client then Settled else StandingOf(Front(t), client)
         case Unrecorded(c) => if c == client then Settled else StandingOf(Front(t), client)
         case Evidence(c) => if c == client then Settled else StandingOf(Front(t), client)
         case Release(c) => if c == client then Settled else StandingOf(Front(t), client)
         case Ended(c, _) => if c == client then Over else StandingOf(Front(t), client)
         case Stopped => if StandingOf(Front(t), client) in {Heard, Owed} then Settled else StandingOf(Front(t), client)
         case _ => StandingOf(Front(t), client)
  }

  /** The broker trades of the latest successful reconcile of this tick. */
  function LastSeen(t: Trace): Option<seq<OpenTrade>> {
    if t == [] then None
    else match Last(t)
         case Began => None
         case Seen(trades) => Some(trades)
         case _ => LastSeen(Front(t))
  }

  predicate Holds(trades: seq<OpenTrade>, instrument: int) {
    exists i :: 0 <= i < |trades| && trades[i].instrument == instrument
  }

  /** The row of this broker trade was recorded as over after the latest snapshot. */
  predicate EndedSince(t: Trace, id: int) {
    t != [] &&
    match Last(t)
    case Ended(_, trade) => trade == Some(id) || EndedSince(Front(t), id)
    case Seen(_) => false
    case _ => EndedSince(Front(t), id)
  }

  /** The tick has a snapshot, it shows no trade of the instrument, and the row of every trade it does show was recorded
      as over since. */
  ghost predicate FlatSnapshot(t: Trace) {
    && LastSeen(t).Some? && !Holds(LastSeen(t).value, EUR_USD)
    && forall j :: 0 <= j < |LastSeen(t).value| ==> EndedSince(t, LastSeen(t).value[j].id)
  }

  /** What no run breaks: an intent comes before its only submit, a submit only on a flat snapshot, an action only for a row
      about which nothing is open, and every record right where there is something to record. */
  ghost predicate Clean(t: Trace) {
    t != [] ==>
      && Clean(Front(t))
      && match Last(t)
         case Intent(c) => Intent(c) !in Front(t)
         case Submit(c) =>
           && Intent(c) in Front(t) && Submit(c) !in Front(t)
           && FlatSnapshot(Front(t))
         case Ask(c, _, _) => Intent(c) in Front(t) && StandingOf(Front(t), c) == Settled
         case Ambiguous(c) => Intent(c) in Front(t) && StandingOf(Front(t), c) == Heard
         case RecordFailed(c) => Intent(c) in Front(t) && StandingOf(Front(t), c) == Heard
         case Unrecorded(c) => Intent(c) in Front(t) && StandingOf(Front(t), c) == Owed
         case Evidence(c) => Intent(c) in Front(t) && StandingOf(Front(t), c) in {Settled, Standing.Latched}
         case Release(c) => Intent(c) in Front(t) && StandingOf(Front(t), c) in {Settled, Standing.Latched}
         case Ended(c, _) => Intent(c) in Front(t) && StandingOf(Front(t), c) in {Settled, Standing.Latched, Owed}
         case _ => true
  }

  /** At most one row is live, and the client id is the key. */
  ghost predicate Table(rows: seq<Row>) {
    forall i, j :: 0 <= i < j < |rows| ==> !(Live(rows[i]) && Live(rows[j])) && rows[i].client != rows[j].client
  }

  ghost predicate HasClient(rows: seq<Row>, client: int) {
    exists i :: 0 <= i < |rows| && rows[i].client == client
  }

  ghost predicate RowOk(t: Trace, r: Row) {
    && Intent(r.client) in t
    && (r.status == PendingLimit ==> r.order.Some?)
    && (r.status == Open ==> r.trade.Some?)
    && StandingOf(t, r.client) !in {Heard, Owed}
    && (Live(r) <==> StandingOf(t, r.client) != Over)
    && (Live(r) ==> (r.latched <==> StandingOf(t, r.client) == Standing.Latched))
  }

  /** Intents are exactly the rows, and every submit had one. */
  ghost predicate Recorded(rows: seq<Row>, t: Trace) {
    && (forall c :: Intent(c) in t ==> HasClient(rows, c))
    && (forall c :: Submit(c) in t ==> Intent(c) in t)
  }

  ghost predicate Good(rows: seq<Row>, t: Trace) {
    && Clean(t) && Table(rows) && Recorded(rows, t)
    && (forall i :: 0 <= i < |rows| ==> RowOk(t, rows[i]))
  }

  /** No row is added and none comes back to life. */
  ghost predicate Narrows(a: seq<Row>, b: seq<Row>) {
    && |a| == |b|
    && forall i :: 0 <= i < |a| ==> b[i].client == a[i].client && (Live(b[i]) ==> Live(a[i]))
  }

  predicate Acting(e: Entry) {
    || e.Ask? || e.Ambiguous? || e.RecordFailed? || e.Evidence? || e.Release? || e.Ended? || e.Unrecorded? || e.Stopped?
  }

  /** Entries about rows that already exist leave the rest of the record as it was. */
  ghost predicate Acted(t0: Trace, t1: Trace) {
    && t0 <= t1
    && LastSeen(t1) == LastSeen(t0)
    && (forall id :: EndedSince(t0, id) ==> EndedSince(t1, id))
    && forall k :: |t0| <= k < |t1| ==> !t1[k].Intent? && !t1[k].Submit?
  }

  /** An open row stays open with its trade, or that trade is recorded as ended. */
  ghost predicate Tracked(rows0: seq<Row>, rows1: seq<Row>, t1: Trace)
    requires |rows0| == |rows1|
  {
    forall i :: 0 <= i < |rows0| && rows0[i].status == Open && rows0[i].trade.Some? ==>
      (rows1[i].status == Open && rows1[i].trade == rows0[i].trade) || EndedSince(t1, rows0[i].trade.value)
  }

  /** What every step on existing rows keeps. */
  ghost predicate Moves(rows0: seq<Row>, t0: Trace, rows1: seq<Row>, t1: Trace) {
    Narrows(rows0, rows1) && Acted(t0, t1) && Tracked(rows0, rows1, t1)
  }

  /** The record only grows, by entries that are neither intents nor submits. */
  ghost predicate Steady(t0: Trace, t1: Trace) {
    t0 <= t1 && forall k :: |t0| <= k < |t1| ==> !t1[k].Intent? && !t1[k].Submit?
  }

  // --- steps -------------------------------------------------------------------------------------------------------

  lemma Appended(t: Trace, e: Entry)
    ensures Last(t + [e]) == e && Front(t + [e]) == t
    ensures forall x :: x in t + [e] <==> x in t || x == e
  {}

  lemma ActedOne(t: Trace, e: Entry)
    requires Acting(e)
    ensures Acted(t, t + [e])
  {
    Appended(t, e);
  }

  lemma NoteKeeps(rows: seq<Row>, t: Trace, e: Entry)
    requires Good(rows, t) && (e.Began? || e.Seen? || e.Stopped?)
    ensures Good(rows, t + [e])
  {
    Appended(t, e);
  }

  /** An entry about one row leaves every other row as it stood. */
  lemma OthersKeep(rows: seq<Row>, t: Trace, i: nat, e: Entry)
    requires Good(rows, t) && i < |rows| && About(e, rows[i].client)
    ensures forall k :: 0 <= k < |rows| && k != i ==> RowOk(t + [e], rows[k])
  {
    Appended(t, e);
    forall k | 0 <= k < |rows| && k != i ensures RowOk(t + [e], rows[k]) {
      assert RowOk(t, rows[k]) && rows[k].client != rows[i].client;
    }
  }

  predicate About(e: Entry, client: int) {
    (e.Ask? || e.Ambiguous? || e.RecordFailed? || e.Evidence? || e.Release? || e.Ended? || e.Unrecorded?)
    && e.client == client
  }

  /** An action that leaves nothing to record. */
  lemma AskKeeps(rows: seq<Row>, t: Trace, i: nat, action: Action, answer: Answer)
    requires Good(rows, t) && i < |rows| && Live(rows[i]) && !rows[i].latched && After(action, answer) == Settled
    ensures Good(rows, t + [Ask(rows[i].client, action, answer)])
  {
    Appended(t, Ask(rows[i].client, action, answer));
    assert RowOk(t, rows[i]);
    OthersKeep(rows, t, i, Ask(rows[i].client, action, answer));
  }

  /** An action whose record is lost, by a stop or because it could not be written: nothing remains of it. */
  lemma LostAskKeeps(rows: seq<Row>, t: Trace, i: nat, action: Action, answer: Answer, lost: Entry)
    requires Good(rows, t) && i < |rows| && Live(rows[i]) && !rows[i].latched
    requires
      || (lost == Stopped && After(action, answer) in {Heard, Owed})
      || (lost == RecordFailed(rows[i].client) && After(action, answer) == Heard)
      || (lost == Unrecorded(rows[i].client) && After(action, answer) == Owed)
    ensures Good(rows, t + [Ask(rows[i].client, action, answer)] + [lost])
  {
    var e := Ask(rows[i].client, action, answer);
    Appended(t, e);
    Appended(t + [e], lost);
    assert RowOk(t, rows[i]);
    OthersKeep(rows, t, i, e);
    forall k | 0 <= k < |rows| ensures RowOk(t + [e] + [lost], rows[k]) {
      assert k != i ==> RowOk(t + [e], rows[k]) && rows[k].client != rows[i].client;
    }
  }

  lemma ReplaceKeeps(rows: seq<Row>, i: nat, r: Row)
    requires Table(rows) && i < |rows| && r.client == rows[i].client && (Live(r) ==> Live(rows[i]))
    ensures Table(rows[i := r]) && Narrows(rows, rows[i := r])
    ensures forall c :: HasClient(rows, c) ==> HasClient(rows[i := r], c)
  {
    var next := rows[i := r];
    forall c | HasClient(rows, c) ensures HasClient(next, c) {
      var k :| 0 <= k < |rows| && rows[k].client == c;
      assert next[k].client == c;
    }
  }

  predicate BrokerIds(r: Row) {
    (r.status == PendingLimit ==> r.order.Some?) && (r.status == Open ==> r.trade.Some?)
  }

  /** A row may change in any way that keeps it alive or over, and keeps its latch and its broker ids. */
  lemma SetKeeps(rows: seq<Row>, t: Trace, i: nat, r: Row)
    requires Good(rows, t) && i < |rows| && r.client == rows[i].client && Live(r) == Live(rows[i])
    requires BrokerIds(r) && (Live(r) ==> r.latched == rows[i].latched)
    ensures Good(rows[i := r], t) && Narrows(rows, rows[i := r])
  {
    assert RowOk(t, rows[i]);
    ReplaceKeeps(rows, i, r);
  }

  /** A live row is recorded as over. */
  lemma EndKeeps(rows: seq<Row>, t: Trace, i: nat, r: Row)
    requires Good(rows, t) && i < |rows| && r.client == rows[i].client && Live(rows[i]) && !Live(r)
    ensures Good(rows[i := r], t + [Ended(r.client, r.trade)]) && Narrows(rows, rows[i := r])
  {
    var e, next := Ended(r.client, r.trade), rows[i := r];
    Appended(t, e);
    assert RowOk(t, rows[i]);
    ReplaceKeeps(rows, i, r);
    OthersKeep(rows, t, i, e);
    assert forall k :: 0 <= k < |next| && k != i ==> next[k] == rows[k];
  }

  /** A close or cancel that was taken and recorded. */
  lemma TakenKeeps(rows: seq<Row>, t: Trace, i: nat, action: Action, r: Row)
    requires Good(rows, t) && i < |rows| && r.client == rows[i].client && Live(rows[i]) && !rows[i].latched && !Live(r)
    requires Final(action)
    ensures Good(rows[i := r], t + [Ask(r.client, action, Taken)] + [Ended(r.client, r.trade)])
    ensures Narrows(rows, rows[i := r])
  {
    var e, f, next := Ask(r.client, action, Taken), Ended(r.client, r.trade), rows[i := r];
    Appended(t, e);
    Appended(t + [e], f);
    assert RowOk(t, rows[i]);
    ReplaceKeeps(rows, i, r);
    OthersKeep(rows, t, i, e);
    var t1 := t + [e] + [f];
    assert StandingOf(t + [e], r.client) == Owed && Clean(t + [e]);
    forall k | 0 <= k < |next| ensures RowOk(t1, next[k]) {
      assert k != i ==> next[k] == rows[k] && RowOk(t + [e], rows[k]) && rows[k].client != r.client;
    }
    assert Clean(t1) && Table(next) && Recorded(next, t1);
  }

  function WithLatch(r: Row, action: Action): Row { r.(pending := Some(action), latched := true) }

  /** An action whose outcome did not become known, recorded on the row. */
  lemma LatchKeeps(rows: seq<Row>, t: Trace, i: nat, action: Action)
    requires Good(rows, t) && i < |rows| && Live(rows[i]) && !rows[i].latched
    ensures var c := rows[i].client;
            && Good(rows[i := WithLatch(rows[i], action)], t + [Ask(c, action, Unheard)] + [Ambiguous(c)])
            && Narrows(rows, rows[i := WithLatch(rows[i], action)])
  {
    var r, c := WithLatch(rows[i], action), rows[i].client;
    var e := Ask(c, action, Unheard);
    assert RowOk(t, rows[i]);
    ReplaceKeeps(rows, i, r);
    Appended(t, e);
    Appended(t + [e], Ambiguous(c));
    OthersKeep(rows, t, i, e);
    var next := rows[i := r];
    var t1 := t + [e] + [Ambiguous(c)];
    assert StandingOf(t + [e], c) == Heard && Clean(t + [e]);
    forall k | 0 <= k < |next| ensures RowOk(t1, next[k]) {
      assert k != i ==> next[k] == rows[k] && RowOk(t + [e], rows[k]) && rows[k].client != c;
    }
    assert Clean(t1) && Table(next) && Recorded(next, t1);
  }

  /** Evidence, or the operator, settles whatever was unknown: the row may drop its latch. */
  lemma SettleKeeps(rows: seq<Row>, t: Trace, i: nat, r: Row, e: Entry)
    requires Good(rows, t) && i < |rows| && r.client == rows[i].client && Live(r) && Live(rows[i])
    requires BrokerIds(r) && !r.latched
    requires e == Evidence(r.client) || e == Release(r.client)
    ensures Good(rows[i := r], t + [e]) && Narrows(rows, rows[i := r])
  {
    Appended(t, e);
    assert RowOk(t, rows[i]);
    ReplaceKeeps(rows, i, r);
    OthersKeep(rows, t, i, e);
    var next := rows[i := r];
    assert forall k :: 0 <= k < |next| && k != i ==> next[k] == rows[k];
  }

  lemma {:induction false} NeverInDoubt(t: Trace, client: int)
    requires Clean(t) && Intent(client) !in t
    ensures StandingOf(t, client) == Settled
  {
    if t != [] {
      assert forall e :: e in Front(t) ==> e in t;
      NeverInDoubt(Front(t), client);
    }
  }

  lemma RowAdded(rows: seq<Row>, r: Row)
    requires Table(rows) && forall i :: 0 <= i < |rows| ==> !Live(rows[i]) && rows[i].client != r.client
    ensures Table(rows + [r])
    ensures forall c :: HasClient(rows + [r], c) <==> HasClient(rows, c) || c == r.client
  {
    var next := rows + [r];
    assert next[|rows|] == r;
    forall c | HasClient(rows, c) ensures HasClient(next, c) {
      var k :| 0 <= k < |rows| && rows[k].client == c;
      assert next[k].client == c;
    }
  }

  lemma IntentKeeps(rows: seq<Row>, t: Trace, r: Row)
    requires Good(rows, t) && r.status == PendingSend && !r.latched
    requires forall i :: 0 <= i < |rows| ==> !Live(rows[i]) && rows[i].client != r.client
    ensures Good(rows + [r], t + [Intent(r.client)])
    ensures Submit(r.client) !in t && (FlatSnapshot(t) ==> FlatSnapshot(t + [Intent(r.client)]))
  {
    var e := Intent(r.client);
    Appended(t, e);
    RowAdded(rows, r);
    assert !HasClient(rows, r.client);
    NeverInDoubt(t, r.client);
    var next := rows + [r];
    forall k | 0 <= k < |next| ensures RowOk(t + [e], next[k]) {
      if k < |rows| { assert RowOk(t, rows[k]); }
    }
    assert Recorded(next, t + [e]);
  }

  lemma SubmitKeeps(rows: seq<Row>, t: Trace, client: int)
    requires Good(rows, t) && Intent(client) in t && Submit(client) !in t
    requires FlatSnapshot(t)
    ensures Good(rows, t + [Submit(client)])
  {
    Appended(t, Submit(client));
    forall k | 0 <= k < |rows| ensures RowOk(t + [Submit(client)], rows[k]) { assert RowOk(t, rows[k]); }
  }

  lemma ActedTransitive(a: Trace, b: Trace, c: Trace)
    requires Acted(a, b) && Acted(b, c)
    ensures Acted(a, c)
  {
    assert forall k :: |a| <= k < |b| ==> c[k] == b[k];
  }

  lemma NarrowsTransitive(a: seq<Row>, b: seq<Row>, c: seq<Row>)
    requires Narrows(a, b) && Narrows(b, c)
    ensures Narrows(a, c)
  {}

  lemma MovesTransitive(a: seq<Row>, ta: Trace, b: seq<Row>, tb: Trace, c: seq<Row>, tc: Trace)
    requires Moves(a, ta, b, tb) && Moves(b, tb, c, tc)
    ensures Moves(a, ta, c, tc)
  {
    ActedTransitive(ta, tb, tc);
  }

  lemma SteadyTransitive(a: Trace, b: Trace, c: Trace)
    requires Steady(a, b) && Steady(b, c)
    ensures Steady(a, c)
  {
    assert forall k :: |a| <= k < |b| ==> c[k] == b[k];
  }

  // --- what a clean trace means ------------------------------------------------------------------------------------

  lemma {:induction false} CleanPrefix(t: Trace, k: nat)
    requires Clean(t) && k <= |t|
    ensures Clean(t[..k])
    decreases |t|
  {
    if k < |t| {
      assert Front(t)[..k] == t[..k];
      CleanPrefix(Front(t), k);
    } else {
      assert t[..k] == t;
    }
  }

  lemma CleanAt(t: Trace, k: nat)
    requires Clean(t) && k < |t|
    ensures Clean(t[..k + 1]) && Front(t[..k + 1]) == t[..k] && Last(t[..k + 1]) == t[k]
  {
    CleanPrefix(t, k + 1);
    assert t[..k + 1][..k] == t[..k];
  }

  /** Each client id is submitted at most once ever, always after its durable intent. */
  lemma SubmittedOnce(t: Trace, i: nat, j: nat)
    requires Clean(t) && i < |t| && j < |t| && t[i].Submit? && t[j] == t[i]
    ensures i == j && exists k :: 0 <= k < i && t[k] == Intent(t[i].client)
  {
    var first, second := if i <= j then i else j, if i <= j then j else i;
    CleanAt(t, second);
    assert forall k :: 0 <= k < second ==> t[..second][k] == t[k];
    assert first == second;
    assert Intent(t[i].client) in t[..i];
  }

  /** A submit only happens while the latest snapshot of the tick shows no open trade of the instrument, and no other
      open trade but those whose row the router recorded closed after that snapshot. */
  lemma SubmitOnFlatSnapshot(t: Trace, i: nat)
    requires Clean(t) && i < |t| && t[i].Submit?
    ensures FlatSnapshot(t[..i])
  {
    CleanAt(t, i);
  }

  // --- when a row may be asked again -------------------------------------------------------------------------------

  predicate AskOf(e: Entry, client: int) { e.Ask? && e.client == client }

  /** An unknown outcome that nothing between the two entries settles: no evidence, no release, no record that failed, and
      no stop before it was recorded. */
  ghost predicate Unsettled(t: Trace, i: nat, j: nat, client: int)
    requires i < j <= |t|
  {
    forall k :: i < k < j ==>
      && t[k] != Evidence(client) && t[k] != Release(client) && t[k] != RecordFailed(client)
      && (t[k] == Stopped ==> Ambiguous(client) in t[i..k])
  }

  /** The record of a close or cancel that was taken is lost between the two entries: it could not be written, or the
      process stopped. */
  ghost predicate RecordLost(t: Trace, i: nat, j: nat, client: int)
    requires i < j <= |t|
  {
    exists k :: i < k < j && (t[k] == Unrecorded(client) || t[k] == Stopped)
  }

  ghost predicate NotOver(t: Trace, i: nat, j: nat, client: int)
    requires i < j <= |t|
  {
    forall k :: i < k < j && t[k].Ended? ==> t[k].client != client
  }

  ghost predicate NotAsked(t: Trace, i: nat, j: nat, client: int)
    requires i < j <= |t|
  {
    forall k :: i < k < j ==> !AskOf(t[k], client)
  }

  /** What the answer to entry `i` leaves to say before the row may be asked again. */
  ghost predicate Repeatable(t: Trace, i: nat, j: nat, client: int)
    requires i < j <= |t| && t[i].Ask?
  {
    match t[i].answer
    case Failed => true
    case Unheard => !Unsettled(t, i, j, client)
    case Taken => Final(t[i].action) ==> RecordLost(t, i, j, client)
  }

  /** Where the row of the ask at `i` stands just before `j`, when it was not asked in between. */
  ghost predicate StandsAs(t: Trace, i: nat, j: nat, client: int)
    requires i < j <= |t| && t[i].Ask?
  {
    StandingOf(t[..j], client) ==
    if !NotOver(t, i, j, client) then Over
    else if Repeatable(t, i, j, client) then Settled
    else if t[i].answer == Taken then Owed
    else if Ambiguous(client) in t[i..j] then Standing.Latched else Heard
  }

  lemma OneMore(t: Trace, i: nat, j: nat, client: int)
    requires i < j < |t|
    ensures NotOver(t, i, j + 1, client) <==> NotOver(t, i, j, client) && !(t[j].Ended? && t[j].client == client)
    ensures RecordLost(t, i, j + 1, client) <==>
            RecordLost(t, i, j, client) || t[j] == Unrecorded(client) || t[j] == Stopped
    ensures Ambiguous(client) in t[i..j + 1] <==> Ambiguous(client) in t[i..j] || t[j] == Ambiguous(client)
  {
    assert t[i..j + 1] == t[i..j] + [t[j]];
  }

  lemma OneMoreUnsettled(t: Trace, i: nat, j: nat, client: int)
    requires i < j < |t|
    ensures Unsettled(t, i, j + 1, client) <==>
            && Unsettled(t, i, j, client)
            && t[j] != Evidence(client) && t[j] != Release(client) && t[j] != RecordFailed(client)
            && (t[j] == Stopped ==> Ambiguous(client) in t[i..j])
  {}

  lemma StandsStep(t: Trace, i: nat, j: nat, client: int)
    requires Clean(t) && i < j < |t| && AskOf(t[i], client) && !AskOf(t[j], client)
    requires StandsAs(t, i, j, client)
    ensures StandsAs(t, i, j + 1, client)
  {
    CleanAt(t, j);
    OneMore(t, i, j, client);
    OneMoreUnsettled(t, i, j, client);
  }

  lemma {:induction false} Stands(t: Trace, i: nat, j: nat, client: int)
    requires Clean(t) && i < j <= |t| && AskOf(t[i], client) && NotAsked(t, i, j, client)
    ensures StandsAs(t, i, j, client)
    decreases j
  {
    if j == i + 1 {
      CleanAt(t, i);
      assert t[i..j] == [t[i]];
    } else {
      Stands(t, i, j - 1, client);
      StandsStep(t, i, j - 1, client);
    }
  }

  lemma RepeatableLater(t: Trace, i: nat, m: nat, j: nat, client: int)
    requires i < m <= j <= |t| && t[i].Ask? && Repeatable(t, i, m, client)
    ensures Repeatable(t, i, j, client)
  {}

  /** Between an action and any later action for the same row: the earlier one definitely failed; or its outcome was unknown
      and there is evidence, a release, a stop before the record, or a record that failed; or it was a close or cancel that
      the broker took and whose record could not be written or was overtaken by a stop; or it was another action and the
      broker took it. */
  lemma {:induction false} RepeatedOnlyWhen(t: Trace, i: nat, j: nat)
    requires Clean(t) && i < j < |t| && t[j].Ask? && AskOf(t[i], t[j].client)
    ensures Repeatable(t, i, j, t[j].client)
    decreases j
  {
    var c := t[j].client;
    if NotAsked(t, i, j, c) {
      Stands(t, i, j, c);
      CleanAt(t, j);
    } else {
      var m :| i < m < j && AskOf(t[m], c);
      RepeatedOnlyWhen(t, i, m);
      RepeatableLater(t, i, m, j, c);
    }
  }

  /** Every close that is repeated was a definite failure, or unknown and settled since, or taken with its record lost. */
  lemma RepeatedClose(t: Trace, i: nat, j: nat)
    requires Clean(t) && i < j < |t| && t[j].Ask? && AskOf(t[i], t[j].client)
    requires t[i].action == CloseAll && t[j].action == CloseAll
    ensures var c := t[j].client;
            || t[i].answer == Failed
            || (t[i].answer == Unheard && !Unsettled(t, i, j, c))
            || (t[i].answer == Taken && RecordLost(t, i, j, c))
  {
    RepeatedOnlyWhen(t, i, j);
  }

  /** In every reachable state a row may be asked again exactly when it was not recorded as over since its last action and
      that action was a definite failure, or unknown and settled, or a close or cancel taken with its record lost, or
      another action that was taken. */
  lemma MayAskAgainExactly(rows: seq<Row>, t: Trace, r: nat, i: nat)
    requires Good(rows, t) && r < |rows| && i < |t|
    requires AskOf(t[i], rows[r].client) && NotAsked(t, i, |t|, rows[r].client)
    ensures Live(rows[r]) && !rows[r].latched <==>
            NotOver(t, i, |t|, rows[r].client) && Repeatable(t, i, |t|, rows[r].client)
  {
    assert RowOk(t, rows[r]);
    assert t[..|t|] == t;
    Stands(t, i, |t|, rows[r].client);
  }

  function LostRecord(answer: Answer): Trace {
    [Intent(1), Ask(1, CloseAll, answer), if answer == Taken then Unrecorded(1) else RecordFailed(1),
     Ask(1, CloseAll, Failed)]
  }

  /** A record that failed is enough: these traces close again, after an unknown outcome and after a close the broker took,
      with no evidence, no release and no stop in between. */
  lemma LostRecordAsksAgain(answer: Answer)
    requires answer != Failed
    ensures Clean(LostRecord(answer))
    ensures forall e :: e in LostRecord(answer) ==> !e.Evidence? && !e.Release? && !e.Stopped?
  {
    var t := LostRecord(answer);
    assert Front(t) == t[..3] && Front(t[..3]) == t[..2] && Front(t[..2]) == t[..1] && Front(t[..1]) == [];
    assert StandingOf(t[..1], 1) == Settled && StandingOf(t[..3], 1) == Settled;
    assert StandingOf(t[..2], 1) == if answer == Taken then Owed else Heard;
    assert Intent(1) in t[..1] && Intent(1) in t[..2] && Intent(1) in t[..3];
    assert Clean(t[..1]) && Clean(t[..2]) && Clean(t[..3]);
  }
}
