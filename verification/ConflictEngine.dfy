/** The PAPER state and the deterministic conflict decision taken on it (execution/conflict_engine.py). */
module ConflictEngine {
  import opened Maybe

  datatype Direction = Long | Short | Unknown
  datatype OrderStatus = Pending | Filled | Cancelled | Rejected

  datatype Order = Order(run: nat, symbol: string, side: Direction, setup: Option<string>,
                         entry: real, stop: real, target: real, quantity: real, status: OrderStatus)

  /** An open position. `origin` is the order it came from; `mark` is its processing watermark. */
  datatype Position = Position(origin: nat, run: nat, side: Direction, setup: Option<string>, mark: int)

  datatype Trade = Trade(origin: nat, net: real)

  /** The durable PAPER state. An order is identified by its place: order rows are inserted and their status rewritten,
      never deleted. There is one open position per symbol. */
  datatype Paper = Paper(equity: real, orders: seq<Order>, positions: map<string, Position>, closed: seq<Trade>)

  datatype ExposureKind = OpenPosition | PendingOrder

  datatype Exposure = Exposure(kind: ExposureKind, entity: nat, run: nat, direction: Direction, setup: Option<string>)

  predicate PendingOf(paper: Paper, symbol: string, i: nat) {
    i < |paper.orders| && paper.orders[i].symbol == symbol && paper.orders[i].status == Pending
  }

  predicate HasPending(paper: Paper, symbol: string) {
    exists i: nat :: i < |paper.orders| && PendingOf(paper, symbol, i)
  }

  /** Durable same-symbol economic exposure: an open position or a pending order. */
  predicate Exposed(paper: Paper, symbol: string) {
    symbol in paper.positions || HasPending(paper, symbol)
  }

  /** At most one exposure per symbol: one pending order, or one position, never both. */
  ghost predicate SingleExposure(paper: Paper) {
    && (forall symbol: string, i: nat, j: nat ::
          PendingOf(paper, symbol, i) && PendingOf(paper, symbol, j) ==> i == j)
    && (forall symbol: string, i: nat :: PendingOf(paper, symbol, i) ==> symbol !in paper.positions)
  }

  function PendingExposures(paper: Paper, symbol: string, i: nat): (found: seq<Exposure>)
    requires i <= |paper.orders|
    ensures found == [] <==> forall k: nat :: i <= k ==> !PendingOf(paper, symbol, k)
    ensures forall k :: 0 <= k < |found| ==>
      found[k].kind == PendingOrder && i <= found[k].entity && PendingOf(paper, symbol, found[k].entity)
    ensures forall k: nat :: i <= k && PendingOf(paper, symbol, k) ==>
      found[0].entity <= k
    decreases |paper.orders| - i
  {
    if i == |paper.orders| then []
    else
      var order := paper.orders[i];
      var rest := PendingExposures(paper, symbol, i + 1);
      if PendingOf(paper, symbol, i)
      then [Exposure(PendingOrder, i, order.run, order.side, order.setup)] + rest
      else rest
  }

  function PositionExposure(paper: Paper, symbol: string): seq<Exposure> {
    if symbol in paper.positions then
      var p := paper.positions[symbol];
      [Exposure(OpenPosition, p.origin, p.run, p.side, p.setup)]
    else []
  }

  /** The exposures of a symbol, pending orders by place. They are listed by id in the code, which makes no difference as
      long as no symbol has two (ConflictOrder.IdsMakeNoDifference). */
  function Exposures(paper: Paper, symbol: string): seq<Exposure> {
    PositionExposure(paper, symbol) + PendingExposures(paper, symbol, 0)
  }

  datatype Classification = NoConflict | DuplicateSetup | SameDirectionNewSetup | OppositeSetup | UnknownSetupId
                          | InvalidCandidate

  datatype Conflict = Conflict(allow: bool, classification: Classification, blocking: Option<Exposure>)

  /** The decision on the exposures of the candidate's symbol. */
  function Decide(exposures: seq<Exposure>, direction: Direction, setup: Option<string>): Conflict {
    if direction == Unknown then Conflict(false, InvalidCandidate, None)
    else if setup.None? || setup.value == "" then Conflict(false, InvalidCandidate, None)
    else if exposures == [] then Conflict(true, NoConflict, None)
    else
      var blocking := exposures[0];
      if blocking.setup.None? then Conflict(false, UnknownSetupId, Some(blocking))
      else if blocking.setup == setup then Conflict(false, DuplicateSetup, Some(blocking))
      else if blocking.direction == direction then Conflict(false, SameDirectionNewSetup, Some(blocking))
      else Conflict(false, OppositeSetup, Some(blocking))
  }

  function Classify(paper: Paper, symbol: string, direction: Direction, setup: Option<string>): Conflict {
    Decide(Exposures(paper, symbol), direction, setup)
  }

  lemma AllowedExactly(paper: Paper, symbol: string, direction: Direction, setup: Option<string>)
    ensures Classify(paper, symbol, direction, setup).allow <==>
            direction != Unknown && setup.Some? && setup.value != "" && !Exposed(paper, symbol)
  {
    var found := PendingExposures(paper, symbol, 0);
    if found != [] { assert PendingOf(paper, symbol, found[0].entity); }
  }
}
