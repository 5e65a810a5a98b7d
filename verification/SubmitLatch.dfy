/** Market submissions of one process: the client's retry loop and the latch on ids whose outcome is not known
    (execution/oanda_client.py, execution/oanda_broker.py), against a broker that may process a request late. */
module SubmitLatch {
  import opened Maybe

  // --- the retry loop ----------------------------------------------------------------------------------------------

  datatype Response = TooMany | ServerError | NoAnswer | Status(code: int)

  datatype CallResult = GuardRefused | RateLimited | Answered(response: Response)

  predicate Retryable(r: Response, read: bool) { r.TooMany? || (read && r.ServerError?) }

  /** `_call`: `sent` lists what every request that left the process came back with. */
  method Call(read: bool, transport: nat -> Response, guard: nat -> bool, max429: nat, maxRead: nat)
    returns (result: CallResult, sent: seq<Response>)
    ensures |sent| <= 1 + max429 + (if read then maxRead else 0)
    ensures forall i :: 0 <= i < |sent| - 1 ==> Retryable(sent[i], read)
    ensures result.Answered? ==> sent != [] && sent[|sent| - 1] == result.response && !result.response.TooMany?
    ensures !result.Answered? ==> forall i :: 0 <= i < |sent| ==> Retryable(sent[i], read)
    ensures result.RateLimited? ==> sent != [] && sent[|sent| - 1].TooMany?
  {
    sent := [];
    var throttled, failed := 0, 0;
    while true
      invariant 0 <= throttled <= max429 && 0 <= failed <= (if read then maxRead else 0)
      invariant |sent| == throttled + failed
      invariant forall i :: 0 <= i < |sent| ==> Retryable(sent[i], read)
      decreases max429 - throttled, maxRead - failed
    {
      if !read && !guard(|sent|) {
        return GuardRefused, sent;
      }
      var response := transport(|sent|);
      sent := sent + [response];
      if response.TooMany? {
        if throttled >= max429 {
          return RateLimited, sent;
        }
        throttled := throttled + 1;
      } else if response.ServerError? && read && failed < maxRead {
        failed := failed + 1;
      } else {
        return Answered(response), sent;
      }
    }
  }

  /** A trading request is only ever sent again after a 429, which the broker did not process. */
  method Post(transport: nat -> Response, guard: nat -> bool, max429: nat)
    returns (result: CallResult, sent: seq<Response>)
    ensures |sent| <= 1 + max429
    ensures forall i :: 0 <= i < |sent| - 1 ==> sent[i].TooMany?
    ensures result.Answered? <==> sent != [] && !sent[|sent| - 1].TooMany? && result == Answered(sent[|sent| - 1])
  {
    result, sent := Call(false, transport, guard, max429, 0);
  }

  // --- the latch ---------------------------------------------------------------------------------------------------

  datatype Latch = InFlight | OutcomeUnknown

  /** `Early` is a refusal or an exception of the checks that come before the latch. */
  datatype Outcome = Accepted | Rejected | Unknown | Raised | Early

  /** What the broker makes of a delivered order: nothing, a trade at once, or an order it may still process later. */
  datatype Fate = Nothing | Trade | Later

  /** The answer to the one request that got through. `Unclear` is a timeout, a 5xx or a lost connection, `NoEvidence` a
      payload that shows neither; only then the fate is open. */
  datatype Wire = NotSent | Filled | Refused | Unclear(fate: Fate) | NoEvidence(fate: Fate)

  function FateOf(w: Wire): Fate {
    match w
    case Filled => Trade
    case Unclear(fate) => fate
    case NoEvidence(fate) => fate
    case _ => Nothing
  }

  /** How a read ends; `Denied` is a refused login or a rate limit, which the caller gets to see as an exception. */
  datatype Reading = Readable | Failing | Denied

  /** What a check says: go on, a refusal, or an exception. */
  datatype Check = Passes | Refuses | Throws

  /** What happens at each numbered operation: checks before the latch, answers, reads that fail, the rest of the gate, and
      the late orders the broker processes meanwhile. */
  datatype World = World(early: nat -> Check, wire: nat -> Wire, reading: nat -> Reading, gate: nat -> Check,
                         late: nat -> seq<(int, bool)>)

  class OandaBroker {
    const world: World
    var unresolved: map<int, Latch>
    var ops: nat
    /** The account at the broker: the client id of every trade ever opened, and of every order not processed yet. */
    var trades: seq<int>
    var queued: multiset<int>

    /** At most one trade or unprocessed order per id, and an unprocessed order's id is latched. */
    ghost predicate Valid()
      reads this
    {
      forall e :: multiset(trades)[e] + queued[e] <= 1 && (queued[e] > 0 ==> e in unresolved)
    }

    constructor (w: World)
      ensures Valid() && trades == [] && world == w
    {
      world, unresolved, ops, trades, queued := w, map[], 0, [], multiset{};
    }

    /** Any unprocessed orders the broker gets to now, in any order. */
    method TimePasses()
      requires Valid()
      modifies `ops, `trades, `queued
      ensures Valid() && old(trades) <= trades && queued <= old(queued)
    {
      var late := world.late(ops);
      ops := ops + 1;
      for n := 0 to |late|
        invariant Valid() && old(trades) <= trades && queued <= old(queued)
      {
        var (ext, processed) := late[n];
        if ext in queued {
          queued := queued - multiset{ext};
          if processed { trades := trades + [ext]; }
        }
      }
    }

    /** `@ext` lookup in any state. */
    method Lookup(ext: int) returns (reading: Reading, found: bool)
      requires Valid()
      modifies `ops, `trades, `queued
      ensures Valid() && old(trades) <= trades && queued <= old(queued)
      ensures found <==> reading.Readable? && ext in trades
    {
      TimePasses();
      reading := world.reading(ops);
      found := reading.Readable? && ext in trades;
      ops := ops + 1;
    }

    /** The order reaches the broker, or not. */
    method Deliver(ext: int) returns (wire: Wire)
      requires Valid() && ext in unresolved && multiset(trades)[ext] + queued[ext] == 0
      modifies `ops, `trades, `queued
      ensures Valid() && old(trades) <= trades && (wire.Filled? ==> ext in trades)
      ensures FateOf(wire) == Nothing ==> multiset(trades)[ext] + queued[ext] == 0
      ensures forall e :: e != ext ==> queued[e] <= old(queued)[e]
      ensures !wire.Unclear? && !wire.NoEvidence? ==> queued[ext] == 0
    {
      wire := world.wire(ops);
      ops := ops + 1;
      match FateOf(wire) {
        case Nothing =>
        case Trade => trades := trades + [ext];
        case Later => queued := queued + multiset{ext};
      }
    }

    method ResolvePrevious(ext: int) returns (outcome: Outcome)
      requires Valid() && ext in unresolved
      modifies this
      ensures Valid() && old(trades) <= trades && (outcome == Accepted ==> ext in trades)
      ensures outcome in {Accepted, Unknown, Raised}
      ensures unresolved == if outcome == Accepted then old(unresolved) - {ext} else old(unresolved)
    {
      var reading, found := Lookup(ext);
      if reading.Denied? {
        return Raised;
      }
      if !found {
        return Unknown;
      }
      unresolved := unresolved - {ext};
      return Accepted;
    }

    /** The reads before the request; `None` when it may be sent. */
    method PreSubmitGate(ext: int) returns (answer: Option<Outcome>)
      requires Valid()
      modifies `ops, `trades, `queued
      ensures Valid() && old(trades) <= trades && queued <= old(queued)
      ensures match answer
              case None => ext !in trades
              case Some(outcome) => outcome in {Accepted, Rejected, Raised} && (outcome == Accepted ==> ext in trades)
    {
      var reading, existing := Lookup(ext);
      match reading {
        case Denied => return Some(Raised);
        case Failing => return Some(Rejected);
        case Readable =>
      }
      if existing {
        return Some(Accepted);
      }
      match world.gate(ops) {
        case Passes => return None;
        case Refuses => return Some(Rejected);
        case Throws => return Some(Raised);
      }
    }

    /** The one request and what its answer shows; an unclear one is looked up once. */
    method CreateOrder(ext: int) returns (outcome: Outcome)
      requires Valid() && ext in unresolved && multiset(trades)[ext] + queued[ext] == 0
      modifies `ops, `trades, `queued
      ensures Valid() && old(trades) <= trades && (outcome == Accepted ==> ext in trades)
      ensures outcome != Early && (outcome != Unknown ==> queued[ext] == 0)
    {
      var wire := Deliver(ext);
      match wire {
        case NotSent => return Raised;
        case Filled => return Accepted;
        case Refused => return Rejected;
        case NoEvidence(_) => return Unknown;
        case Unclear(_) =>
          var _, found := Lookup(ext);
          return if found then Accepted else Unknown;
      }
    }

    /** The request under a latch that any unexpected end leaves in place. */
    method Send(ext: int) returns (outcome: Outcome)
      requires Valid() && ext !in unresolved && ext !in trades
      modifies this
      ensures Valid() && old(trades) <= trades && (outcome == Accepted ==> ext in trades)
      ensures outcome != Early && (outcome != Unknown ==> queued[ext] == 0)
      ensures unresolved == if outcome == Unknown then old(unresolved)[ext := OutcomeUnknown] else old(unresolved)
    {
      unresolved := unresolved[ext := InFlight];
      outcome := CreateOrder(ext);
      if outcome == Unknown {
        unresolved := unresolved[ext := OutcomeUnknown];
      } else {
        unresolved := unresolved - {ext};
      }
    }

    /** `_submit_plan` for a market order. Accepted means a trade exists, and an unknown outcome leaves the id latched. After
        the checks before the latch, which change nothing, a definite answer leaves nothing that could still become a trade;
        an exception leaves the latch as it was. */
    method Submit(ext: int) returns (outcome: Outcome)
      requires Valid()
      modifies this
      ensures Valid() && old(trades) <= trades && (outcome == Accepted ==> ext in trades)
      ensures outcome == Unknown ==> ext in unresolved
      ensures outcome in {Accepted, Rejected} ==> ext !in unresolved && queued[ext] == 0
      ensures outcome == Raised ==> unresolved == old(unresolved)
      ensures outcome == Early ==> unresolved == old(unresolved) && trades == old(trades) && queued == old(queued)
      ensures unresolved.Keys - {ext} == old(unresolved.Keys) - {ext}
    {
      if !world.early(ops).Passes? {
        ops := ops + 1;
        return Early;
      }
      if ext in unresolved {
        outcome := ResolvePrevious(ext);
        return;
      }
      var gate := PreSubmitGate(ext);
      if gate.Some? {
        return gate.value;
      }
      outcome := Send(ext);
    }
  }

  /** Any submits in any order: at most one trade ever exists per client id, however late the broker works. */
  method Run(world: World, submits: seq<int>) returns (trades: seq<int>, outcomes: seq<Outcome>)
    ensures forall e :: multiset(trades)[e] <= 1
    ensures |outcomes| == |submits|
    ensures forall i :: 0 <= i < |submits| && outcomes[i] == Accepted ==> submits[i] in trades
  {
    var broker := new OandaBroker(world);
    outcomes := [];
    for n := 0 to |submits|
      invariant fresh(broker) && broker.Valid() && |outcomes| == n
      invariant forall i :: 0 <= i < n && outcomes[i] == Accepted ==> submits[i] in broker.trades
    {
      var outcome := broker.Submit(submits[n]);
      outcomes := outcomes + [outcome];
    }
    broker.TimePasses();
    return broker.trades, outcomes;
  }
}
