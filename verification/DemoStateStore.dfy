/** The state-database transactions behind an operator's request, its completion and its alert
    (execution/broker_demo_state.py, execution/operator_actions.py). */
module DemoStateStore {
  import opened Maybe

  /** A manual-close request as stored; two requests are equal when their stored text is. */
  datatype Request = Request(client: int, trade: int, id: int)

  datatype Completion = ClosedByOperator | NotOpen | RefusedRequest | FailedAtBroker | DryRunOnly
  datatype Event = Requested(request: Request) | Completed(request: Request, kind: Completion) | Other
  datatype Delivery = Pending | Claimed(at: int) | Sent | Failed | Lost
  datatype Alert = Alert(event: nat, status: Delivery)

  datatype Db = Db(manual: Option<Request>, events: seq<Event>, outbox: seq<Alert>)

  function SetIfAbsent(db: Db, request: Request): (Db, bool) {
    if db.manual.Some? then (db, false)
    else (db.(manual := Some(request), events := db.events + [Requested(request)]), true)
  }

  function Consume(db: Db, request: Request, kind: Completion, notify: bool): (Db, bool) {
    if db.manual != Some(request) then (db, false)
    else (Db(None, db.events + [Completed(request, kind)],
             if notify then db.outbox + [Alert(|db.events|, Pending)] else db.outbox), true)
  }

  function Claimable(alert: Alert, now: int, staleBefore: int): Alert {
    if alert.status.Claimed? && alert.status.at < staleBefore then alert.(status := Lost)
    else if alert.status.Pending? then alert.(status := Claimed(now))
    else alert
  }

  function ClaimAll(outbox: seq<Alert>, now: int, staleBefore: int): seq<Alert> {
    if outbox == [] then []
    else ClaimAll(outbox[..|outbox| - 1], now, staleBefore) + [Claimable(outbox[|outbox| - 1], now, staleBefore)]
  }

  function PendingIds(outbox: seq<Alert>): seq<nat> {
    if outbox == [] then []
    else
      PendingIds(outbox[..|outbox| - 1]) +
      (if outbox[|outbox| - 1].status.Pending? then [outbox[|outbox| - 1].event] else [])
  }

  function FinishOne(alert: Alert, event: nat, status: Delivery): Alert {
    if alert.event == event && alert.status.Claimed? then alert.(status := status) else alert
  }

  function FinishAll(outbox: seq<Alert>, event: nat, status: Delivery): seq<Alert> {
    if outbox == [] then []
    else FinishAll(outbox[..|outbox| - 1], event, status) + [FinishOne(outbox[|outbox| - 1], event, status)]
  }

  class DemoStateStore {
    var manual: Option<Request>
    var events: seq<Event>
    var outbox: seq<Alert>

    constructor ()
      ensures Db(manual, events, outbox) == Db(None, [], [])
    {
      manual, events, outbox := None, [], [];
    }

    /** `set_flag_if_absent`: a pending request is never overwritten. */
    method SetFlagIfAbsent(request: Request) returns (stored: bool)
      modifies this
      ensures (Db(manual, events, outbox), stored) == SetIfAbsent(old(Db(manual, events, outbox)), request)
    {
      if manual.Some? {
        return false;
      }
      manual := Some(request);
      events := events + [Requested(request)];
      return true;
    }

    /** `consume_flag`: the request goes together with its completion event and, if wanted, its alert. */
    method ConsumeFlag(request: Request, kind: Completion, notify: bool) returns (consumed: bool)
      modifies this
      ensures (Db(manual, events, outbox), consumed) == Consume(old(Db(manual, events, outbox)), request, kind, notify)
    {
      if manual != Some(request) {
        return false;
      }
      manual := None;
      if notify { outbox := outbox + [Alert(|events|, Pending)]; }
      events := events + [Completed(request, kind)];
      return true;
    }

    /** `claim_outbox`: stale claims are given up, pending alerts become this caller's. */
    method ClaimOutbox(now: int, staleBefore: int) returns (claimed: seq<nat>)
      modifies `outbox
      ensures outbox == ClaimAll(old(outbox), now, staleBefore) && claimed == PendingIds(old(outbox))
    {
      claimed := [];
      var next: seq<Alert> := [];
      for n := 0 to |outbox|
        invariant next == ClaimAll(outbox[..n], now, staleBefore) && claimed == PendingIds(outbox[..n])
        invariant outbox == old(outbox)
      {
        assert outbox[..n + 1][..n] == outbox[..n];
        if outbox[n].status.Pending? { claimed := claimed + [outbox[n].event]; }
        next := next + [Claimable(outbox[n], now, staleBefore)];
      }
      assert outbox[..|outbox|] == outbox;
      outbox := next;
    }

    /** `event`: any other event of the router. */
    method Append()
      modifies `events
      ensures events == old(events) + [Other]
    {
      events := events + [Other];
    }

    /** `finish_outbox`: only an alert that still is claimed takes its outcome. */
    method FinishOutbox(event: nat, status: Delivery)
      modifies `outbox
      ensures outbox == FinishAll(old(outbox), event, status)
    {
      var next: seq<Alert> := [];
      for n := 0 to |outbox|
        invariant next == FinishAll(outbox[..n], event, status) && outbox == old(outbox)
      {
        assert outbox[..n + 1][..n] == outbox[..n];
        next := next + [FinishOne(outbox[n], event, status)];
      }
      assert outbox[..|outbox|] == outbox;
      outbox := next;
    }
  }
}
