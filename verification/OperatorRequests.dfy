/** The life of an operator's request over any interleaving of clicks, router processes, stops and deliveries
    (execution/broker_demo_router.py, execution/operator_actions.py, execution/broker_demo_state.py). */
module OperatorRequests {
  import opened Maybe
  import opened DemoStateStore

  // --- manual close and its alert ----------------------------------------------------------------------------------

  /** Each router process holds the alerts it claimed and has not delivered yet; `delivered` is what left the process. */
  datatype System = System(db: Db, hands: seq<seq<nat>>, delivered: seq<nat>)

  datatype Action =
    | Click(request: Request)
    | Complete(request: Request, kind: Completion, notify: bool)
    | Start
    | Claim(p: nat, now: int, staleBefore: int)
    | Deliver(p: nat)
    | Finish(event: nat, status: Delivery)
    | Stop(p: nat)
    | Audit

  function Step(s: System, a: Action): System {
    match a
    case Click(request) => s.(db := SetIfAbsent(s.db, request).0)
    case Complete(request, kind, notify) => s.(db := Consume(s.db, request, kind, notify).0)
    case Start => s.(hands := s.hands + [[]])
    case Claim(p, now, staleBefore) =>
      if p < |s.hands| then
        s.(db := s.db.(outbox := ClaimAll(s.db.outbox, now, staleBefore)),
           hands := s.hands[p := s.hands[p] + PendingIds(s.db.outbox)])
      else s
    case Deliver(p) =>
      if p < |s.hands| && s.hands[p] != [] then
        s.(hands := s.hands[p := s.hands[p][1..]], delivered := s.delivered + [s.hands[p][0]])
      else s
    case Finish(event, status) =>
      if status in {Sent, Failed} then s.(db := s.db.(outbox := FinishAll(s.db.outbox, event, status))) else s
    case Stop(p) => if p < |s.hands| then s.(hands := s.hands[p := []]) else s
    case Audit => s.(db := s.db.(events := s.db.events + [Other]))
  }

  function Execute(actions: seq<Action>): System {
    if actions == [] then System(Db(None, [], []), [], [])
    else Step(Execute(actions[..|actions| - 1]), actions[|actions| - 1])
  }

  /** The store under any run holds what the specified run says. */
  method Run(actions: seq<Action>) returns (store: DemoStateStore, hands: seq<seq<nat>>, delivered: seq<nat>)
    ensures fresh(store)
    ensures System(Db(store.manual, store.events, store.outbox), hands, delivered) == Execute(actions)
  {
    store := new DemoStateStore();
    hands, delivered := [], [];
    for n := 0 to |actions|
      invariant fresh(store)
      invariant System(Db(store.manual, store.events, store.outbox), hands, delivered) == Execute(actions[..n])
    {
      assert actions[..n + 1][..n] == actions[..n];
      match actions[n] {
        case Click(request) => var _ := store.SetFlagIfAbsent(request);
        case Complete(request, kind, notify) => var _ := store.ConsumeFlag(request, kind, notify);
        case Start => hands := hands + [[]];
        case Claim(p, now, staleBefore) =>
          if p < |hands| {
            var claimed := store.ClaimOutbox(now, staleBefore);
            hands := hands[p := hands[p] + claimed];
          }
        case Deliver(p) =>
          if p < |hands| && hands[p] != [] {
            hands, delivered := hands[p := hands[p][1..]], delivered + [hands[p][0]];
          }
        case Finish(event, status) =>
          if status in {Sent, Failed} { store.FinishOutbox(event, status); }
        case Stop(p) =>
          if p < |hands| { hands := hands[p := []]; }
        case Audit => store.Append();
      }
    }
    assert actions[..|actions|] == actions;
  }

  /** The events read in order: a request opens only when none is open, a completion closes exactly the open one. */
  datatype Ledger = Ledger(ok: bool, open: Option<Request>)

  function Read(events: seq<Event>): Ledger {
    if events == [] then Ledger(true, None)
    else
      var before := Read(events[..|events| - 1]);
      match events[|events| - 1]
      case Requested(r) => Ledger(before.ok && before.open.None?, Some(r))
      case Completed(r, _) => Ledger(before.ok && before.open == Some(r), None)
      case Other => before
  }

  lemma ReadAppend(events: seq<Event>, e: Event)
    ensures Read(events + [e]) == match e
                                  case Requested(r) => Ledger(Read(events).ok && Read(events).open.None?, Some(r))
                                  case Completed(r, _) => Ledger(Read(events).ok && Read(events).open == Some(r), None)
                                  case Other => Read(events)
  {
    assert (events + [e])[..|events|] == events;
  }

  /** Over every run requests and completions alternate, each completion is of the request before it, and the stored
      request is the one still open: none is overwritten, and each is consumed at most once with one completion. */
  lemma {:induction false} RequestsAlternate(actions: seq<Action>)
    ensures Read(Execute(actions).db.events) == Ledger(true, Execute(actions).db.manual)
  {
    if actions == [] {
    } else {
      var s, a := Execute(actions[..|actions| - 1]), actions[|actions| - 1];
      RequestsAlternate(actions[..|actions| - 1]);
      match a
      case Click(request) => ReadAppend(s.db.events, Requested(request));
      case Complete(request, kind, _) => ReadAppend(s.db.events, Completed(request, kind));
      case Audit => ReadAppend(s.db.events, Other);
      case _ =>
    }
  }

  // --- at most one delivery ----------------------------------------------------------------------------------------

  /** How often an event is in a list, and in all the processes' lists. */
  function Times(ids: seq<nat>, e: nat): nat {
    if ids == [] then 0 else Times(ids[1..], e) + if ids[0] == e then 1 else 0
  }

  function Held(hands: seq<seq<nat>>, e: nat): nat {
    if hands == [] then 0 else Held(hands[..|hands| - 1], e) + Times(hands[|hands| - 1], e)
  }

  function Unclaimed(s: System, e: nat): nat { Times(PendingIds(s.db.outbox), e) }

  function Copies(s: System, e: nat): nat { Unclaimed(s, e) + Held(s.hands, e) + Times(s.delivered, e) }

  ghost predicate OnceFor(s: System, e: nat) {
    Copies(s, e) <= 1 && (Copies(s, e) > 0 ==> e < |s.db.events| && s.db.events[e].Completed?)
  }

  /** Every alert belongs to a completion already recorded, and is unclaimed, held by one process, or delivered once. */
  ghost predicate Once(s: System) { forall e :: OnceFor(s, e) }

  lemma {:induction false} TimesAdd(xs: seq<nat>, ys: seq<nat>, e: nat)
    ensures Times(xs + ys, e) == Times(xs, e) + Times(ys, e)
  {
    if xs == [] {
      assert xs + ys == ys;
    } else {
      assert (xs + ys)[1..] == xs[1..] + ys;
      TimesAdd(xs[1..], ys, e);
    }
  }

  lemma {:induction false} HeldUpdate(hands: seq<seq<nat>>, p: nat, hand: seq<nat>, e: nat)
    requires p < |hands|
    ensures Held(hands[p := hand], e) == Held(hands, e) - Times(hands[p], e) + Times(hand, e)
    decreases |hands|
  {
    var n := |hands| - 1;
    if p == n {
      assert hands[p := hand][..n] == hands[..n];
    } else {
      assert hands[p := hand][..n] == hands[..n][p := hand];
      HeldUpdate(hands[..n], p, hand, e);
    }
  }

  lemma {:induction false} ClaimedLeavesNone(outbox: seq<Alert>, now: int, staleBefore: int)
    ensures PendingIds(ClaimAll(outbox, now, staleBefore)) == []
  {
    if outbox != [] {
      var n := |outbox| - 1;
      ClaimedLeavesNone(outbox[..n], now, staleBefore);
      assert ClaimAll(outbox, now, staleBefore)[..|ClaimAll(outbox, now, staleBefore)| - 1] ==
             ClaimAll(outbox[..n], now, staleBefore);
    }
  }

  lemma {:induction false} FinishKeepsPending(outbox: seq<Alert>, event: nat, status: Delivery)
    requires status in {Sent, Failed}
    ensures PendingIds(FinishAll(outbox, event, status)) == PendingIds(outbox)
  {
    if outbox != [] {
      var n := |outbox| - 1;
      FinishKeepsPending(outbox[..n], event, status);
      assert FinishAll(outbox, event, status)[..|FinishAll(outbox, event, status)| - 1] ==
             FinishAll(outbox[..n], event, status);
    }
  }

  lemma ClaimKeepsOnce(s: System, p: nat, now: int, staleBefore: int, e: nat)
    requires Once(s) && p < |s.hands|
    ensures OnceFor(Step(s, Claim(p, now, staleBefore)), e)
  {
    ClaimedLeavesNone(s.db.outbox, now, staleBefore);
    HeldUpdate(s.hands, p, s.hands[p] + PendingIds(s.db.outbox), e);
    TimesAdd(s.hands[p], PendingIds(s.db.outbox), e);
    assert OnceFor(s, e);
  }

  lemma DeliverKeepsOnce(s: System, p: nat, e: nat)
    requires Once(s) && p < |s.hands| && s.hands[p] != []
    ensures OnceFor(Step(s, Deliver(p)), e)
  {
    HeldUpdate(s.hands, p, s.hands[p][1..], e);
    TimesAdd(s.delivered, [s.hands[p][0]], e);
    assert OnceFor(s, e);
  }

  lemma StopKeepsOnce(s: System, p: nat, e: nat)
    requires Once(s) && p < |s.hands|
    ensures OnceFor(Step(s, Stop(p)), e)
  {
    HeldUpdate(s.hands, p, [], e);
    assert OnceFor(s, e);
  }

  lemma StartKeepsOnce(s: System, e: nat)
    requires Once(s)
    ensures OnceFor(Step(s, Start), e)
  {
    assert Step(s, Start).hands[..|s.hands|] == s.hands;
    assert OnceFor(s, e);
  }

  lemma RecordKeepsOnce(s: System, a: Action, e: nat)
    requires Once(s) && (a.Click? || a.Audit? || a.Finish?)
    ensures OnceFor(Step(s, a), e)
  {
    if a.Finish? && a.status in {Sent, Failed} { FinishKeepsPending(s.db.outbox, a.event, a.status); }
    assert OnceFor(s, e);
  }

  lemma CompleteKeepsOnce(s: System, request: Request, kind: Completion, notify: bool, e: nat)
    requires Once(s)
    ensures OnceFor(Step(s, Complete(request, kind, notify)), e)
  {
    var next := Step(s, Complete(request, kind, notify));
    if s.db.manual == Some(request) && notify {
      assert next.db.outbox[..|s.db.outbox|] == s.db.outbox;
      TimesAdd(PendingIds(s.db.outbox), [|s.db.events|], e);
    }
    assert OnceFor(s, e);
  }

  lemma StepKeepsOnce(s: System, a: Action)
    requires Once(s)
    ensures Once(Step(s, a))
  {
    forall e: nat ensures OnceFor(Step(s, a), e) {
      match a
      case Claim(p, now, staleBefore) =>
        if p < |s.hands| { ClaimKeepsOnce(s, p, now, staleBefore, e); } else { assert OnceFor(s, e); }
      case Deliver(p) =>
        if p < |s.hands| && s.hands[p] != [] { DeliverKeepsOnce(s, p, e); } else { assert OnceFor(s, e); }
      case Stop(p) => if p < |s.hands| { StopKeepsOnce(s, p, e); } else { assert OnceFor(s, e); }
      case Start => StartKeepsOnce(s, e);
      case Complete(request, kind, notify) => CompleteKeepsOnce(s, request, kind, notify, e);
      case _ => RecordKeepsOnce(s, a, e);
    }
  }

  /** Over every run no alert is delivered twice, and only completions that are recorded have one. */
  lemma {:induction false} DeliveredAtMostOnce(actions: seq<Action>)
    ensures Once(Execute(actions))
  {
    if actions == [] {
    } else {
      DeliveredAtMostOnce(actions[..|actions| - 1]);
      StepKeepsOnce(Execute(actions[..|actions| - 1]), actions[|actions| - 1]);
    }
  }

  lemma {:induction false} TimesCounts(ids: seq<nat>, i: nat, j: nat)
    requires i < j < |ids| && ids[i] == ids[j]
    ensures Times(ids, ids[i]) >= 2
  {
    if i == 0 {
      TimesPositive(ids[1..], j - 1);
    } else {
      TimesCounts(ids[1..], i - 1, j - 1);
    }
  }

  lemma {:induction false} TimesPositive(ids: seq<nat>, i: nat)
    requires i < |ids|
    ensures Times(ids, ids[i]) >= 1
  {
    if i > 0 { TimesPositive(ids[1..], i - 1); }
  }

  /** The alert of a request leaves at most once, and only for a completion that is on record. */
  lemma NeverDeliveredTwice(actions: seq<Action>, i: nat, j: nat)
    requires i <= j < |Execute(actions).delivered|
    requires Execute(actions).delivered[i] == Execute(actions).delivered[j]
    ensures i == j
    ensures var s := Execute(actions);
            s.delivered[i] < |s.db.events| && s.db.events[s.delivered[i]].Completed?
  {
    DeliveredAtMostOnce(actions);
    var s := Execute(actions);
    assert OnceFor(s, s.delivered[i]);
    TimesPositive(s.delivered, i);
    if i < j { TimesCounts(s.delivered, i, j); }
  }
}
