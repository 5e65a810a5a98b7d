/** The exposures of a symbol in the order of their random order ids, and why that order does not matter to the protocol
    (execution/conflict_engine.py). */
module ConflictOrder {
  import opened Maybe
  import opened ConflictEngine

  /** The id of the order at each place. Ids are drawn at random, so they say nothing about the places. */
  type Ids = seq<nat>

  predicate Covers<T>(table: seq<T>, places: seq<nat>) { forall i :: 0 <= i < |places| ==> places[i] < |table| }

  function Insert(ids: Ids, places: seq<nat>, k: nat): seq<nat>
    requires k < |ids| && Covers(ids, places)
  {
    if places == [] then [k]
    else if ids[k] < ids[places[0]] then [k] + places
    else [places[0]] + Insert(ids, places[1..], k)
  }

  ghost predicate Sorted(ids: Ids, places: seq<nat>)
    requires Covers(ids, places)
  {
    forall i, j :: 0 <= i < j < |places| ==> ids[places[i]] <= ids[places[j]]
  }

  lemma {:induction false} InsertedHas(ids: Ids, places: seq<nat>, k: nat)
    requires k < |ids| && Covers(ids, places)
    ensures forall x: nat :: x in Insert(ids, places, k) <==> x in places || x == k
    ensures Covers(ids, Insert(ids, places, k))
  {
    if places != [] && ids[places[0]] <= ids[k] {
      assert places == [places[0]] + places[1..];
      InsertedHas(ids, places[1..], k);
    }
  }

  lemma {:induction false} InsertedSorted(ids: Ids, places: seq<nat>, k: nat)
    requires k < |ids| && Covers(ids, places) && Sorted(ids, places)
    ensures Covers(ids, Insert(ids, places, k)) && Sorted(ids, Insert(ids, places, k))
  {
    InsertedHas(ids, places, k);
    if places != [] && ids[places[0]] <= ids[k] {
      var rest := Insert(ids, places[1..], k);
      InsertedHas(ids, places[1..], k);
      InsertedSorted(ids, places[1..], k);
      forall j | 0 <= j < |rest| ensures ids[places[0]] <= ids[rest[j]] {
        assert rest[j] in rest;
        if rest[j] in places[1..] {
          var i :| 0 <= i < |places[1..]| && places[1..][i] == rest[j];
          assert places[i + 1] == rest[j];
        }
      }
    }
  }

  /** `sorted(orders)`: the first `n` places in the order of their ids. */
  function ById(ids: Ids, n: nat): (places: seq<nat>)
    requires n <= |ids|
    ensures Covers(ids, places) && Sorted(ids, places)
    ensures forall k: nat :: k in places <==> k < n
  {
    if n == 0 then []
    else
      var before := ById(ids, n - 1);
      InsertedHas(ids, before, n - 1);
      InsertedSorted(ids, before, n - 1);
      Insert(ids, before, n - 1)
  }

  function Pending(paper: Paper, symbol: string, places: seq<nat>): (found: seq<Exposure>)
    requires Covers(paper.orders, places)
  {
    if places == [] then []
    else
      var k, rest := places[0], Pending(paper, symbol, places[1..]);
      if PendingOf(paper, symbol, k)
      then [Exposure(PendingOrder, k, paper.orders[k].run, paper.orders[k].side, paper.orders[k].setup)] + rest
      else rest
  }

  function ExposuresById(ids: Ids, paper: Paper, symbol: string): seq<Exposure>
    requires |ids| == |paper.orders|
  {
    PositionExposure(paper, symbol) + Pending(paper, symbol, ById(ids, |ids|))
  }

  lemma Grow(a: seq<Exposure>, b: seq<Exposure>, c: seq<Exposure>)
    ensures a + (b + c) == (a + b) + c
  {}

  method ExposuresFor(ids: Ids, paper: Paper, symbol: string) returns (found: seq<Exposure>)
    requires |ids| == |paper.orders|
    ensures found == ExposuresById(ids, paper, symbol)
  {
    found := PositionExposure(paper, symbol);
    var places := ById(ids, |ids|);
    var i := 0;
    while i < |places|
      invariant 0 <= i <= |places|
      invariant found + Pending(paper, symbol, places[i..]) == ExposuresById(ids, paper, symbol)
    {
      assert places[i..][1..] == places[i + 1..];
      var order := paper.orders[places[i]];
      if order.symbol == symbol && order.status == OrderStatus.Pending {
        var e := Exposure(PendingOrder, places[i], order.run, order.side, order.setup);
        Grow(found, [e], Pending(paper, symbol, places[i + 1..]));
        found := found + [e];
      }
      i := i + 1;
    }
  }

  function ClassifyById(ids: Ids, paper: Paper, symbol: string, direction: Direction, setup: Option<string>): Conflict
    requires |ids| == |paper.orders|
  {
    Decide(ExposuresById(ids, paper, symbol), direction, setup)
  }

  lemma {:induction false} PendingLists(ids: Ids, paper: Paper, symbol: string, places: seq<nat>)
    requires |ids| == |paper.orders| && Covers(ids, places) && Sorted(ids, places)
    ensures var found := Pending(paper, symbol, places);
            if found == [] then forall k :: k in places ==> !PendingOf(paper, symbol, k)
            else
              && found[0].kind == PendingOrder && found[0].entity in places && PendingOf(paper, symbol, found[0].entity)
              && forall k :: k in places && PendingOf(paper, symbol, k) ==> ids[found[0].entity] <= ids[k]
  {
    if places != [] {
      assert places == [places[0]] + places[1..];
      if PendingOf(paper, symbol, places[0]) {
        forall k | k in places ensures ids[places[0]] <= ids[k] {
          var j :| 0 <= j < |places| && places[j] == k;
        }
      } else {
        PendingLists(ids, paper, symbol, places[1..]);
      }
    }
  }

  /** The position is the blocking entity of a symbol, else the pending order with the smallest id is. */
  ghost predicate Blocks(ids: Ids, paper: Paper, symbol: string, e: Exposure)
    requires |ids| == |paper.orders|
  {
    if symbol in paper.positions then e.kind == OpenPosition && e.entity == paper.positions[symbol].origin
    else
      && e.kind == PendingOrder && PendingOf(paper, symbol, e.entity)
      && forall k: nat :: PendingOf(paper, symbol, k) ==> ids[e.entity] <= ids[k]
  }

  lemma FirstExposure(ids: Ids, paper: Paper, symbol: string)
    requires |ids| == |paper.orders|
    ensures var found := ExposuresById(ids, paper, symbol);
            if found == [] then !Exposed(paper, symbol)
            else Exposed(paper, symbol) && Blocks(ids, paper, symbol, found[0])
  {
    var places := ById(ids, |ids|);
    PendingLists(ids, paper, symbol, places);
    assert forall k: nat :: PendingOf(paper, symbol, k) ==> k in places;
  }

  /** A valid candidate continues to Risk exactly when its symbol carries no exposure at all; otherwise the reported
      blocking entity is the open position if there is one, else the pending order with the smallest id. */
  lemma ClassifyMeaning(ids: Ids, paper: Paper, symbol: string, direction: Direction, setup: Option<string>)
    requires |ids| == |paper.orders|
    ensures var c := ClassifyById(ids, paper, symbol, direction, setup);
      && (c.allow <==> direction != Unknown && setup.Some? && setup.value != "" && !Exposed(paper, symbol))
      && (c.classification == InvalidCandidate <==> direction == Unknown || setup.None? || setup.value == "")
      && (c.blocking.Some? ==> Blocks(ids, paper, symbol, c.blocking.value))
      && (c.blocking.Some? <==> !c.allow && c.classification != InvalidCandidate)
  {
    FirstExposure(ids, paper, symbol);
  }

  /** With at most one exposure per symbol, as in every reachable state, the protocol's decision is this one whatever ids
      were drawn. */
  lemma IdsMakeNoDifference(ids: Ids, paper: Paper, symbol: string, direction: Direction, setup: Option<string>)
    requires |ids| == |paper.orders| && SingleExposure(paper)
    ensures ClassifyById(ids, paper, symbol, direction, setup) == Classify(paper, symbol, direction, setup)
  {
    var places := ById(ids, |ids|);
    PendingLists(ids, paper, symbol, places);
    SameFirst(paper, symbol, places);
  }

  lemma {:induction false} FirstIsWhole(paper: Paper, symbol: string, places: seq<nat>)
    requires Covers(paper.orders, places)
    ensures var found := Pending(paper, symbol, places);
            found != [] ==>
              var k := found[0].entity;
              k in places && PendingOf(paper, symbol, k) && found[0] ==
              Exposure(PendingOrder, k, paper.orders[k].run, paper.orders[k].side, paper.orders[k].setup)
  {
    if places != [] { FirstIsWhole(paper, symbol, places[1..]); }
  }

  lemma {:induction false} PlacesWhole(paper: Paper, symbol: string, i: nat)
    requires i <= |paper.orders|
    ensures var found := PendingExposures(paper, symbol, i);
            found != [] ==>
              var k := found[0].entity;
              PendingOf(paper, symbol, k) && found[0] ==
              Exposure(PendingOrder, k, paper.orders[k].run, paper.orders[k].side, paper.orders[k].setup)
    decreases |paper.orders| - i
  {
    if i < |paper.orders| { PlacesWhole(paper, symbol, i + 1); }
  }

  lemma SameFirst(paper: Paper, symbol: string, places: seq<nat>)
    requires SingleExposure(paper) && Covers(paper.orders, places)
    requires forall k: nat :: k in places <==> k < |paper.orders|
    requires Pending(paper, symbol, places) == [] ==> forall k :: k in places ==> !PendingOf(paper, symbol, k)
    ensures var a, b := Pending(paper, symbol, places), PendingExposures(paper, symbol, 0);
            (a == [] <==> b == []) && (a != [] ==> a[0] == b[0])
  {
    FirstIsWhole(paper, symbol, places);
    PlacesWhole(paper, symbol, 0);
  }
}
