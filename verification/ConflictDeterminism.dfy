/** Exactly when the submission path is safe: when the ambient drawdown basis cannot change what Risk V2 answers on one
    PAPER state. `evaluate` reads that basis from a context variable (execution/risk_engine_v2.py), which is neither
    part of the fingerprint nor of the compared state. */
module ConflictDeterminism {
  import opened Maybe
  import opened ConflictEngine
  import opened PaperHistory
  import opened ConflictStore
  import opened ConflictPath
  import opened ConflictSafety

  ghost predicate SafeRuns(risk: Risk) {
    forall store: Store, actions: seq<Action> :: Initial(store) ==> Safe(Execute(risk, Start(store), actions).store)
  }

  lemma Then(risk: Risk, sys: System, actions: seq<Action>, a: Action)
    ensures Execute(risk, sys, actions + [a]) == Step(risk, Execute(risk, sys, actions), a)
  {
    assert (actions + [a])[..|actions|] == actions;
  }

  function UnusedRun(orders: seq<Order>): (run: nat)
    ensures forall i :: 0 <= i < |orders| ==> orders[i].run < run
  {
    if orders == [] then 0
    else
      var n := |orders| - 1;
      var before := UnusedRun(orders[..n]);
      assert forall i :: 0 <= i < n ==> orders[..n][i] == orders[i];
      if before <= orders[n].run then orders[n].run + 1 else before
  }

  /** Process 0 claims, loads, checks and is approved under `yes`; process 1, the same candidate, is refused under `no`
      on the same state and journals it; then process 0 saves. */
  function Collision(run: nat, cand: Candidate, yes: Basis, no: Basis): seq<Action> {
    [Spawn(run, cand), Spawn(run, cand)]
    + [Advance(0, yes), Advance(0, yes), Advance(0, yes), Advance(0, yes)]
    + [Advance(1, no), Advance(1, no), Advance(1, no), Advance(1, no)]
    + [Advance(1, no), Advance(0, yes)]
  }

  lemma Unrolled(risk: Risk, sys: System, a: seq<Action>)
    requires |a| == 4
    ensures Execute(risk, sys, a) == Step(risk, Step(risk, Step(risk, Step(risk, sys, a[0]), a[1]), a[2]), a[3])
  {
    Then(risk, sys, [], a[0]);
    Then(risk, sys, [a[0]], a[1]);
    Then(risk, sys, [a[0], a[1]], a[2]);
    Then(risk, sys, [a[0], a[1], a[2]], a[3]);
    assert [a[0], a[1], a[2]] + [a[3]] == a;
    assert [] + [a[0]] == [a[0]];
    assert [a[0]] + [a[1]] == [a[0], a[1]];
    assert [a[0], a[1]] + [a[2]] == [a[0], a[1], a[2]];
  }

  lemma {:induction false} Composed(risk: Risk, sys: System, a: seq<Action>, b: seq<Action>)
    ensures Execute(risk, sys, a + b) == Execute(risk, Execute(risk, sys, a), b)
  {
    if b == [] {
      assert a + b == a;
    } else {
      var n := |b| - 1;
      assert a + b == (a + b[..n]) + [b[n]];
      Then(risk, sys, a + b[..n], b[n]);
      Composed(risk, sys, a, b[..n]);
    }
  }

  function Answered(risk: Risk, cand: Candidate, paper: Paper, basis: Basis): Pc {
    var verdict := risk(cand, paper, basis);
    if verdict.Approved? then Reserving(1, paper, verdict.quantity, basis)
    else Refusing(1, paper, RiskRejected, basis)
  }

  ghost predicate Open(store: Store, run: nat, cand: Candidate) {
    && !HasHistory(store, run)
    && (FirstClaim(store.journal, run) == None || FirstClaim(store.journal, run) == Some(cand))
  }

  function At(sys: System, p: nat, store: Store, run: nat, cand: Candidate, pc: Pc): System
    requires p < |sys.procs|
  {
    System(store, sys.procs[p := Proc(run, cand, pc)])
  }

  lemma OneStep(risk: Risk, sys: System, p: nat, basis: Basis, store: Store, run: nat, cand: Candidate, pc: Pc,
                next: Store, pc': Pc)
    requires p < |sys.procs| && ProcStep(risk, store, Proc(run, cand, pc), basis) == (next, pc')
    ensures Step(risk, At(sys, p, store, run, cand, pc), Advance(p, basis)) == At(sys, p, next, run, cand, pc')
  {}

  lemma ClaimOpens(store: Store, run: nat, cand: Candidate)
    requires Open(store, run, cand)
    ensures var next := ClaimRun(store, run, cand).0;
            && next.paper == store.paper && store.journal <= next.journal
            && !HasHistory(next, run) && FirstClaim(next.journal, run) == Some(cand)
  {
    ClaimAfterAppend(store.journal, Claim(run, cand), run);
    Appended(store, Claim(run, cand), run);
  }

  /** From the start to the point before a process writes. */
  lemma FourSteps(risk: Risk, sys: System, p: nat, basis: Basis, cand: Candidate, run: nat)
    requires p < |sys.procs| && sys.procs[p] == Proc(run, cand, Starting)
    requires Open(sys.store, run, cand) && ConflictOf(cand, sys.store.paper).allow
    ensures var a := Advance(p, basis);
            Execute(risk, sys, [a, a, a, a]) ==
            At(sys, p, ClaimRun(sys.store, run, cand).0, run, cand, Answered(risk, cand, sys.store.paper, basis))
  {
    var a := Advance(p, basis);
    var paper := sys.store.paper;
    var store := ClaimRun(sys.store, run, cand).0;
    ClaimOpens(sys.store, run, cand);
    assert At(sys, p, sys.store, run, cand, Starting) == sys;
    OneStep(risk, sys, p, basis, sys.store, run, cand, Starting, store, Loading(1));
    OneStep(risk, sys, p, basis, store, run, cand, Loading(1), store, Loaded(1, paper));
    OneStep(risk, sys, p, basis, store, run, cand, Loaded(1, paper), store, Undecided(1, paper));
    OneStep(risk, sys, p, basis, store, run, cand, Undecided(1, paper), store, Answered(risk, cand, paper, basis));
    Unrolled(risk, sys, [a, a, a, a]);
  }

  /** A process about to refuse and one about to reserve, both on the durable state: both rows become durable. */
  lemma TwoDecisions(risk: Risk, sys: System, run: nat, cand: Candidate, quantity: real, yes: Basis, no: Basis)
    requires sys.procs == [Proc(run, cand, Reserving(1, sys.store.paper, quantity, yes)),
                           Proc(run, cand, Refusing(1, sys.store.paper, RiskRejected, no))]
    requires !HasHistory(sys.store, run) && FirstClaim(sys.store.journal, run) == Some(cand)
    ensures !Safe(Step(risk, Step(risk, sys, Advance(1, no)), Advance(0, yes)).store)
  {
    var paper := sys.store.paper;
    var row := Decision(run, cand, RiskRejected, None, paper, no);
    var c := Step(risk, sys, Advance(1, no));
    assert c.store == Store(paper, sys.store.journal + [row]);
    assert c.procs[0] == sys.procs[0];
    var row' := Decision(run, cand, Reserved, Some(|paper.orders|), paper, yes);
    var d := Step(risk, c, Advance(0, yes));
    assert d.store.journal == c.store.journal + [row'];
    var j := |sys.store.journal|;
    assert DecisionAt(d.store.journal, run, j) && DecisionAt(d.store.journal, run, j + 1);
    ClaimAfterAppend(sys.store.journal, row, run);
    ClaimAfterAppend(c.store.journal, row', run);
    assert !DecidedOnce(d.store, run, cand);
  }

  lemma Phases(risk: Risk, sys: System, a: seq<Action>, b: seq<Action>, c: seq<Action>, x: Action, y: Action)
    ensures Execute(risk, sys, a + b + c + [x, y]) ==
            Step(risk, Step(risk, Execute(risk, Execute(risk, Execute(risk, sys, a), b), c), x), y)
  {
    Composed(risk, sys, a, b);
    Composed(risk, sys, a + b, c);
    Then(risk, sys, a + b + c, x);
    Then(risk, sys, a + b + c + [x], y);
    assert a + b + c + [x, y] == a + b + c + [x] + [y];
  }

  lemma Spawned(risk: Risk, store: Store, run: nat, cand: Candidate)
    ensures Execute(risk, Start(store), [Spawn(run, cand), Spawn(run, cand)]) ==
            System(store, [Proc(run, cand, Starting), Proc(run, cand, Starting)])
  {
    var a := Spawn(run, cand);
    Then(risk, Start(store), [], a);
    Then(risk, Start(store), [a], a);
    assert [] + [a] == [a] && [a] + [a] == [a, a];
  }

  lemma Collide(risk: Risk, store: Store, run: nat, cand: Candidate, yes: Basis, no: Basis)
    requires store.journal == [] && !HasOrder(store.paper, run) && ConflictOf(cand, store.paper).allow
    requires risk(cand, store.paper, yes).Approved? && risk(cand, store.paper, no).Refused?
    ensures !Safe(Execute(risk, Start(store), Collision(run, cand, yes, no)).store)
  {
    var y, n := Advance(0, yes), Advance(1, no);
    var start := Proc(run, cand, Starting);
    Spawned(risk, store, run, cand);
    var two := System(store, [start, start]);
    FourSteps(risk, two, 0, yes, cand, run);
    ClaimOpens(store, run, cand);
    var claimed := ClaimRun(store, run, cand).0;
    var one := At(two, 0, claimed, run, cand, Answered(risk, cand, store.paper, yes));
    FourSteps(risk, one, 1, no, cand, run);
    var both := At(one, 1, claimed, run, cand, Answered(risk, cand, store.paper, no));
    TwoDecisions(risk, both, run, cand, risk(cand, store.paper, yes).quantity, yes, no);
    Phases(risk, Start(store), [Spawn(run, cand), Spawn(run, cand)], [y, y, y, y], [n, n, n, n], n, y);
  }

  lemma CollisionBreaks(risk: Risk, paper: Paper, cand: Candidate, yes: Basis, no: Basis)
    requires SingleExposure(paper) && ConflictOf(cand, paper).allow
    requires risk(cand, paper, yes).Approved? && risk(cand, paper, no).Refused?
    ensures !SafeRuns(risk)
  {
    var run := UnusedRun(paper.orders);
    var store := Store(paper, []);
    assert Initial(store);
    Collide(risk, store, run, cand, yes, no);
    var actions := Collision(run, cand, yes, no);
    assert !(Initial(store) ==> Safe(Execute(risk, Start(store), actions).store));
  }

  /** The submission path keeps every run decided once in every execution exactly when, on every admissible PAPER
      state, Risk's answer does not depend on the drawdown basis in effect. */
  lemma SafeExactlyWhenDeterministic(risk: Risk)
    ensures SafeRuns(risk) <==> Deterministic(risk)
  {
    if Deterministic(risk) {
      forall store: Store, actions: seq<Action> | Initial(store)
        ensures Safe(Execute(risk, Start(store), actions).store)
      {
        SubmissionIsSafe(risk, store, actions);
      }
    } else {
      var cand, paper, b, b' :| SingleExposure(paper) && ConflictOf(cand, paper).allow
                                && !(risk(cand, paper, b).Approved? <==> risk(cand, paper, b').Approved?);
      if risk(cand, paper, b).Approved? {
        CollisionBreaks(risk, paper, cand, b, b');
      } else {
        CollisionBreaks(risk, paper, cand, b', b);
      }
    }
  }

  /** A caller that evaluates every attempt under one and the same basis is safe, whatever Risk computes. */
  lemma OneBasisIsSafe(risk: Risk, basis: Basis)
    ensures SafeRuns((cand, paper, _) => risk(cand, paper, basis))
  {
    SafeExactlyWhenDeterministic((cand, paper, _) => risk(cand, paper, basis));
  }

  /** Gate 4 of Risk V2: the account drawdown limit, on the external account when such a basis is scoped. */
  function DrawdownGate(paper: Paper, starting: real, basis: Basis): Verdict {
    match basis
    case Unavailable => Refused("ACCOUNT_DRAWDOWN_UNAVAILABLE")
    case PaperAccount =>
      if paper.equity <= starting * 0.95 then Refused("ACCOUNT_DRAWDOWN_LIMIT") else Approved(1.0)
    case External(current, start) =>
      if start <= 0.0 then Refused("ACCOUNT_DRAWDOWN_UNAVAILABLE")
      else if current <= start * 0.95 then Refused("ACCOUNT_DRAWDOWN_LIMIT")
      else Approved(1.0)
  }

  /** With that gate, two submissions of one run evaluated under different bases can leave an approved order and a
      durable refusal side by side. */
  lemma ScopedBasisIsUnsafe(starting: real)
    ensures !SafeRuns((cand, paper, basis) => DrawdownGate(paper, starting, basis))
  {
    var risk: Risk := (cand, paper, basis) => DrawdownGate(paper, starting, basis);
    var cand := Candidate("EURUSD", Some("setup"), Long, 2.0, 1.0, 5.0, "");
    var paper := Paper(10000.0, [], map[], []);
    AllowedExactly(paper, cand.symbol, cand.side, cand.setup);
    CollisionBreaks(risk, paper, cand, External(100.0, 100.0), Unavailable);
  }
}
