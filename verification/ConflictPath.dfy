/** The submission protocol as a step machine: any number of processes, each following
    `submit_with_conflict_control` one durable read or write at a time, interleaved with each other, with crashes and
    with the fills, cancels, bars and closes of the rest of the system (execution/conflict_path.py). */
module ConflictPath {
  import opened Maybe
  import opened ConflictEngine
  import opened PaperHistory
  import opened ConflictStore

  type Risk = (Candidate, Paper, Basis) -> Verdict

  datatype Result =
    | Submitted(order: nat)
    | Refusal(outcome: Outcome)
    | DuplicateRun
    | StaleAttempt
    | RunMismatch
    | IdentityUnknown
    | Crashed

  /** Where a process is. `snap` is the PAPER state it loaded; nothing else survives between its steps. */
  datatype Pc =
    | Starting
    | Loading(attempt: nat)
    | Loaded(attempt: nat, snap: Paper)
    | Undecided(attempt: nat, snap: Paper)
    | Refusing(attempt: nat, snap: Paper, outcome: Outcome, basis: Basis)
    | Reserving(attempt: nat, snap: Paper, quantity: real, basis: Basis)
    | LostTwice
    | Reconciling
    | Finished(result: Result)

  datatype Proc = Proc(run: nat, cand: Candidate, pc: Pc)

  datatype System = System(store: Store, procs: seq<Proc>)

  datatype Action =
    | Spawn(run: nat, cand: Candidate)
    | Advance(p: nat, basis: Basis)
    | Crash(p: nat)
    | World(change: Change)

  function ConflictOf(cand: Candidate, paper: Paper): Conflict {
    Classify(paper, cand.symbol, cand.side, cand.setup)
  }

  function OrderOf(run: nat, cand: Candidate, quantity: real): Order {
    Order(run, cand.symbol, cand.side, cand.setup, cand.entry, cand.stop, cand.target, quantity, Pending)
  }

  function Retry(attempt: nat): Pc {
    if attempt == 1 then Loading(2) else LostTwice
  }

  /** INV-6.6 / INV-6.7: a committed order or decision that is not the claimed candidate's is never returned as its
      outcome. */
  predicate Consistent(store: Store, run: nat, cand: Candidate) {
    && (forall i: nat :: i < |store.paper.orders| && OrderAt(store.paper, run, i) ==>
          store.paper.orders[i] == OrderOf(run, cand, store.paper.orders[i].quantity)
                                   .(status := store.paper.orders[i].status))
    && (forall i: nat :: i < |store.journal| && DecisionAt(store.journal, run, i) ==> store.journal[i].cand == cand)
  }

  /** One atomic step of a process: the durable transaction it performs and the point it reaches. */
  function ProcStep(risk: Risk, store: Store, proc: Proc, basis: Basis): (Store, Pc) {
    var run, cand := proc.run, proc.cand;
    match proc.pc
    case Starting =>
      var (next, status) := ClaimRun(store, run, cand);
      (next, match status
             case Claimed => Loading(1)
             case Same => Loading(1)
             case Mismatch => Finished(RunMismatch)
             case UnknownHistory => Finished(IdentityUnknown))
    case Loading(attempt) => (store, Loaded(attempt, store.paper))
    case Loaded(attempt, snap) =>
      (store, if HasOrder(snap, run) || Decided(store.journal, run) then Reconciling else Undecided(attempt, snap))
    case Undecided(attempt, snap) =>
      (store,
       if !ConflictOf(cand, snap).allow then Refusing(attempt, snap, Blocked, basis)
       else match risk(cand, snap, basis)
            case Approved(quantity) => Reserving(attempt, snap, quantity, basis)
            case Refused(_) => Refusing(attempt, snap, RiskRejected, basis))
    case Refusing(attempt, snap, outcome, at) =>
      var (next, status) := CommitDecision(store, Decision(run, cand, outcome, None, snap, at));
      (next, match status
             case Committed => Finished(Refusal(outcome))
             case Duplicate => Reconciling
             case ForeignClaim => Reconciling
             case StaleState => Retry(attempt))
    case Reserving(attempt, snap, quantity, at) =>
      var order := |snap.orders|;
      var (next, saved) := SaveReservation(store, OrderOf(run, cand, quantity),
                                           Decision(run, cand, Reserved, Some(order), snap, at));
      (next, if saved then Finished(Submitted(order)) else Retry(attempt))
    case LostTwice =>
      var (next, decided) := NoteStale(store, run, cand);
      (next, if decided then Reconciling else Finished(StaleAttempt))
    case Reconciling =>
      (store, Finished(if Consistent(store, run, cand) then DuplicateRun else RunMismatch))
    case Finished(_) => (store, proc.pc)
  }

  function Step(risk: Risk, sys: System, a: Action): System {
    match a
    case Spawn(run, cand) => sys.(procs := sys.procs + [Proc(run, cand, Starting)])
    case Advance(p, basis) =>
      if p < |sys.procs| then
        var (store, pc) := ProcStep(risk, sys.store, sys.procs[p], basis);
        System(store, sys.procs[p := sys.procs[p].(pc := pc)])
      else sys
    case Crash(p) =>
      if p < |sys.procs| && !sys.procs[p].pc.Finished?
      then sys.(procs := sys.procs[p := sys.procs[p].(pc := Finished(Crashed))])
      else sys
    case World(change) => sys.(store := sys.store.(paper := Apply(sys.store.paper, change)))
  }

  function Execute(risk: Risk, sys: System, actions: seq<Action>): System {
    if actions == [] then sys
    else Step(risk, Execute(risk, sys, actions[..|actions| - 1]), actions[|actions| - 1])
  }

  /** A database the path starts on: any PAPER state with at most one exposure per symbol and any journal from before
      claims existed. */
  ghost predicate Initial(store: Store) {
    && SingleExposure(store.paper)
    && (forall i :: 0 <= i < |store.journal| ==> !store.journal[i].Claim?)
    && NotedOnce(store.journal)
  }

  /** At most one stale observation per run. */
  ghost predicate NotedOnce(journal: seq<Row>) {
    forall i, j :: 0 <= i < j < |journal| && journal[i].StaleNote? && journal[j].StaleNote? ==>
      journal[i].run != journal[j].run
  }

  function Start(store: Store): System { System(store, []) }

  // --- what is claimed of every reachable state --------------------------------------------------------------------

  /** At most one decisive outcome of the run is durable; a RESERVED row exists exactly when the run's order exists,
      there is one such order, and it carries the claimed candidate's terms. */
  ghost predicate DecidedOnce(store: Store, run: nat, cand: Candidate) {
    && (forall i: nat, j: nat :: DecisionAt(store.journal, run, i) && DecisionAt(store.journal, run, j) ==> i == j)
    && (forall i: nat :: DecisionAt(store.journal, run, i) ==> DecisionFits(store, store.journal[i], run, cand))
    && (forall k: nat :: OrderAt(store.paper, run, k) ==>
          exists i: nat :: ReservedBy(store.journal, run, i, k))
  }

  ghost predicate ReservedBy(journal: seq<Row>, run: nat, i: nat, order: nat) {
    DecisionAt(journal, run, i) && journal[i].outcome == Reserved && journal[i].order == Some(order)
  }

  ghost predicate DecisionFits(store: Store, row: Row, run: nat, cand: Candidate)
    requires row.Decision?
  {
    && row.cand == cand
    && (row.outcome == Reserved ==>
          row.order.Some? && OrderAt(store.paper, run, row.order.value) &&
          SameTerms(store.paper.orders[row.order.value], run, cand))
    && (row.outcome != Reserved ==> row.order.None?)
  }

  ghost predicate SameTerms(order: Order, run: nat, cand: Candidate) {
    order == OrderOf(run, cand, order.quantity).(status := order.status)
  }

  /** Every run bound to a candidate is decided at most once, and consistently. */
  ghost predicate Safe(store: Store) {
    forall run: nat, cand: Candidate :: FirstClaim(store.journal, run) == Some(cand) ==> DecidedOnce(store, run, cand)
  }

  /** The result a process returned is what the database holds. */
  ghost predicate Truthful(store: Store, proc: Proc, result: Result) {
    match result
    case Submitted(k) =>
      && Bound(store, proc)
      && OrderAt(store.paper, proc.run, k) && SameTerms(store.paper.orders[k], proc.run, proc.cand)
    case Refusal(outcome) =>
      && Bound(store, proc)
      && exists i: nat :: DecisionAt(store.journal, proc.run, i) && store.journal[i].outcome == outcome
    case DuplicateRun => Bound(store, proc) && HasHistory(store, proc.run)
    case RunMismatch =>
      FirstClaim(store.journal, proc.run).Some? && FirstClaim(store.journal, proc.run) != Some(proc.cand)
    case IdentityUnknown => HasHistory(store, proc.run) && FirstClaim(store.journal, proc.run).None?
    case StaleAttempt => Bound(store, proc) && Noted(store.journal, proc.run)
    case Crashed => true
  }

  ghost predicate Bound(store: Store, proc: Proc) {
    FirstClaim(store.journal, proc.run) == Some(proc.cand)
  }
}
