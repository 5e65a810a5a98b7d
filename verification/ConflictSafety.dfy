/** The global argument behind the submission path. The reserving save never re-reads the journal; that is sound because
    the claim binds the run to one candidate, the decision is a function of candidate and PAPER state, and a PAPER
    state that was left never comes back. */
module ConflictSafety {
  import opened Maybe
  import opened ConflictEngine
  import opened PaperHistory
  import opened ConflictStore
  import opened ConflictPath

  /** Risk V2 decides on the candidate and the PAPER state alone: the drawdown basis in effect does not matter. */
  ghost predicate Deterministic(risk: Risk) {
    forall cand, paper, b, b' :: SingleExposure(paper) && ConflictOf(cand, paper).allow ==>
      (risk(cand, paper, b).Approved? <==> risk(cand, paper, b').Approved?)
  }

  ghost predicate Justified(risk: Risk, cand: Candidate, at: Paper, outcome: Outcome, basis: Basis) {
    match outcome
    case Blocked => !ConflictOf(cand, at).allow
    case RiskRejected => ConflictOf(cand, at).allow && risk(cand, at, basis).Refused?
    case Reserved => ConflictOf(cand, at).allow && risk(cand, at, basis).Approved?
  }

  ghost predicate RowOk(risk: Risk, store: Store, row: Row)
    requires row.Decision?
  {
    && Since(row.at, store.paper)
    && Justified(risk, row.cand, row.at, row.outcome, row.basis)
    && (row.outcome == Reserved ==> row.at != store.paper)
  }

  ghost predicate RunOk(risk: Risk, store: Store, run: nat, cand: Candidate) {
    && DecidedOnce(store, run, cand)
    && (forall i: nat :: DecisionAt(store.journal, run, i) ==> RowOk(risk, store, store.journal[i]))
  }

  ghost predicate Inv(risk: Risk, store: Store) {
    && SingleExposure(store.paper)
    && NotedOnce(store.journal)
    && (forall run: nat, cand: Candidate ::
          FirstClaim(store.journal, run) == Some(cand) ==> RunOk(risk, store, run, cand))
  }

  /** No order of the run in the loaded state, and every decision of the run was taken on that state or a later one. */
  ghost predicate Fresh(store: Store, run: nat, snap: Paper) {
    && Since(snap, store.paper)
    && !HasOrder(snap, run)
    && (forall i: nat :: DecisionAt(store.journal, run, i) ==> Since(snap, store.journal[i].at))
  }

  ghost predicate ProcOk(risk: Risk, store: Store, proc: Proc) {
    match proc.pc
    case Starting => true
    case Finished(result) => Truthful(store, proc, result)
    case _ =>
      && FirstClaim(store.journal, proc.run) == Some(proc.cand)
      && (match proc.pc
          case Loaded(_, snap) => Since(snap, store.paper)
          case Undecided(_, snap) => Fresh(store, proc.run, snap)
          case Refusing(_, snap, outcome, basis) =>
            Fresh(store, proc.run, snap) && outcome != Reserved && Justified(risk, proc.cand, snap, outcome, basis)
          case Reserving(_, snap, quantity, basis) =>
            && Fresh(store, proc.run, snap)
            && Justified(risk, proc.cand, snap, Reserved, basis)
            && risk(proc.cand, snap, basis) == Approved(quantity)
          case Reconciling => HasHistory(store, proc.run)
          case _ => true)
  }

  ghost predicate SysOk(risk: Risk, sys: System) {
    Inv(risk, sys.store) && forall p :: 0 <= p < |sys.procs| ==> ProcOk(risk, sys.store, sys.procs[p])
  }

  /** What every durable change does: PAPER moves forward, the journal only grows, new decisions were taken on the
      state they are committed on, and claims stand. */
  ghost predicate Extends(s: Store, t: Store) {
    && Since(s.paper, t.paper)
    && s.journal <= t.journal
    && (forall i :: |s.journal| <= i < |t.journal| && t.journal[i].Decision? ==> t.journal[i].at == s.paper)
    && (forall run: nat :: FirstClaim(s.journal, run).Some? || HasHistory(s, run) ==>
          FirstClaim(t.journal, run) == FirstClaim(s.journal, run))
  }

  lemma OrdersStay(s: Store, t: Store, run: nat)
    requires Since(s.paper, t.paper) && s.journal <= t.journal
    ensures forall k: nat :: OrderAt(s.paper, run, k) ==>
              OrderAt(t.paper, run, k) && OrderLater(s.paper.orders[k], t.paper.orders[k])
    ensures forall i: nat :: DecisionAt(s.journal, run, i) ==>
              DecisionAt(t.journal, run, i) && t.journal[i] == s.journal[i]
    ensures HasHistory(s, run) ==> HasHistory(t, run)
  {
    forall k: nat | OrderAt(s.paper, run, k)
      ensures OrderAt(t.paper, run, k) && OrderLater(s.paper.orders[k], t.paper.orders[k])
    {
      if s.paper != t.paper { assert OrderLater(s.paper.orders[k], t.paper.orders[k]); }
    }
    forall i: nat | DecisionAt(s.journal, run, i) ensures DecisionAt(t.journal, run, i) {}
  }

  lemma ProcStable(risk: Risk, s: Store, t: Store, proc: Proc)
    requires ProcOk(risk, s, proc) && Extends(s, t)
    ensures ProcOk(risk, t, proc)
  {
    OrdersStay(s, t, proc.run);
    match proc.pc
    case Loaded(_, snap) => SinceTransitive(snap, s.paper, t.paper);
    case Undecided(_, snap) => FreshStable(s, t, proc.run, snap);
    case Refusing(_, snap, _, _) => FreshStable(s, t, proc.run, snap);
    case Reserving(_, snap, _, _) => FreshStable(s, t, proc.run, snap);
    case Finished(result) =>
      match result {
        case Refusal(outcome) =>
          var i: nat :| DecisionAt(s.journal, proc.run, i) && s.journal[i].outcome == outcome;
          assert DecisionAt(t.journal, proc.run, i);
        case StaleAttempt =>
          var i :| 0 <= i < |s.journal| && s.journal[i].StaleNote? && s.journal[i].run == proc.run;
          assert t.journal[i] == s.journal[i];
        case _ =>
      }
    case _ =>
  }

  lemma FreshStable(s: Store, t: Store, run: nat, snap: Paper)
    requires Fresh(s, run, snap) && Extends(s, t)
    ensures Fresh(t, run, snap)
  {
    SinceTransitive(snap, s.paper, t.paper);
    forall i: nat | DecisionAt(t.journal, run, i) ensures Since(snap, t.journal[i].at) {
      if i < |s.journal| { assert DecisionAt(s.journal, run, i); }
    }
  }

  // --- the transactions --------------------------------------------------------------------------------------------

  lemma Appended(s: Store, row: Row, run: nat)
    ensures forall i: nat :: DecisionAt(s.journal + [row], run, i) <==>
              DecisionAt(s.journal, run, i) || (i == |s.journal| && row.Decision? && row.run == run)
  {}

  /** What is known of a claimed run survives any extension that adds neither a decision nor an order of that run. */
  lemma RunUntouched(risk: Risk, s: Store, t: Store, run: nat, cand: Candidate)
    requires RunOk(risk, s, run, cand) && Extends(s, t)
    requires forall i: nat :: DecisionAt(t.journal, run, i) ==> i < |s.journal|
    requires forall k: nat :: OrderAt(t.paper, run, k) ==> k < |s.paper.orders|
    ensures RunOk(risk, t, run, cand)
  {
    OrdersStay(s, t, run);
    forall i: nat | DecisionAt(t.journal, run, i)
      ensures DecisionAt(s.journal, run, i) && t.journal[i] == s.journal[i]
      ensures RowOk(risk, t, t.journal[i]) && DecisionFits(t, t.journal[i], run, cand)
    {
      assert DecisionAt(s.journal, run, i);
      var row := s.journal[i];
      SinceTransitive(row.at, s.paper, t.paper);
      if row.at == t.paper { NeverReturns(row.at, s.paper); }
    }
    forall k: nat | OrderAt(t.paper, run, k) ensures exists i: nat :: ReservedBy(t.journal, run, i, k) {
      if s.paper != t.paper { assert OrderLater(s.paper.orders[k], t.paper.orders[k]); }
      assert OrderAt(s.paper, run, k);
      var i: nat :| ReservedBy(s.journal, run, i, k);
      assert ReservedBy(t.journal, run, i, k);
    }
  }

  lemma WorldKeeps(risk: Risk, s: Store, change: Change)
    requires Inv(risk, s)
    ensures var t := s.(paper := Apply(s.paper, change)); Extends(s, t) && Inv(risk, t)
  {
    var t := s.(paper := Apply(s.paper, change));
    ApplyMovesForward(s.paper, change);
    forall run: nat, cand: Candidate | FirstClaim(t.journal, run) == Some(cand) ensures RunOk(risk, t, run, cand) {
      RunUntouched(risk, s, t, run, cand);
    }
  }

  lemma ClaimKeeps(risk: Risk, s: Store, run: nat, cand: Candidate)
    requires Inv(risk, s)
    ensures var (t, status) := ClaimRun(s, run, cand);
            && Extends(s, t) && Inv(risk, t)
            && (status == Claimed || status == Same ==> FirstClaim(t.journal, run) == Some(cand))
  {
    var (t, status) := ClaimRun(s, run, cand);
    if status == Claimed {
      var row := Claim(run, cand);
      forall r: nat ensures FirstClaim(t.journal, r) == if r == run then Some(cand) else FirstClaim(s.journal, r) {
        ClaimAfterAppend(s.journal, row, r);
      }
      forall r: nat, c: Candidate | FirstClaim(t.journal, r) == Some(c) ensures RunOk(risk, t, r, c) {
        Appended(s, row, r);
        if r != run { RunUntouched(risk, s, t, r, c); }
      }
    }
  }

  lemma NoteKeeps(risk: Risk, s: Store, run: nat, cand: Candidate)
    requires Inv(risk, s)
    ensures var (t, decided) := NoteStale(s, run, cand);
            && Extends(s, t) && Inv(risk, t)
            && (if decided then HasHistory(t, run) else Noted(t.journal, run))
  {
    var (t, decided) := NoteStale(s, run, cand);
    if t != s {
      var row := StaleNote(run, cand);
      assert t.journal[|s.journal|] == row;
      forall r: nat ensures FirstClaim(t.journal, r) == FirstClaim(s.journal, r) {
        ClaimAfterAppend(s.journal, row, r);
      }
      forall r: nat, c: Candidate | FirstClaim(t.journal, r) == Some(c) ensures RunOk(risk, t, r, c) {
        Appended(s, row, r);
        RunUntouched(risk, s, t, r, c);
      }
    }
  }

  lemma DecisionKeepsClaims(s: Store, row: Row)
    requires row.Decision?
    ensures forall r: nat :: FirstClaim(s.journal + [row], r) == FirstClaim(s.journal, r)
  {
    forall r: nat ensures FirstClaim(s.journal + [row], r) == FirstClaim(s.journal, r) {
      ClaimAfterAppend(s.journal, row, r);
    }
  }

  lemma CommitKeeps(risk: Risk, s: Store, row: Row)
    requires Inv(risk, s) && row.Decision? && row.outcome != Reserved && row.order.None?
    requires Justified(risk, row.cand, row.at, row.outcome, row.basis)
    ensures var (t, status) := CommitDecision(s, row);
            && Extends(s, t) && Inv(risk, t)
            && (status == Committed ==> DecisionAt(t.journal, row.run, |s.journal|) && t.journal[|s.journal|] == row)
            && (status == Duplicate ==> HasHistory(t, row.run))
  {
    var (t, status) := CommitDecision(s, row);
    if status == Committed {
      DecisionKeepsClaims(s, row);
      assert Extends(s, t);
      forall r: nat, c: Candidate | FirstClaim(t.journal, r) == Some(c) ensures RunOk(risk, t, r, c) {
        if r != row.run { OtherRun(risk, s, row, r, c); } else { FirstDecision(risk, s, row); }
      }
    }
  }

  lemma OtherRun(risk: Risk, s: Store, row: Row, r: nat, c: Candidate)
    requires row.Decision? && row.run != r && RunOk(risk, s, r, c) && Extends(s, s.(journal := s.journal + [row]))
    ensures RunOk(risk, s.(journal := s.journal + [row]), r, c)
  {
    Appended(s, row, r);
    RunUntouched(risk, s, s.(journal := s.journal + [row]), r, c);
  }

  /** The first decision of an undecided run, taken on the durable state. */
  lemma FirstDecision(risk: Risk, s: Store, row: Row)
    requires row.Decision? && row.outcome != Reserved && row.order.None? && row.at == s.paper
    requires !HasHistory(s, row.run) && Justified(risk, row.cand, row.at, row.outcome, row.basis)
    ensures RunOk(risk, s.(journal := s.journal + [row]), row.run, row.cand)
  {
    Appended(s, row, row.run);
  }

  lemma SameAnswer(risk: Risk, cand: Candidate, at: Paper, outcome: Outcome, b: Basis, b': Basis)
    requires Deterministic(risk) && SingleExposure(at)
    requires Justified(risk, cand, at, Reserved, b) && Justified(risk, cand, at, outcome, b')
    ensures outcome == Reserved
  {}

  lemma NotThisDecision(risk: Risk, s: Store, row: Row, basis: Basis)
    requires Deterministic(risk) && SingleExposure(s.paper) && row.Decision? && RowOk(risk, s, row)
    requires Justified(risk, row.cand, s.paper, Reserved, basis)
    ensures !Since(s.paper, row.at)
  {
    if Since(s.paper, row.at) {
      NeverReturns(s.paper, row.at);
      SameAnswer(risk, row.cand, s.paper, row.outcome, basis, row.basis);
      assert false;
    }
  }

  /** The heart of the protocol. A process whose reservation passes the compare-and-set finds no decision of its run
      in the journal, although the save never looks: an earlier one would have been taken on this very state, by the
      same candidate, with the opposite answer. */
  lemma NothingDecidedAtSave(risk: Risk, s: Store, run: nat, cand: Candidate, basis: Basis)
    requires Deterministic(risk) && SingleExposure(s.paper) && RunOk(risk, s, run, cand)
    requires Fresh(s, run, s.paper) && Justified(risk, cand, s.paper, Reserved, basis)
    ensures !Decided(s.journal, run)
  {
    if Decided(s.journal, run) {
      var i: nat :| i < |s.journal| && DecisionAt(s.journal, run, i);
      assert DecisionFits(s, s.journal[i], run, cand);
      NotThisDecision(risk, s, s.journal[i], basis);
      assert false;
    }
  }

  lemma SaveKeeps(risk: Risk, s: Store, proc: Proc)
    requires Deterministic(risk) && Inv(risk, s) && ProcOk(risk, s, proc) && proc.pc.Reserving?
    ensures var t := ProcStep(risk, s, proc, PaperAccount).0;
            && Extends(s, t) && Inv(risk, t)
            && ProcOk(risk, t, proc.(pc := ProcStep(risk, s, proc, PaperAccount).1))
  {
    var run, cand, snap := proc.run, proc.cand, proc.pc.snap;
    var (t, pc) := ProcStep(risk, s, proc, PaperAccount);
    if s.paper == snap {
      NothingDecidedAtSave(risk, s, run, cand, proc.pc.basis);
      var order := OrderOf(run, cand, proc.pc.quantity);
      AllowedExactly(snap, cand.symbol, cand.side, cand.setup);
      ReserveMovesForward(snap, order);
      var row := t.journal[|s.journal|];
      forall r: nat ensures FirstClaim(t.journal, r) == FirstClaim(s.journal, r) {
        ClaimAfterAppend(s.journal, row, r);
      }
      assert t.paper != s.paper by { assert |t.paper.orders| != |s.paper.orders|; }
      forall r: nat, c: Candidate | FirstClaim(t.journal, r) == Some(c) ensures RunOk(risk, t, r, c) {
        Appended(s, row, r);
        if r != run {
          RunUntouched(risk, s, t, r, c);
        } else {
          forall k: nat | OrderAt(t.paper, run, k) ensures ReservedBy(t.journal, run, |s.journal|, k) {
            if k < |snap.orders| { assert OrderAt(snap, run, k); }
          }
        }
      }
    }
  }

  // --- every step, every run ---------------------------------------------------------------------------------------

  lemma ConsistentRun(risk: Risk, s: Store, run: nat, cand: Candidate)
    requires RunOk(risk, s, run, cand)
    ensures Consistent(s, run, cand)
  {
    forall i: nat | i < |s.paper.orders| && OrderAt(s.paper, run, i) ensures SameTerms(s.paper.orders[i], run, cand) {
      var j: nat :| ReservedBy(s.journal, run, j, i);
      assert DecisionFits(s, s.journal[j], run, cand);
    }
    forall i: nat | i < |s.journal| && DecisionAt(s.journal, run, i) ensures s.journal[i].cand == cand {
      assert DecisionFits(s, s.journal[i], run, cand);
    }
  }

  /** The steps that only read: load, idempotency check, decision, reconciliation. */
  lemma ReadKeeps(risk: Risk, s: Store, proc: Proc, basis: Basis)
    requires Inv(risk, s) && ProcOk(risk, s, proc)
    requires proc.pc.Loading? || proc.pc.Loaded? || proc.pc.Undecided? || proc.pc.Reconciling? || proc.pc.Finished?
    ensures var (t, pc) := ProcStep(risk, s, proc, basis);
            t == s && ProcOk(risk, t, proc.(pc := pc))
  {
    var run, cand := proc.run, proc.cand;
    match proc.pc
    case Loaded(attempt, snap) => OrdersStay(Store(snap, s.journal), s, run);
    case Undecided(attempt, snap) =>
      assert ConflictOf(cand, snap).allow ==>
        Justified(risk, cand, snap, if risk(cand, snap, basis).Approved? then Reserved else RiskRejected, basis);
    case Reconciling => ConsistentRun(risk, s, run, cand);
    case _ =>
  }

  lemma RefusalKeeps(risk: Risk, s: Store, proc: Proc, basis: Basis)
    requires Inv(risk, s) && ProcOk(risk, s, proc) && proc.pc.Refusing?
    ensures var (t, pc) := ProcStep(risk, s, proc, basis);
            Extends(s, t) && Inv(risk, t) && ProcOk(risk, t, proc.(pc := pc))
  {
    CommitKeeps(risk, s, Decision(proc.run, proc.cand, proc.pc.outcome, None, proc.pc.snap, proc.pc.basis));
  }

  lemma StepKeeps(risk: Risk, s: Store, proc: Proc, basis: Basis)
    requires Deterministic(risk) && Inv(risk, s) && ProcOk(risk, s, proc)
    ensures var (t, pc) := ProcStep(risk, s, proc, basis);
            Extends(s, t) && Inv(risk, t) && ProcOk(risk, t, proc.(pc := pc))
  {
    match proc.pc
    case Starting => ClaimKeeps(risk, s, proc.run, proc.cand);
    case Refusing(_, _, _, _) => RefusalKeeps(risk, s, proc, basis);
    case Reserving(_, _, _, _) => SaveKeeps(risk, s, proc);
    case LostTwice => NoteKeeps(risk, s, proc.run, proc.cand);
    case _ => ReadKeeps(risk, s, proc, basis);
  }

  lemma ActionKeeps(risk: Risk, sys: System, a: Action)
    requires Deterministic(risk) && SysOk(risk, sys)
    ensures SysOk(risk, Step(risk, sys, a))
  {
    match a
    case Advance(p, basis) =>
      if p < |sys.procs| {
        StepKeeps(risk, sys.store, sys.procs[p], basis);
        var t := ProcStep(risk, sys.store, sys.procs[p], basis).0;
        forall q | 0 <= q < |sys.procs| && q != p ensures ProcOk(risk, t, sys.procs[q]) {
          ProcStable(risk, sys.store, t, sys.procs[q]);
        }
      }
    case World(change) =>
      WorldKeeps(risk, sys.store, change);
      var t := sys.store.(paper := Apply(sys.store.paper, change));
      forall q | 0 <= q < |sys.procs| ensures ProcOk(risk, t, sys.procs[q]) {
        ProcStable(risk, sys.store, t, sys.procs[q]);
      }
    case _ =>
  }

  lemma NoClaims(journal: seq<Row>, run: nat)
    requires forall i :: 0 <= i < |journal| ==> !journal[i].Claim?
    ensures FirstClaim(journal, run).None?
  {}

  lemma {:induction false} RunKeeps(risk: Risk, store: Store, actions: seq<Action>)
    requires Deterministic(risk) && Initial(store)
    ensures SysOk(risk, Execute(risk, Start(store), actions))
  {
    if actions == [] {
      forall run: nat ensures FirstClaim(store.journal, run).None? { NoClaims(store.journal, run); }
    } else {
      var n := |actions| - 1;
      RunKeeps(risk, store, actions[..n]);
      ActionKeeps(risk, Execute(risk, Start(store), actions[..n]), actions[n]);
    }
  }

  /** Whatever the interleaving, the crashes and the rest of the system do: a run bound to a candidate is decided at
      most once, it has an order exactly when its RESERVED row is durable, order and row carry the candidate's terms,
      no symbol carries two exposures, and every result a process returned is what the database holds. */
  lemma SubmissionIsSafe(risk: Risk, store: Store, actions: seq<Action>)
    requires Deterministic(risk) && Initial(store)
    ensures var sys := Execute(risk, Start(store), actions);
            && Safe(sys.store)
            && SingleExposure(sys.store.paper)
            && NotedOnce(sys.store.journal)
            && forall p :: 0 <= p < |sys.procs| && sys.procs[p].pc.Finished? ==>
                 Truthful(sys.store, sys.procs[p], sys.procs[p].pc.result)
  {
    RunKeeps(risk, store, actions);
    var sys := Execute(risk, Start(store), actions);
    forall p | 0 <= p < |sys.procs| && sys.procs[p].pc.Finished?
      ensures Truthful(sys.store, sys.procs[p], sys.procs[p].pc.result)
    {
      assert ProcOk(risk, sys.store, sys.procs[p]);
    }
    forall run: nat, cand: Candidate | FirstClaim(sys.store.journal, run) == Some(cand)
      ensures DecidedOnce(sys.store, run, cand)
    {
      assert RunOk(risk, sys.store, run, cand);
    }
  }

  /** Two different candidates never both act under one run id. */
  lemma OneCandidatePerRun(risk: Risk, store: Store, actions: seq<Action>, p: nat, q: nat)
    requires Deterministic(risk) && Initial(store)
    requires var sys := Execute(risk, Start(store), actions);
             && p < |sys.procs| && q < |sys.procs| && sys.procs[p].run == sys.procs[q].run
             && Acted(sys.procs[p]) && Acted(sys.procs[q])
    ensures var sys := Execute(risk, Start(store), actions); sys.procs[p].cand == sys.procs[q].cand
  {
    RunKeeps(risk, store, actions);
    var sys := Execute(risk, Start(store), actions);
    assert ProcOk(risk, sys.store, sys.procs[p]) && ProcOk(risk, sys.store, sys.procs[q]);
  }

  /** A process that got past the claim: it is at work, or it returned an outcome of its run. */
  ghost predicate Acted(proc: Proc) {
    match proc.pc
    case Starting => false
    case Finished(result) => result.Submitted? || result.Refusal? || result.DuplicateRun? || result.StaleAttempt?
    case _ => true
  }
}
