/** The durable transactions of the submission path: run claims, decision rows and the guarded save
    (execution/candidate_identity.py, execution/conflict_path.py, storage/database.py). */
module ConflictStore {
  import opened Maybe
  import opened ConflictEngine
  import opened PaperHistory

  /** The fields a fingerprint is computed from. The hash is taken as collision free, so a fingerprint is modelled by
      these fields themselves. `terms` stands for the remaining ones (account, planner and risk policy, declared R:R,
      plan time, instrument). */
  datatype Candidate = Candidate(symbol: string, setup: Option<string>, side: Direction,
                                 entry: real, stop: real, target: real, terms: string)

  /** The drawdown basis in effect while Risk V2 evaluates: the PAPER account, or an external account's equity. */
  datatype Basis = PaperAccount | External(current: real, starting: real) | Unavailable

  datatype Verdict = Approved(quantity: real) | Refused(reason: string)

  datatype Outcome = Blocked | RiskRejected | Reserved

  /** Journal rows of this path. `at` and `basis` are history: the PAPER state and the drawdown basis a decision was
      taken on. */
  datatype Row =
    | Claim(run: nat, cand: Candidate)
    | Decision(run: nat, cand: Candidate, outcome: Outcome, order: Option<nat>, at: Paper, basis: Basis)
    | StaleNote(run: nat, cand: Candidate)

  datatype Store = Store(paper: Paper, journal: seq<Row>)

  function FirstClaim(journal: seq<Row>, run: nat): (c: Option<Candidate>) {
    if journal == [] then None
    else
      var n := |journal| - 1;
      var before := FirstClaim(journal[..n], run);
      if before.Some? then before
      else if journal[n].Claim? && journal[n].run == run then Some(journal[n].cand)
      else None
  }

  predicate DecisionAt(journal: seq<Row>, run: nat, i: nat) {
    i < |journal| && journal[i].Decision? && journal[i].run == run
  }

  predicate Decided(journal: seq<Row>, run: nat) {
    exists i: nat :: i < |journal| && DecisionAt(journal, run, i)
  }

  predicate OrderAt(paper: Paper, run: nat, i: nat) {
    i < |paper.orders| && paper.orders[i].run == run
  }

  predicate HasOrder(paper: Paper, run: nat) {
    exists i: nat :: i < |paper.orders| && OrderAt(paper, run, i)
  }

  predicate Noted(journal: seq<Row>, run: nat) {
    exists i :: 0 <= i < |journal| && journal[i].StaleNote? && journal[i].run == run
  }

  predicate HasHistory(store: Store, run: nat) {
    HasOrder(store.paper, run) || Decided(store.journal, run)
  }

  datatype ClaimStatus = Claimed | Same | Mismatch | UnknownHistory

  function ClaimRun(store: Store, run: nat, cand: Candidate): (Store, ClaimStatus) {
    var existing := FirstClaim(store.journal, run);
    if existing.Some? then (store, if existing.value == cand then Same else Mismatch)
    else if HasHistory(store, run) then (store, UnknownHistory)
    else (store.(journal := store.journal + [Claim(run, cand)]), Claimed)
  }

  datatype CommitStatus = Committed | StaleState | Duplicate | ForeignClaim

  /** Journals one decision row when the run is claimed by its candidate, still has no order and no decisive row, and
      the whole PAPER state is the one the decision was taken on. */
  function CommitDecision(store: Store, row: Row): (Store, CommitStatus)
    requires row.Decision?
  {
    if FirstClaim(store.journal, row.run) != Some(row.cand) then (store, ForeignClaim)
    else if HasHistory(store, row.run) then (store, Duplicate)
    else if store.paper != row.at then (store, StaleState)
    else (store.(journal := store.journal + [row]), Committed)
  }

  /** The guarded save of a reservation: order and decision row together, comparing the PAPER state only. */
  function SaveReservation(store: Store, order: Order, row: Row): (Store, bool)
    requires row.Decision?
  {
    if store.paper != row.at then (store, false)
    else (Store(Reserve(store.paper, order), store.journal + [row]), true)
  }

  function NoteStale(store: Store, run: nat, cand: Candidate): (Store, bool) {
    var decided := HasHistory(store, run);
    if decided || Noted(store.journal, run) then (store, decided)
    else (store.(journal := store.journal + [StaleNote(run, cand)]), decided)
  }

  /** The trading database as these transactions see it; each method is one BEGIN IMMEDIATE block. */
  class TradingDb {
    var paper: Paper
    var journal: seq<Row>

    constructor (paper: Paper, journal: seq<Row>)
      ensures Durable() == Store(paper, journal)
    {
      this.paper, this.journal := paper, journal;
    }

    function Durable(): Store
      reads this
    {
      Store(paper, journal)
    }

    method ClaimedFingerprint(run: nat) returns (claim: Option<Candidate>)
      ensures claim == FirstClaim(journal, run)
    {
      claim := None;
      var i := 0;
      while i < |journal| && claim.None?
        invariant i <= |journal|
        invariant claim == FirstClaim(journal[..i], run)
      {
        assert journal[..i + 1][..i] == journal[..i];
        if journal[i].Claim? && journal[i].run == run {
          claim := Some(journal[i].cand);
        }
        i := i + 1;
      }
      ClaimIsFirst(journal, run, i);
      assert journal[..|journal|] == journal;
    }

    method PriorDecision(run: nat) returns (found: Option<nat>)
      ensures found.Some? <==> Decided(journal, run)
      ensures found.Some? ==> DecisionAt(journal, run, found.value)
                              && forall k: nat :: DecisionAt(journal, run, k) ==> found.value <= k
    {
      found := None;
      var i := 0;
      while i < |journal|
        invariant i <= |journal|
        invariant forall k: nat :: k < i ==> !DecisionAt(journal, run, k)
      {
        if journal[i].Decision? && journal[i].run == run {
          assert DecisionAt(journal, run, i);
          return Some(i);
        }
        i := i + 1;
      }
    }

    method RunOrder(run: nat) returns (found: Option<nat>)
      ensures found.Some? <==> HasOrder(paper, run)
      ensures found.Some? ==> OrderAt(paper, run, found.value)
    {
      found := None;
      var i := 0;
      while i < |paper.orders|
        invariant i <= |paper.orders|
        invariant forall k: nat :: k < i ==> !OrderAt(paper, run, k)
      {
        if paper.orders[i].run == run {
          assert OrderAt(paper, run, i);
          return Some(i);
        }
        i := i + 1;
      }
    }

    method History(run: nat) returns (found: bool)
      ensures found == HasHistory(Durable(), run)
    {
      var order := RunOrder(run);
      var prior := PriorDecision(run);
      found := order.Some? || prior.Some?;
    }

    method AcquireClaim(run: nat, cand: Candidate) returns (status: ClaimStatus)
      modifies this
      ensures (Durable(), status) == ClaimRun(old(Durable()), run, cand)
    {
      var existing := ClaimedFingerprint(run);
      if existing.Some? {
        return if existing.value == cand then Same else Mismatch;
      }
      var history := History(run);
      if history {
        return UnknownHistory;
      }
      journal := journal + [Claim(run, cand)];
      status := Claimed;
    }

    method CommitDecisionRow(row: Row) returns (status: CommitStatus)
      requires row.Decision?
      modifies this
      ensures (Durable(), status) == CommitDecision(old(Durable()), row)
    {
      var claim := ClaimedFingerprint(row.run);
      if claim != Some(row.cand) {
        return ForeignClaim;
      }
      var history := History(row.run);
      if history {
        return Duplicate;
      }
      if paper != row.at {
        return StaleState;
      }
      journal := journal + [row];
      status := Committed;
    }

    method SavePaper(order: Order, row: Row) returns (saved: bool)
      requires row.Decision?
      modifies this
      ensures (Durable(), saved) == SaveReservation(old(Durable()), order, row)
    {
      if paper != row.at {
        return false;
      }
      paper := Reserve(paper, order);
      journal := journal + [row];
      saved := true;
    }

    method AfterDoubleStale(run: nat, cand: Candidate) returns (decided: bool)
      modifies this
      ensures (Durable(), decided) == NoteStale(old(Durable()), run, cand)
    {
      decided := History(run);
      if !decided {
        var noted := false;
        for i := 0 to |journal|
          invariant noted <==> exists k :: 0 <= k < i && journal[k].StaleNote? && journal[k].run == run
        {
          if journal[i].StaleNote? && journal[i].run == run {
            noted := true;
          }
        }
        if !noted {
          journal := journal + [StaleNote(run, cand)];
        }
      }
    }
  }

  /** A claim found in a prefix is the claim of the whole journal: it is never superseded. */
  lemma ClaimIsFirst(journal: seq<Row>, run: nat, i: nat)
    requires i <= |journal|
    ensures FirstClaim(journal[..i], run).Some? ==> FirstClaim(journal, run) == FirstClaim(journal[..i], run)
    decreases |journal|
  {
    if i < |journal| {
      var n := |journal| - 1;
      assert journal[..n][..i] == journal[..i];
      ClaimIsFirst(journal[..n], run, i);
    } else {
      assert journal[..i] == journal;
    }
  }

  lemma ClaimAfterAppend(journal: seq<Row>, row: Row, run: nat)
    ensures FirstClaim(journal + [row], run) ==
            if FirstClaim(journal, run).Some? then FirstClaim(journal, run)
            else if row.Claim? && row.run == run then Some(row.cand) else None
  {
    assert (journal + [row])[..|journal|] == journal;
  }
}
