/** Drift episodes: which drift an operator's clear request can end (execution/broker_demo_router.py, `_set_blocked` and
    `_drift_clear_request`; execution/operator_actions.py, `request_drift_clear`). */
module DriftEpisodes {
  import opened Maybe

  /** `blocked` is the router's memory and `current` the drift it last blocked on; `flag`, `episode` and `request` are
      stored. Episode tokens are drawn fresh. `reading` holds the dashboards between their read and their write. */
  datatype State = State(blocked: bool, current: nat, flag: bool, episode: Option<nat>, request: Option<nat>,
                         next: nat, reading: seq<nat>, written: set<nat>, cleared: seq<Ended>)

  /** A drift that a request ended, with the episode the request was made in. */
  datatype Ended = Ended(drift: nat, madeIn: nat)

  datatype Action =
    | Block(stored: bool)
    | ReadEpisode
    | WriteRequest(reader: nat)
    | Honour(verified: bool)
    | OperatorClear(stored: bool)
    | Restart

  function Step(s: State, a: Action): State {
    match a
    case Block(stored) =>
      if s.blocked then s
      else if stored then
        s.(blocked := true, current := s.next, flag := true, episode := Some(s.next), next := s.next + 1,
           written := s.written + {s.next})
      else s.(blocked := true, current := s.next, next := s.next + 1)
    case ReadEpisode => if s.flag && s.episode.Some? then s.(reading := s.reading + [s.episode.value]) else s
    case WriteRequest(reader) =>
      if reader < |s.reading| then
        s.(request := Some(s.reading[reader]), reading := s.reading[..reader] + s.reading[reader + 1..])
      else s
    case Honour(verified) =>
      if s.request.None? then s
      else if !s.blocked || s.request != s.episode || !verified then s.(request := None)
      else s.(blocked := false, flag := false, episode := None, request := None,
              cleared := s.cleared + [Ended(s.current, s.request.value)])
    case OperatorClear(stored) => s.(blocked := false, flag := s.flag && !stored)
    case Restart =>
      if s.flag && s.episode.Some? then s.(blocked := true, current := s.episode.value) else s.(blocked := false)
  }

  function Execute(actions: seq<Action>): State {
    if actions == [] then State(false, 0, false, None, None, 0, [], {}, [])
    else Step(Execute(actions[..|actions| - 1]), actions[|actions| - 1])
  }

  ghost predicate Tokens(s: State) {
    && (s.flag ==> s.episode.Some?)
    && (s.episode.Some? ==> s.episode.value < s.next && s.episode.value in s.written)
    && (s.blocked ==> s.current < s.next)
    && (s.blocked && s.current in s.written ==> s.episode == Some(s.current))
    && (forall e :: e in s.written ==> e < s.next)
  }

  ghost predicate Endings(s: State) {
    && (forall i :: 0 <= i < |s.cleared| ==>
          && s.cleared[i].drift < s.next && s.cleared[i].madeIn in s.written
          && (s.cleared[i].madeIn == s.cleared[i].drift <==> s.cleared[i].drift in s.written))
    && (forall i, j :: 0 <= i < j < |s.cleared| ==> s.cleared[i].madeIn != s.cleared[j].madeIn)
    && (s.episode.Some? ==> forall i :: 0 <= i < |s.cleared| ==> s.cleared[i].madeIn != s.episode.value)
  }

  ghost predicate Inv(s: State) { Tokens(s) && Endings(s) }

  lemma StepKeeps(s: State, a: Action)
    requires Inv(s)
    ensures Inv(Step(s, a))
  {
    if a.Honour? { HonourKeeps(s, a.verified); } else if a.Block? { BlockKeeps(s, a.stored); }
  }

  lemma HonourKeeps(s: State, verified: bool)
    requires Inv(s)
    ensures Inv(Step(s, Honour(verified)))
  {}

  lemma BlockKeeps(s: State, stored: bool)
    requires Inv(s)
    ensures Inv(Step(s, Block(stored)))
  {}

  lemma {:induction false} RunKeeps(actions: seq<Action>)
    ensures Inv(Execute(actions))
  {
    if actions != [] {
      RunKeeps(actions[..|actions| - 1]);
      StepKeeps(Execute(actions[..|actions| - 1]), actions[|actions| - 1]);
    }
  }

  /** A request ends the drift whose episode it was made in exactly when that drift's block was stored; no episode is
      ever used to end two drifts. */
  lemma RequestEndsItsOwnDrift(actions: seq<Action>, i: nat)
    requires i < |Execute(actions).cleared|
    ensures var s := Execute(actions);
            s.cleared[i].madeIn == s.cleared[i].drift <==> s.cleared[i].drift in s.written
    ensures var ended := Execute(actions).cleared;
            forall j :: 0 <= j < |ended| && ended[j].madeIn == ended[i].madeIn ==> j == i
  {
    RunKeeps(actions);
  }

  /** While every block is stored, a request only ever ends the drift it was made in. */
  lemma {:induction false} StoredBlocksAreNeverConfused(actions: seq<Action>)
    requires forall k :: 0 <= k < |actions| && actions[k].Block? ==> actions[k].stored
    ensures var s := Execute(actions);
            && (forall e: nat :: e < s.next ==> e in s.written)
            && (forall i :: 0 <= i < |s.cleared| ==> s.cleared[i].madeIn == s.cleared[i].drift)
  {
    RunKeeps(actions);
    if actions != [] {
      var before, last := actions[..|actions| - 1], actions[|actions| - 1];
      StoredBlocksAreNeverConfused(before);
      assert last.Block? ==> last.stored;
      forall e: nat | e < Execute(actions).next ensures e in Execute(actions).written {
        assert e < Execute(before).next ==> e in Execute(before).written;
      }
    }
  }

  function Confused(): seq<Action> {
    [Block(true), ReadEpisode, OperatorClear(true), WriteRequest(0), Block(false), Honour(true)]
  }

  /** A block whose write failed can be ended by a request that was made in an earlier drift. */
  lemma LostBlockIsEndedByAnOldRequest()
    ensures Execute(Confused()).cleared == [Ended(1, 0)]
  {
    var a := Confused();
    assert a[..5][..4] == a[..4] && a[..4][..3] == a[..3] && a[..3][..2] == a[..2] && a[..2][..1] == a[..1];
    assert a[..1][..0] == [];
    var s1 := State(true, 0, true, Some(0), None, 1, [], {0}, []);
    assert Execute(a[..1]) == s1;
    var s2 := s1.(reading := [0]);
    assert Execute(a[..2]) == s2;
    assert Execute(a[..3]) == s2.(blocked := false, flag := false);
    assert Execute(a[..4]) == s2.(blocked := false, flag := false, request := Some(0), reading := []);
    assert Execute(a[..5]) == s2.(current := 1, flag := false, request := Some(0), next := 2, reading := []);
  }
}
