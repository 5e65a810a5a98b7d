/** One (symbol, timeframe) stream of committed market evidence (data/market_evidence.py): every new closed bar, in
    order, one transaction each. */
module MarketEvidence {
  import opened Maybe

  /** `content` stands for the digest of the bar's prices and volume, which the provider label is not part of. */
  datatype Bar = Bar(start: int, content: int, provider: int, closed: bool)
  datatype Row = Row(start: int, content: int, number: nat)

  datatype Kind = Gap | Late | Revision
  datatype Key = Key(kind: Kind, start: int, content: int)
  datatype Detail =
    | Missing(after: int, before: int, intervals: real)
    | BehindWatermark(watermark: int)
    | Differs(committed: int, provider: int)

  datatype Stream = Stream(rows: seq<Row>, anomalies: map<Key, Detail>)
  datatype Outcome = Committed | Duplicate | WasLate | WasRevision

  // --- the specification -------------------------------------------------------------------------------------------

  /** The row committed for a bar start, if any. */
  function RowAt(rows: seq<Row>, start: int): (r: Option<Row>)
    ensures r.None? ==> forall i :: 0 <= i < |rows| ==> rows[i].start != start
    ensures r.Some? ==> r.value in rows && r.value.start == start
  {
    if rows == [] then None
    else if rows[|rows| - 1].start == start then Some(rows[|rows| - 1])
    else RowAt(rows[..|rows| - 1], start)
  }

  /** `INSERT OR IGNORE`: the first record of an anomaly stays. */
  function Noted(anomalies: map<Key, Detail>, key: Key, detail: Detail): map<Key, Detail> {
    if key in anomalies then anomalies else anomalies[key := detail]
  }

  function Intervals(step: int, after: int, before: int): real
    requires step > 0
  {
    (before - after) as real / step as real - 1.0
  }

  /** One transaction. */
  function Commit(step: int, s: Stream, bar: Bar): (Stream, Outcome)
    requires step > 0
  {
    var existing := RowAt(s.rows, bar.start);
    if existing.Some? then
      if existing.value.content == bar.content then (s, Duplicate)
      else (s.(anomalies := Noted(s.anomalies, Key(Revision, bar.start, bar.content),
                                  Differs(existing.value.content, bar.provider))), WasRevision)
    else if s.rows == [] then (s.(rows := s.rows + [Row(bar.start, bar.content, 1)]), Committed)
    else
      var top := s.rows[|s.rows| - 1];
      if bar.start <= top.start then
        (s.(anomalies := Noted(s.anomalies, Key(Late, bar.start, bar.content), BehindWatermark(top.start))), WasLate)
      else
        var anomalies := if bar.start > top.start + step
                         then Noted(s.anomalies, Key(Gap, bar.start, bar.content),
                                    Missing(top.start, bar.start, Intervals(step, top.start, bar.start)))
                         else s.anomalies;
        (Stream(s.rows + [Row(bar.start, bar.content, top.number + 1)], anomalies), Committed)
  }

  function CommitAll(step: int, s: Stream, bars: seq<Bar>): Stream
    requires step > 0
  {
    if bars == [] then s else Commit(step, CommitAll(step, s, bars[..|bars| - 1]), bars[|bars| - 1]).0
  }

  predicate ClosedAt(step: int, bar: Bar, asOf: int) { bar.closed && bar.start + step <= asOf }

  ghost predicate Ascending(bars: seq<Bar>) {
    forall i, j :: 0 <= i < j < |bars| ==> bars[i].start < bars[j].start
  }

  predicate Clash(a: Bar, b: Bar) { a.start == b.start && a != b }

  /** Two bars of one presentation claim the same start with different values. */
  ghost predicate Conflicting(bars: seq<Bar>) {
    exists i, j :: 0 <= i < j < |bars| && Clash(bars[i], bars[j])
  }

  /** The closed bars before the first one that is not closed. */
  function ClosedPrefix(step: int, bars: seq<Bar>, asOf: int): seq<Bar> {
    if bars == [] || !ClosedAt(step, bars[0], asOf) then [] else [bars[0]] + ClosedPrefix(step, bars[1..], asOf)
  }

  // --- the engine --------------------------------------------------------------------------------------------------

  /** The presentation without repeats, by start; `None` when two of its bars conflict. */
  method Arrange(bars: seq<Bar>) returns (ordered: Option<seq<Bar>>)
    ensures ordered.None? <==> Conflicting(bars)
    ensures ordered.Some? ==> Ascending(ordered.value) && forall bar :: bar in ordered.value <==> bar in bars
  {
    var sorted: seq<Bar> := [];
    for n := 0 to |bars|
      invariant Ascending(sorted) && forall bar :: bar in sorted <==> bar in bars[..n]
      invariant !Conflicting(bars[..n])
    {
      var bar := bars[n];
      var at := 0;
      while at < |sorted| && sorted[at].start < bar.start
        invariant at <= |sorted|
        invariant forall k :: 0 <= k < at ==> sorted[k].start < bar.start
      {
        at := at + 1;
      }
      assert bars[..n + 1] == bars[..n] + [bar];
      if at < |sorted| && sorted[at].start == bar.start {
        if sorted[at] != bar {
          assert sorted[at] in bars[..n];
          var k :| 0 <= k < n && bars[..n][k] == sorted[at];
          assert Clash(bars[k], bars[n]);
          return None;
        }
        NoNewConflict(bars, n, sorted, at);
      } else {
        ghost var before := sorted;
        sorted := sorted[..at] + [bar] + sorted[at..];
        assert forall b :: b in sorted <==> b in before || b == bar;
        FreshStart(bars, n, before, at);
      }
    }
    assert bars[..|bars|] == bars;
    return Some(sorted);
  }

  lemma NoNewConflict(bars: seq<Bar>, n: nat, sorted: seq<Bar>, at: nat)
    requires n < |bars| && !Conflicting(bars[..n]) && at < |sorted| && sorted[at] == bars[n] && Ascending(sorted)
    requires forall bar :: bar in sorted <==> bar in bars[..n]
    ensures !Conflicting(bars[..n + 1])
  {
    forall i, j | 0 <= i < j <= n ensures !Clash(bars[i], bars[j]) {
      assert bars[..n][i] == bars[i];
      if j < n {
        assert !Clash(bars[..n][i], bars[..n][j]);
      } else {
        assert bars[i] in sorted;
      }
    }
    PrefixClean(bars, n);
  }

  lemma PrefixClean(bars: seq<Bar>, n: nat)
    requires n < |bars|
    requires forall i, j :: 0 <= i < j <= n ==> !Clash(bars[i], bars[j])
    ensures !Conflicting(bars[..n + 1])
  {
    var next := bars[..n + 1];
    forall i, j | 0 <= i < j < |next| ensures !Clash(next[i], next[j]) {
      assert !Clash(bars[i], bars[j]);
    }
  }

  lemma FreshStart(bars: seq<Bar>, n: nat, sorted: seq<Bar>, at: nat)
    requires n < |bars| && !Conflicting(bars[..n]) && at <= |sorted| && Ascending(sorted)
    requires forall k :: 0 <= k < at ==> sorted[k].start < bars[n].start
    requires at < |sorted| ==> bars[n].start < sorted[at].start
    requires forall bar :: bar in sorted <==> bar in bars[..n]
    ensures !Conflicting(bars[..n + 1])
  {
    forall i, j | 0 <= i < j <= n ensures !Clash(bars[i], bars[j]) {
      assert bars[..n][i] == bars[i];
      if j < n {
        assert !Clash(bars[..n][i], bars[..n][j]);
      } else {
        assert bars[i] in sorted;
        var k :| 0 <= k < |sorted| && sorted[k] == bars[i];
        assert k < at || sorted[at].start <= sorted[k].start;
      }
    }
    PrefixClean(bars, n);
  }

  method SplitClosed(step: int, ordered: seq<Bar>, asOf: int) returns (eligible: seq<Bar>, held: seq<Bar>)
    requires step > 0
    ensures eligible + held == ordered && eligible == ClosedPrefix(step, ordered, asOf)
  {
    for index := 0 to |ordered|
      invariant ClosedPrefix(step, ordered, asOf) == ordered[..index] + ClosedPrefix(step, ordered[index..], asOf)
    {
      if !ClosedAt(step, ordered[index], asOf) {
        return ordered[..index], ordered[index..];
      }
      assert ordered[index..][1..] == ordered[index + 1..];
      assert ordered[..index] + [ordered[index]] == ordered[..index + 1];
    }
    assert ordered[|ordered|..] == [] && ordered[..|ordered|] == ordered;
    return ordered, [];
  }

  class MarketEvidenceEngine {
    const step: int
    var rows: seq<Row>
    var anomalies: map<Key, Detail>

    constructor (duration: int, stored: Stream)
      ensures step == duration && Stream(rows, anomalies) == stored
    {
      step, rows, anomalies := duration, stored.rows, stored.anomalies;
    }

    method Anomaly(kind: Kind, bar: Bar, detail: Detail)
      modifies this`anomalies
      ensures anomalies == Noted(old(anomalies), Key(kind, bar.start, bar.content), detail)
    {
      if Key(kind, bar.start, bar.content) !in anomalies {
        anomalies := anomalies[Key(kind, bar.start, bar.content) := detail];
      }
    }

    method CommitBar(bar: Bar) returns (outcome: Outcome)
      requires step > 0
      modifies this
      ensures (Stream(rows, anomalies), outcome) == Commit(step, old(Stream(rows, anomalies)), bar)
    {
      var existing := RowAt(rows, bar.start);
      if existing.Some? {
        if existing.value.content == bar.content {
          return Duplicate;
        }
        Anomaly(Revision, bar, Differs(existing.value.content, bar.provider));
        return WasRevision;
      }
      var number := 1;
      if rows != [] {
        var top := rows[|rows| - 1];
        if bar.start <= top.start {
          Anomaly(Late, bar, BehindWatermark(top.start));
          return WasLate;
        }
        if bar.start > top.start + step {
          Anomaly(Gap, bar, Missing(top.start, bar.start, Intervals(step, top.start, bar.start)));
        }
        number := top.number + 1;
      }
      rows := rows + [Row(bar.start, bar.content, number)];
      return Committed;
    }

    /** The per-bar transactions of a presentation, of which the process may complete any number before it stops. */
    method CommitBars(bars: seq<Bar>, crash: nat)
      requires step > 0
      modifies this
      ensures Stream(rows, anomalies) == CommitAll(step, old(Stream(rows, anomalies)), Before(bars, crash))
    {
      var n := 0;
      while n < |bars| && n < crash
        invariant 0 <= n <= |bars| && n <= crash
        invariant Stream(rows, anomalies) == CommitAll(step, old(Stream(rows, anomalies)), bars[..n])
      {
        var _ := CommitBar(bars[n]);
        assert bars[..n + 1][..n] == bars[..n];
        n := n + 1;
      }
      assert bars[..|bars|] == bars;
    }

    /** One presentation. The process may stop after any number of its transactions. */
    method Ingest(bars: seq<Bar>, asOf: int, crash: nat) returns (accepted: bool, ghost ordered: seq<Bar>)
      requires step > 0
      modifies this
      ensures accepted == !Conflicting(bars)
      ensures !accepted ==> rows == old(rows) && anomalies == old(anomalies)
      ensures accepted ==>
                && Ascending(ordered) && (forall bar :: bar in ordered <==> bar in bars)
                && Stream(rows, anomalies) == CommitAll(step, old(Stream(rows, anomalies)),
                                                        Before(ClosedPrefix(step, ordered, asOf), crash))
    {
      var arranged := Arrange(bars);
      if arranged.None? {
        return false, [];
      }
      ordered := arranged.value;
      var eligible, _ := SplitClosed(step, arranged.value, asOf);
      CommitBars(eligible, crash);
      accepted := true;
    }
  }

  function Before(bars: seq<Bar>, crash: nat): seq<Bar> { if crash < |bars| then bars[..crash] else bars }
}
