/** Exactly once, in order, whatever windows are presented and wherever the process stops (data/market_evidence.py). */
module EvidenceLaws {
  import opened Maybe
  import opened MarketEvidence

  // --- order -------------------------------------------------------------------------------------------------------

  /** Chronological, numbered from 1, and no gap record without the row it precedes. */
  ghost predicate Ordered(s: Stream) {
    && (forall i, j :: 0 <= i < j < |s.rows| ==> s.rows[i].start < s.rows[j].start)
    && (forall i :: 0 <= i < |s.rows| ==> s.rows[i].number == i + 1)
  }

  /** Rows are only appended and recorded anomalies never change. */
  ghost predicate Extends(s: Stream, t: Stream) {
    s.rows <= t.rows && forall key :: key in s.anomalies ==> key in t.anomalies && t.anomalies[key] == s.anomalies[key]
  }

  lemma CommitKeeps(step: int, s: Stream, bar: Bar)
    requires step > 0 && Ordered(s)
    ensures Ordered(Commit(step, s, bar).0) && Extends(s, Commit(step, s, bar).0)
  {}

  /** Over every presentation the stream is append-only, strictly chronological and numbered 1 to n. */
  lemma {:induction false} IngestKeeps(step: int, s: Stream, bars: seq<Bar>)
    requires step > 0 && Ordered(s)
    ensures Ordered(CommitAll(step, s, bars)) && Extends(s, CommitAll(step, s, bars))
  {
    if bars == [] {
    } else {
      IngestKeeps(step, s, bars[..|bars| - 1]);
      CommitKeeps(step, CommitAll(step, s, bars[..|bars| - 1]), bars[|bars| - 1]);
    }
  }

  // --- exactly once ------------------------------------------------------------------------------------------------

  /** Presenting the bar again would change nothing. */
  predicate Settled(s: Stream, bar: Bar) {
    var row := RowAt(s.rows, bar.start);
    if row.Some? then row.value.content == bar.content || Key(Revision, bar.start, bar.content) in s.anomalies
    else s.rows != [] && bar.start <= s.rows[|s.rows| - 1].start && Key(Late, bar.start, bar.content) in s.anomalies
  }

  lemma CommitSettles(step: int, s: Stream, bar: Bar)
    requires step > 0
    ensures Settled(Commit(step, s, bar).0, bar)
  {}

  lemma SettledStays(step: int, s: Stream, bar: Bar, next: Bar)
    requires step > 0 && Ordered(s) && Settled(s, bar)
    ensures Settled(Commit(step, s, next).0, bar)
  {
    var t := Commit(step, s, next).0;
    if t.rows != s.rows { assert t.rows[..|t.rows| - 1] == s.rows; }
  }

  lemma {:induction false} AllSettled(step: int, s: Stream, bars: seq<Bar>, i: nat)
    requires step > 0 && Ordered(s) && i < |bars|
    ensures Settled(CommitAll(step, s, bars), bars[i])
    decreases |bars|
  {
    var before := bars[..|bars| - 1];
    IngestKeeps(step, s, before);
    if i == |bars| - 1 {
      CommitSettles(step, CommitAll(step, s, before), bars[i]);
    } else {
      AllSettled(step, s, before, i);
      SettledStays(step, CommitAll(step, s, before), bars[i], bars[|bars| - 1]);
    }
  }

  lemma {:induction false} SettledChangesNothing(step: int, s: Stream, bars: seq<Bar>)
    requires step > 0 && forall i :: 0 <= i < |bars| ==> Settled(s, bars[i])
    ensures CommitAll(step, s, bars) == s
  {
    if bars == [] {
    } else {
      SettledChangesNothing(step, s, bars[..|bars| - 1]);
      assert Settled(s, bars[|bars| - 1]);
    }
  }

  lemma {:induction false} CommitAllSplits(step: int, s: Stream, xs: seq<Bar>, ys: seq<Bar>)
    requires step > 0
    ensures CommitAll(step, s, xs + ys) == CommitAll(step, CommitAll(step, s, xs), ys)
    decreases |ys|
  {
    if ys == [] {
      assert xs + ys == xs;
    } else {
      CommitAllSplits(step, s, xs, ys[..|ys| - 1]);
      assert (xs + ys)[..|xs + ys| - 1] == xs + ys[..|ys| - 1];
    }
  }

  /** A presentation cut by a stop after any of its transactions and then presented again, once or twice, leaves exactly
      what one uninterrupted presentation leaves: rows and anomalies. */
  lemma RetryIsExactlyOnce(step: int, s: Stream, bars: seq<Bar>, cut: nat)
    requires step > 0 && Ordered(s) && cut <= |bars|
    ensures CommitAll(step, CommitAll(step, s, bars[..cut]), bars) == CommitAll(step, s, bars)
  {
    var partial := CommitAll(step, s, bars[..cut]);
    forall i | 0 <= i < cut ensures Settled(partial, bars[..cut][i]) {
      AllSettled(step, s, bars[..cut], i);
    }
    SettledChangesNothing(step, partial, bars[..cut]);
    assert bars == bars[..cut] + bars[cut..];
    CommitAllSplits(step, partial, bars[..cut], bars[cut..]);
    CommitAllSplits(step, s, bars[..cut], bars[cut..]);
  }

  // --- overlapping windows of one history --------------------------------------------------------------------------

  const EMPTY := Stream([], map[])

  /** What one uninterrupted presentation of the first `n` bars of a history leaves. */
  function Whole(step: int, history: seq<Bar>, n: nat): Stream
    requires step > 0 && n <= |history|
  {
    CommitAll(step, EMPTY, history[..n])
  }

  lemma CommitNext(step: int, s: Stream, bar: Bar)
    requires step > 0 && Ordered(s) && forall i :: 0 <= i < |s.rows| ==> s.rows[i].start < bar.start
    ensures var t := Commit(step, s, bar).0;
            && t.rows == s.rows + [Row(bar.start, bar.content, |s.rows| + 1)]
            && forall key :: key in t.anomalies ==> key in s.anomalies || key.kind == Gap
  {}

  lemma {:induction false} WholeRows(step: int, history: seq<Bar>, n: nat)
    requires step > 0 && n <= |history| && Ascending(history)
    ensures |Whole(step, history, n).rows| == n
    ensures forall i :: 0 <= i < n ==> Whole(step, history, n).rows[i] == Row(history[i].start, history[i].content, i + 1)
    ensures forall key :: key in Whole(step, history, n).anomalies ==> key.kind == Gap
  {
    if n > 0 {
      WholeRows(step, history, n - 1);
      assert history[..n][..n - 1] == history[..n - 1];
      CommitNext(step, Whole(step, history, n - 1), history[n - 1]);
    }
  }

  function Max(x: nat, y: nat): nat { if x >= y then x else y }

  /** A window of the history that starts inside or right after what is committed leads to the same stream as one
      uninterrupted presentation. */
  lemma InsideChangesNothing(step: int, history: seq<Bar>, n: nat, a: nat, mid: nat)
    requires step > 0 && a <= mid <= n <= |history|
    ensures CommitAll(step, Whole(step, history, n), history[a..mid]) == Whole(step, history, n)
  {
    var s := Whole(step, history, n);
    forall i | 0 <= i < mid - a ensures Settled(s, history[a..mid][i]) {
      AllSettled(step, EMPTY, history[..n], a + i);
      assert history[a..mid][i] == history[..n][a + i];
    }
    SettledChangesNothing(step, s, history[a..mid]);
  }

  lemma Halves(history: seq<Bar>, a: nat, n: nat, b: nat)
    requires a <= n <= b <= |history|
    ensures history[a..b] == history[a..n] + history[n..b]
  {}

  lemma WholeContinues(step: int, history: seq<Bar>, n: nat, b: nat)
    requires step > 0 && n <= b <= |history|
    ensures CommitAll(step, Whole(step, history, n), history[n..b]) == Whole(step, history, b)
  {
    Halves(history, 0, n, b);
    assert history[0..b] == history[..b] && history[0..n] == history[..n];
    CommitAllSplits(step, EMPTY, history[..n], history[n..b]);
  }

  lemma WindowExtends(step: int, history: seq<Bar>, n: nat, a: nat, b: nat)
    requires step > 0 && a <= b <= |history| && a <= n <= |history|
    ensures CommitAll(step, Whole(step, history, n), history[a..b]) == Whole(step, history, Max(n, b))
  {
    if b <= n {
      InsideChangesNothing(step, history, n, a, b);
    } else {
      var s := Whole(step, history, n);
      Halves(history, a, n, b);
      CommitAllSplits(step, s, history[a..n], history[n..b]);
      InsideChangesNothing(step, history, n, a, n);
      WholeContinues(step, history, n, b);
    }
  }

  lemma {:induction false} CountBounded(step: int, s: Stream, bars: seq<Bar>)
    requires step > 0
    ensures |CommitAll(step, s, bars).rows| <= |s.rows| + |bars|
  {
    if bars == [] {
    } else {
      CountBounded(step, s, bars[..|bars| - 1]);
    }
  }

  /** It does so exactly then: bars skipped by a window that starts later are never committed. */
  lemma WindowExtendsExactly(step: int, history: seq<Bar>, n: nat, a: nat, b: nat)
    requires step > 0 && Ascending(history) && a < b <= |history| && n <= |history|
    ensures CommitAll(step, Whole(step, history, n), history[a..b]) == Whole(step, history, Max(n, b)) <==> a <= n
  {
    if a <= n {
      WindowExtends(step, history, n, a, b);
    } else {
      CountBounded(step, Whole(step, history, n), history[a..b]);
      WholeRows(step, history, n);
      WholeRows(step, history, Max(n, b));
    }
  }

  /** A presented window: the bars `from` up to `upto`, of which the process commits `upto - from` before it stops. */
  datatype Window = Window(from: nat, upto: nat)

  function Reach(windows: seq<Window>): nat {
    if windows == [] then 0 else Max(Reach(windows[..|windows| - 1]), windows[|windows| - 1].upto)
  }

  predicate Overlapping(history: seq<Bar>, windows: seq<Window>) {
    windows == [] ||
    (var last := windows[|windows| - 1];
     && Overlapping(history, windows[..|windows| - 1])
     && last.from <= Reach(windows[..|windows| - 1])
     && last.from <= last.upto <= |history|)
  }

  function Presented(step: int, history: seq<Bar>, windows: seq<Window>): Stream
    requires step > 0 && Overlapping(history, windows)
  {
    if windows == [] then EMPTY
    else
      var last := windows[|windows| - 1];
      CommitAll(step, Presented(step, history, windows[..|windows| - 1]), history[last.from..last.upto])
  }

  /** Any overlapping windows, cut anywhere and presented in any order, commit the same stream and the same gap records
      as one uninterrupted presentation of everything they reached. */
  lemma {:induction false} WindowsConverge(step: int, history: seq<Bar>, windows: seq<Window>)
    requires step > 0 && Ascending(history) && Overlapping(history, windows)
    ensures Reach(windows) <= |history|
    ensures Presented(step, history, windows) == Whole(step, history, Reach(windows))
  {
    if windows == [] {
    } else {
      var last := windows[|windows| - 1];
      WindowsConverge(step, history, windows[..|windows| - 1]);
      WindowExtends(step, history, Reach(windows[..|windows| - 1]), last.from, last.upto);
    }
  }

  // --- gaps --------------------------------------------------------------------------------------------------------

  predicate GapBefore(step: int, rows: seq<Row>, i: nat)
    requires 0 < i < |rows|
  {
    rows[i].start > rows[i - 1].start + step
  }

  function GapKey(row: Row): Key { Key(Gap, row.start, row.content) }

  ghost predicate RecordedAt(step: int, s: Stream, i: nat)
    requires step > 0 && 0 < i < |s.rows|
  {
    && GapKey(s.rows[i]) in s.anomalies
    && s.anomalies[GapKey(s.rows[i])] ==
       Missing(s.rows[i - 1].start, s.rows[i].start, Intervals(step, s.rows[i - 1].start, s.rows[i].start))
  }

  ghost predicate GapOf(step: int, s: Stream, key: Key, i: int) {
    0 < i < |s.rows| && key == GapKey(s.rows[i]) && GapBefore(step, s.rows, i)
  }

  /** A gap is recorded exactly where a row is more than one step after the one before, with what is missing. */
  ghost predicate GapsRecorded(step: int, s: Stream)
    requires step > 0
  {
    && (forall i :: 0 < i < |s.rows| && GapBefore(step, s.rows, i) ==> RecordedAt(step, s, i))
    && (forall key :: key in s.anomalies && key.kind == Gap ==> exists i :: GapOf(step, s, key, i))
  }

  /** What a transaction does to the gap records, and to nothing else. */
  lemma CommitShape(step: int, s: Stream, bar: Bar)
    requires step > 0 && Ordered(s) && GapsRecorded(step, s)
    ensures var t := Commit(step, s, bar).0;
            && Extends(s, t) && (t.rows == s.rows || t.rows == s.rows + [Row(bar.start, bar.content, |s.rows| + 1)])
            && (forall key :: key in t.anomalies && key !in s.anomalies && key.kind == Gap ==>
                  GapOf(step, t, key, |s.rows|))
            && (|t.rows| > |s.rows| > 0 && GapBefore(step, t.rows, |s.rows|) ==> RecordedAt(step, t, |s.rows|))
  {
    var t := Commit(step, s, bar).0;
    var key := Key(Gap, bar.start, bar.content);
    assert forall i :: GapOf(step, s, key, i) ==> s.rows[i].start == bar.start;
  }

  lemma CommitRecordsGaps(step: int, s: Stream, bar: Bar)
    requires step > 0 && Ordered(s) && GapsRecorded(step, s)
    ensures GapsRecorded(step, Commit(step, s, bar).0)
  {
    CommitShape(step, s, bar);
    GapsStay(step, s, Commit(step, s, bar).0);
  }

  lemma GapsStay(step: int, s: Stream, t: Stream)
    requires step > 0 && GapsRecorded(step, s) && Extends(s, t) && |t.rows| <= |s.rows| + 1
    requires forall key :: key in t.anomalies && key !in s.anomalies && key.kind == Gap ==> GapOf(step, t, key, |s.rows|)
    requires |t.rows| > |s.rows| > 0 && GapBefore(step, t.rows, |s.rows|) ==> RecordedAt(step, t, |s.rows|)
    ensures GapsRecorded(step, t)
  {
    forall i | 0 < i < |t.rows| && GapBefore(step, t.rows, i) ensures RecordedAt(step, t, i) {
      if i < |s.rows| {
        assert GapBefore(step, s.rows, i);
        assert RecordedAt(step, s, i);
      }
    }
    forall key | key in t.anomalies && key.kind == Gap ensures exists i :: GapOf(step, t, key, i) {
      if key in s.anomalies {
        var i :| GapOf(step, s, key, i);
        assert GapOf(step, t, key, i);
      }
    }
  }

  /** Over every sequence of presentations, gaps are recorded exactly where they are. */
  lemma {:induction false} IngestRecordsGaps(step: int, s: Stream, bars: seq<Bar>)
    requires step > 0 && Ordered(s) && GapsRecorded(step, s)
    ensures GapsRecorded(step, CommitAll(step, s, bars))
  {
    if bars == [] {
    } else {
      var before := bars[..|bars| - 1];
      IngestRecordsGaps(step, s, before);
      IngestKeeps(step, s, before);
      CommitRecordsGaps(step, CommitAll(step, s, before), bars[|bars| - 1]);
    }
  }

  /** The intervals of the gap records up to row `n`. */
  function RecordedMissing(step: int, s: Stream, n: nat): real
    requires step > 0 && n <= |s.rows|
  {
    if n <= 1 then 0.0
    else
      var key := GapKey(s.rows[n - 1]);
      RecordedMissing(step, s, n - 1) +
      (if key in s.anomalies && s.anomalies[key].Missing? then s.anomalies[key].intervals else 0.0)
  }

  /** Row starts on the provider's grid. */
  ghost predicate Aligned(step: int, s: Stream)
    requires step > 0
  {
    forall i :: 0 <= i < |s.rows| ==> (s.rows[i].start - s.rows[0].start) % step == 0
  }

  lemma Steps(step: int, i: int, j: int)
    requires step > 0 && i * step < j * step
    ensures i < j && i * step + step <= j * step
    ensures i * step + step == j * step ==> j == i + 1
  {
    assert (j - i) * step > 0;
    assert j - i >= 1;
    assert (j - i - 1) * step >= 0;
    assert (j - i - 1) * step == j * step - i * step - step;
  }

  lemma Quotient(step: int, k: int, distance: int)
    requires step > 0 && distance == k * step
    ensures distance as real / step as real == k as real
  {
    assert distance as real == k as real * step as real;
  }

  /** Between two grid points the distance is a whole number of steps. */
  lemma GapIsWhole(step: int, first: int, after: int, before: int)
    requires step > 0 && after < before && (after - first) % step == 0 && (before - first) % step == 0
    ensures before >= after + step
    ensures Intervals(step, after, before) == ((before - first) / step - (after - first) / step - 1) as real
    ensures before == after + step ==> (before - first) / step == (after - first) / step + 1
  {
    var i, j := (after - first) / step, (before - first) / step;
    Steps(step, i, j);
    Quotient(step, j - i, before - after);
  }

  /** What row `n - 1` adds to the recorded intervals. */
  lemma NextGap(step: int, s: Stream, n: nat)
    requires step > 0 && Ordered(s) && GapsRecorded(step, s) && 2 <= n <= |s.rows|
    ensures RecordedMissing(step, s, n) - RecordedMissing(step, s, n - 1) ==
            if GapBefore(step, s.rows, n - 1) then Intervals(step, s.rows[n - 2].start, s.rows[n - 1].start) else 0.0
  {
    var key := GapKey(s.rows[n - 1]);
    assert forall i :: GapOf(step, s, key, i) ==> i == n - 1;
    if GapBefore(step, s.rows, n - 1) {
      assert RecordedAt(step, s, n - 1);
    }
  }

  /** On the grid, the recorded intervals add up to exactly the slots that have no row. */
  lemma {:induction false} GapsAddUp(step: int, s: Stream, n: nat)
    requires step > 0 && Ordered(s) && GapsRecorded(step, s) && Aligned(step, s) && 1 <= n <= |s.rows|
    ensures RecordedMissing(step, s, n) == ((s.rows[n - 1].start - s.rows[0].start) / step + 1 - n) as real
  {
    if n == 1 {
    } else {
      GapsAddUp(step, s, n - 1);
      GapIsWhole(step, s.rows[0].start, s.rows[n - 2].start, s.rows[n - 1].start);
      NextGap(step, s, n);
    }
  }
}
